/** The quad-view layout: the state of the App component as a value, the
    geometry resolver that sizes the four panes, and the transitions the
    drag, mouse-down, stop and resize handlers perform on that state.
    JavaScript numbers are modelled as real numbers; the handlers only
    assign, subtract and halve, so no rounding is involved. */
module Layout {

  datatype Option<T> = None | Some(value: T)

  /** Thickness of a divider bar in pixels; the resolver does not use it. */
  const DividerThickness: real := 8.0
  const HalfDividerThickness: real := DividerThickness / 2.0

  /** The four panes around the crosshair. */
  datatype Quadrant = UpperLeft | UpperRight | LowerLeft | LowerRight
  {
    /** Above the horizontal divider. */
    predicate IsUpper() { this == UpperLeft || this == UpperRight }
    /** Left of the vertical divider. */
    predicate IsLeft() { this == UpperLeft || this == LowerLeft }
  }

  /** The five draggable handles: the two halves of the vertical divider
      (Top, Bottom), the two halves of the horizontal divider (Left, Right)
      and the center handle where they cross. */
  datatype DividerSegment = Top | Right | Bottom | Left | Center

  /** A pane size; both fields are optional in the component's type. */
  datatype Dimension = Dimension(height: Option<real>, width: Option<real>)

  /** The position the drag library reports for the handle being dragged. */
  datatype DragData = DragData(x: real, y: real)

  /** The component's five pieces of state. `horizontalDividerPosition` is
      the y offset of the horizontal divider, `verticalDividerPosition` the
      x offset of the vertical divider. */
  datatype LayoutState = LayoutState(
    isDragging: Option<DividerSegment>,
    windowHeight: real,
    windowWidth: real,
    horizontalDividerPosition: real,
    verticalDividerPosition: real)

  /** Both dividers lie inside the window. */
  predicate DividersInWindow(s: LayoutState)
  {
    0.0 <= s.horizontalDividerPosition <= s.windowHeight &&
    0.0 <= s.verticalDividerPosition <= s.windowWidth
  }

  // ---------------------------------------------------------------------
  // Geometry resolver

  /** The size of one pane. Per axis it is either the divider offset or the
      window dimension minus that offset, depending on which side of the
      crosshair the pane lies; both fields are always defined. */
  function GetViewportDimensions(quadrant: Quadrant, s: LayoutState): (r: Dimension)
    ensures r.height.Some? && r.width.Some?
    ensures r.height.value ==
      if quadrant.IsUpper() then s.horizontalDividerPosition
      else s.windowHeight - s.horizontalDividerPosition
    ensures r.width.value ==
      if quadrant.IsLeft() then s.verticalDividerPosition
      else s.windowWidth - s.verticalDividerPosition
    ensures DividersInWindow(s) ==>
      0.0 <= r.height.value <= s.windowHeight && 0.0 <= r.width.value <= s.windowWidth
  {
    var h, v := s.horizontalDividerPosition, s.verticalDividerPosition;
    match quadrant
    case UpperLeft => Dimension(Some(h), Some(v))
    case UpperRight => Dimension(Some(h), Some(s.windowWidth - v))
    case LowerRight => Dimension(Some(s.windowHeight - h), Some(s.windowWidth - v))
    case LowerLeft => Dimension(Some(s.windowHeight - h), Some(v))
  }

  function Height(quadrant: Quadrant, s: LayoutState): real
  {
    GetViewportDimensions(quadrant, s).height.value
  }

  function Width(quadrant: Quadrant, s: LayoutState): real
  {
    GetViewportDimensions(quadrant, s).width.value
  }

  /** The four sizes the component computes on every render. */
  datatype Viewports = Viewports(upperLeft: Dimension, upperRight: Dimension,
                                 lowerLeft: Dimension, lowerRight: Dimension)

  /** All four pane sizes of one state. Panes in one row share a height,
      panes in one column share a width, the two rows fill the window's
      height and the two columns its width, and no size is negative exactly
      when both dividers lie inside the window. */
  function AllViewportDimensions(s: LayoutState): (r: Viewports)
    ensures r.upperLeft.height.Some? && r.upperLeft.width.Some?
    ensures r.upperRight.height.Some? && r.upperRight.width.Some?
    ensures r.lowerLeft.height.Some? && r.lowerLeft.width.Some?
    ensures r.lowerRight.height.Some? && r.lowerRight.width.Some?
    ensures r.upperLeft.height == r.upperRight.height
    ensures r.lowerLeft.height == r.lowerRight.height
    ensures r.upperLeft.width == r.lowerLeft.width
    ensures r.upperRight.width == r.lowerRight.width
    ensures r.upperLeft.height.value + r.lowerLeft.height.value == s.windowHeight
    ensures r.upperLeft.width.value + r.upperRight.width.value == s.windowWidth
    ensures DividersInWindow(s) <==>
      (0.0 <= r.upperLeft.height.value && 0.0 <= r.lowerLeft.height.value &&
       0.0 <= r.upperLeft.width.value && 0.0 <= r.upperRight.width.value)
  {
    Viewports(GetViewportDimensions(UpperLeft, s),
              GetViewportDimensions(UpperRight, s),
              GetViewportDimensions(LowerLeft, s),
              GetViewportDimensions(LowerRight, s))
  }

  // ---------------------------------------------------------------------
  // Initial state and transitions

  /** The state on mount: the window size read at that moment, both dividers
      centered, no handle held. Every pane then has half the window's height
      and half its width. */
  function InitialState(innerHeight: real, innerWidth: real): (s: LayoutState)
    ensures s.isDragging == None
    ensures s.windowHeight == innerHeight && s.windowWidth == innerWidth
    ensures forall q: Quadrant ::
              GetViewportDimensions(q, s) == Dimension(Some(innerHeight / 2.0), Some(innerWidth / 2.0))
  {
    LayoutState(None, innerHeight, innerWidth, innerHeight / 2.0, innerWidth / 2.0)
  }

  /** The horizontal divider follows the sample's y, unclamped; nothing
      else changes, so no pane's width changes and the upper panes take
      exactly that height. */
  function DragHorizontal(s: LayoutState, data: DragData): (r: LayoutState)
    ensures r.horizontalDividerPosition == data.y
    ensures r.(horizontalDividerPosition := s.horizontalDividerPosition) == s
    ensures forall q: Quadrant :: Width(q, r) == Width(q, s)
    ensures Height(UpperLeft, r) == Height(UpperRight, r) == data.y
  {
    s.(horizontalDividerPosition := data.y)
  }

  /** The vertical divider follows the sample's x, unclamped; nothing else
      changes, so no pane's height changes. */
  function DragVertical(s: LayoutState, data: DragData): (r: LayoutState)
    ensures r.verticalDividerPosition == data.x
    ensures r.(verticalDividerPosition := s.verticalDividerPosition) == s
    ensures forall q: Quadrant :: Height(q, r) == Height(q, s)
    ensures Width(UpperLeft, r) == Width(LowerLeft, r) == data.x
  {
    s.(verticalDividerPosition := data.x)
  }

  /** The center handle moves both dividers from one sample: the same as a
      horizontal drag and a vertical drag with that sample, in either order. */
  function DragBoth(s: LayoutState, data: DragData): (r: LayoutState)
    ensures r == DragVertical(DragHorizontal(s, data), data)
    ensures r == DragHorizontal(DragVertical(s, data), data)
  {
    s.(horizontalDividerPosition := data.y, verticalDividerPosition := data.x)
  }

  /** A resize stores the new window size and leaves both dividers where
      they were: the upper-left pane keeps its size and the panes on the
      far side of each divider absorb the whole change. */
  function Resized(s: LayoutState, innerHeight: real, innerWidth: real): (r: LayoutState)
    ensures r.windowHeight == innerHeight && r.windowWidth == innerWidth
    ensures r.(windowHeight := s.windowHeight, windowWidth := s.windowWidth) == s
    ensures GetViewportDimensions(UpperLeft, r) == GetViewportDimensions(UpperLeft, s)
    ensures Height(LowerLeft, r) - Height(LowerLeft, s) == innerHeight - s.windowHeight
    ensures Height(LowerRight, r) - Height(LowerRight, s) == innerHeight - s.windowHeight
    ensures Width(UpperRight, r) - Width(UpperRight, s) == innerWidth - s.windowWidth
    ensures Width(LowerRight, r) - Width(LowerRight, s) == innerWidth - s.windowWidth
  {
    s.(windowHeight := innerHeight, windowWidth := innerWidth)
  }

  /** Mouse-down on a handle records that handle; nothing else changes. */
  function PressHandle(s: LayoutState, segment: DividerSegment): (r: LayoutState)
    ensures r.isDragging == Some(segment)
    ensures r.(isDragging := s.isDragging) == s
  {
    s.(isDragging := Some(segment))
  }

  /** Stopping a drag on any handle clears the record; nothing else changes. */
  function ReleaseHandle(s: LayoutState): (r: LayoutState)
    ensures r.isDragging == None
    ensures r.(isDragging := s.isDragging) == s
  {
    s.(isDragging := None)
  }

  // ---------------------------------------------------------------------
  // Routing of drags per handle

  /** The three drag handlers of the component. */
  datatype DragHandler = HorizontalDividerDrag | VerticalDividerDrag | MultiDrag

  /** Which divider a handle moves, stated geometrically: the halves of
      the vertical divider, and the center, move the vertical divider; the
      halves of the horizontal divider, and the center, move the horizontal
      one. */
  predicate MovesVerticalDivider(segment: DividerSegment)
  {
    segment in {Top, Bottom, Center}
  }

  predicate MovesHorizontalDivider(segment: DividerSegment)
  {
    segment in {Left, Right, Center}
  }

  /** The handler wired to each handle's onDrag. */
  function HandlerFor(segment: DividerSegment): (h: DragHandler)
    ensures h == VerticalDividerDrag <==> segment == Top || segment == Bottom
    ensures h == HorizontalDividerDrag <==> segment == Left || segment == Right
    ensures h == MultiDrag <==> segment == Center
  {
    match segment
    case Top => VerticalDividerDrag
    case Bottom => VerticalDividerDrag
    case Left => HorizontalDividerDrag
    case Right => HorizontalDividerDrag
    case Center => MultiDrag
  }

  /** A drag sample delivered to one handle: it moves exactly the dividers
      that handle controls, to the sample's coordinates, and leaves the
      window size and the held handle alone. */
  function DragHandle(s: LayoutState, segment: DividerSegment, data: DragData): (r: LayoutState)
    ensures r.horizontalDividerPosition ==
      if MovesHorizontalDivider(segment) then data.y else s.horizontalDividerPosition
    ensures r.verticalDividerPosition ==
      if MovesVerticalDivider(segment) then data.x else s.verticalDividerPosition
    ensures r.windowHeight == s.windowHeight && r.windowWidth == s.windowWidth
    ensures r.isDragging == s.isDragging
  {
    match HandlerFor(segment)
    case HorizontalDividerDrag => DragHorizontal(s, data)
    case VerticalDividerDrag => DragVertical(s, data)
    case MultiDrag => DragBoth(s, data)
  }

  // ---------------------------------------------------------------------
  // Sequences of events over the component's lifetime

  /** One handler invocation, as the host delivers them in order. */
  datatype Event =
    | MouseDown(segment: DividerSegment)
    | Drag(segment: DividerSegment, data: DragData)
    | Stop
    | Resize(innerHeight: real, innerWidth: real)

  function Step(s: LayoutState, e: Event): LayoutState
  {
    match e
    case MouseDown(segment) => PressHandle(s, segment)
    case Drag(segment, data) => DragHandle(s, segment, data)
    case Stop => ReleaseHandle(s)
    case Resize(innerHeight, innerWidth) => Resized(s, innerHeight, innerWidth)
  }

  /** The state after the events, applied first to last. */
  function Run(s: LayoutState, events: seq<Event>): LayoutState
    decreases |events|
  {
    if events == [] then s else Run(Step(s, events[0]), events[1..])
  }

  lemma {:induction false} RunAppend(s: LayoutState, events: seq<Event>, e: Event)
    ensures Run(s, events + [e]) == Step(Run(s, events), e)
    decreases |events|
  {
    if events == [] {
      assert [e][1..] == [];
    } else {
      assert (events + [e])[1..] == events[1..] + [e];
      RunAppend(Step(s, events[0]), events[1..], e);
    }
  }

  /** Reference definitions that read a history from its latest event
      backwards: each piece of state is set by the last event that writes
      it, or is the starting value when no event does. */
  function LastHorizontal(start: real, events: seq<Event>): real
    decreases |events|
  {
    if events == [] then start
    else
      var e := events[|events| - 1];
      if e.Drag? && MovesHorizontalDivider(e.segment) then e.data.y
      else LastHorizontal(start, events[..|events| - 1])
  }

  function LastVertical(start: real, events: seq<Event>): real
    decreases |events|
  {
    if events == [] then start
    else
      var e := events[|events| - 1];
      if e.Drag? && MovesVerticalDivider(e.segment) then e.data.x
      else LastVertical(start, events[..|events| - 1])
  }

  function LastHeld(start: Option<DividerSegment>, events: seq<Event>): Option<DividerSegment>
    decreases |events|
  {
    if events == [] then start
    else
      var e := events[|events| - 1];
      if e.MouseDown? then Some(e.segment)
      else if e.Stop? then None
      else LastHeld(start, events[..|events| - 1])
  }

  function LastWindow(start: (real, real), events: seq<Event>): (real, real)
    decreases |events|
  {
    if events == [] then start
    else
      var e := events[|events| - 1];
      if e.Resize? then (e.innerHeight, e.innerWidth)
      else LastWindow(start, events[..|events| - 1])
  }

  /** Nothing accumulates: after any history each divider sits at the last
      coordinate delivered to a handle that moves it, the window has the
      last size reported, and the held handle is the one of the last
      mouse-down unless a stop came after it. */
  lemma {:induction false} RunFollowsLastEvents(s: LayoutState, events: seq<Event>)
    ensures Run(s, events).horizontalDividerPosition ==
      LastHorizontal(s.horizontalDividerPosition, events)
    ensures Run(s, events).verticalDividerPosition ==
      LastVertical(s.verticalDividerPosition, events)
    ensures Run(s, events).isDragging == LastHeld(s.isDragging, events)
    ensures (Run(s, events).windowHeight, Run(s, events).windowWidth) ==
      LastWindow((s.windowHeight, s.windowWidth), events)
    decreases |events|
  {
    if events != [] {
      var init, e := events[..|events| - 1], events[|events| - 1];
      assert events == init + [e];
      RunAppend(s, init, e);
      RunFollowsLastEvents(s, init);
    }
  }

  /** Under any number of resizes the dividers stay fixed, so the upper-left
      pane keeps its size. */
  lemma {:induction false} ResizesKeepDividers(s: LayoutState, events: seq<Event>)
    requires forall i :: 0 <= i < |events| ==> events[i].Resize?
    ensures Run(s, events).horizontalDividerPosition == s.horizontalDividerPosition
    ensures Run(s, events).verticalDividerPosition == s.verticalDividerPosition
    ensures Run(s, events).isDragging == s.isDragging
    ensures GetViewportDimensions(UpperLeft, Run(s, events)) ==
      GetViewportDimensions(UpperLeft, s)
    decreases |events|
  {
    if events != [] {
      assert events[0].Resize?;
      ResizesKeepDividers(Step(s, events[0]), events[1..]);
    }
  }

  /** Drags, mouse-downs and stops never change the window size. */
  lemma {:induction false} HandleEventsKeepWindow(s: LayoutState, events: seq<Event>)
    requires forall i :: 0 <= i < |events| ==> !events[i].Resize?
    ensures Run(s, events).windowHeight == s.windowHeight
    ensures Run(s, events).windowWidth == s.windowWidth
    decreases |events|
  {
    if events != [] {
      assert !events[0].Resize?;
      HandleEventsKeepWindow(Step(s, events[0]), events[1..]);
    }
  }

  /** No clamping: a drag past the bottom edge gives the lower panes a
      negative height, and a drag past the right edge gives the right panes
      a negative width. */
  lemma DragPastEdgeGoesNegative(s: LayoutState, data: DragData)
    requires data.y > s.windowHeight && data.x > s.windowWidth
    ensures Height(LowerLeft, DragBoth(s, data)) < 0.0
    ensures Width(UpperRight, DragBoth(s, data)) < 0.0
    ensures !DividersInWindow(DragBoth(s, data))
  {
  }

  /** A drag to a point inside the window keeps both dividers inside it. */
  lemma DragInsideStaysInWindow(s: LayoutState, segment: DividerSegment, data: DragData)
    requires DividersInWindow(s)
    requires 0.0 <= data.y <= s.windowHeight && 0.0 <= data.x <= s.windowWidth
    ensures DividersInWindow(DragHandle(s, segment, data))
  {
  }
}
