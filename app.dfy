/** The App component as an object: its five pieces of state are fields,
    and each event handler is a method that updates them in place. Every
    method is specified by the value-level transition of module Layout it
    performs, and says outright which fields it sets and that the others
    keep their values. */
module AppComponent {
  import opened Layout

  class App {
    var isDragging: Option<DividerSegment>
    var windowHeight: real
    var windowWidth: real
    var horizontalDividerPosition: real
    var verticalDividerPosition: real

    /** The fields as one value. */
    function State(): LayoutState
      reads this
    {
      LayoutState(isDragging, windowHeight, windowWidth,
                  horizontalDividerPosition, verticalDividerPosition)
    }

    /** Mounting: the window size is passed in, the dividers start centered
        and no handle is held. */
    constructor (innerHeight: real, innerWidth: real)
      ensures State() == InitialState(innerHeight, innerWidth)
      ensures isDragging == None
      ensures windowHeight == innerHeight && windowWidth == innerWidth
      ensures horizontalDividerPosition == innerHeight / 2.0
      ensures verticalDividerPosition == innerWidth / 2.0
    {
      isDragging := None;
      windowHeight := innerHeight;
      windowWidth := innerWidth;
      horizontalDividerPosition := innerHeight / 2.0;
      verticalDividerPosition := innerWidth / 2.0;
    }

    method OnHorizontalDividerDrag(data: DragData)
      modifies this
      ensures State() == DragHorizontal(old(State()), data)
      ensures horizontalDividerPosition == data.y
      ensures verticalDividerPosition == old(verticalDividerPosition)
      ensures windowHeight == old(windowHeight) && windowWidth == old(windowWidth)
      ensures isDragging == old(isDragging)
    {
      horizontalDividerPosition := data.y;
    }

    method OnVerticalDividerDrag(data: DragData)
      modifies this
      ensures State() == DragVertical(old(State()), data)
      ensures verticalDividerPosition == data.x
      ensures horizontalDividerPosition == old(horizontalDividerPosition)
      ensures windowHeight == old(windowHeight) && windowWidth == old(windowWidth)
      ensures isDragging == old(isDragging)
    {
      verticalDividerPosition := data.x;
    }

    /** Both dividers from one sample. Only the state after the handler
        returns is modelled; whether a render happens between the two
        setter calls depends on the React version. */
    method OnMultiDrag(data: DragData)
      modifies this
      ensures State() == DragBoth(old(State()), data)
      ensures horizontalDividerPosition == data.y && verticalDividerPosition == data.x
      ensures windowHeight == old(windowHeight) && windowWidth == old(windowWidth)
      ensures isDragging == old(isDragging)
    {
      horizontalDividerPosition := data.y;
      verticalDividerPosition := data.x;
    }

    /** The new window size is passed in; the dividers are not moved. As for
        OnMultiDrag, only the state after the handler returns is modelled. */
    method HandleResize(innerHeight: real, innerWidth: real)
      modifies this
      ensures State() == Resized(old(State()), innerHeight, innerWidth)
      ensures windowHeight == innerHeight && windowWidth == innerWidth
      ensures horizontalDividerPosition == old(horizontalDividerPosition)
      ensures verticalDividerPosition == old(verticalDividerPosition)
      ensures isDragging == old(isDragging)
    {
      windowHeight := innerHeight;
      windowWidth := innerWidth;
    }

    /** The onMouseDown callback of a handle. */
    method OnMouseDown(segment: DividerSegment)
      modifies this
      ensures State() == PressHandle(old(State()), segment)
      ensures isDragging == Some(segment)
      ensures windowHeight == old(windowHeight) && windowWidth == old(windowWidth)
      ensures horizontalDividerPosition == old(horizontalDividerPosition)
      ensures verticalDividerPosition == old(verticalDividerPosition)
    {
      isDragging := Some(segment);
    }

    /** The onStop callback, the same on every handle. */
    method OnStop()
      modifies this
      ensures State() == ReleaseHandle(old(State()))
      ensures isDragging == None
      ensures windowHeight == old(windowHeight) && windowWidth == old(windowWidth)
      ensures horizontalDividerPosition == old(horizontalDividerPosition)
      ensures verticalDividerPosition == old(verticalDividerPosition)
    {
      isDragging := None;
    }

    /** The onDrag callback of a handle: the handler wired to it runs. */
    method OnDrag(segment: DividerSegment, data: DragData)
      modifies this
      ensures State() == DragHandle(old(State()), segment, data)
      ensures horizontalDividerPosition ==
        if MovesHorizontalDivider(segment) then data.y else old(horizontalDividerPosition)
      ensures verticalDividerPosition ==
        if MovesVerticalDivider(segment) then data.x else old(verticalDividerPosition)
      ensures windowHeight == old(windowHeight) && windowWidth == old(windowWidth)
      ensures isDragging == old(isDragging)
    {
      match HandlerFor(segment)
      case HorizontalDividerDrag => OnHorizontalDividerDrag(data);
      case VerticalDividerDrag => OnVerticalDividerDrag(data);
      case MultiDrag => OnMultiDrag(data);
    }

    /** Delivers one event to the handler it belongs to. */
    method Handle(e: Event)
      modifies this
      ensures State() == Step(old(State()), e)
    {
      match e
      case MouseDown(segment) => OnMouseDown(segment);
      case Drag(segment, data) => OnDrag(segment, data);
      case Stop => OnStop();
      case Resize(innerHeight, innerWidth) => HandleResize(innerHeight, innerWidth);
    }
  }
}
