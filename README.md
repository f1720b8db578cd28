# quad-view layout model

A Dafny model of the layout logic of the `App` component of quad-view, a
viewport split into four panes ("quadrants") by a crosshair of two draggable
dividers. The component holds five pieces of state: the window height and
width, the y offset of the horizontal divider, the x offset of the vertical
divider, and which divider handle (`DIVIDER_SEGMENTS`: Top, Right, Bottom,
Left, Center) is held, if any. Three drag handlers, a resize handler and the
mouse-down / stop callbacks of the five handles change that state; a resolver
(`getViewportDimensions`) turns it into the height and width of each pane.

- `layout.dfy`, module `Layout`: the state as a value (`LayoutState`), the
  resolver `GetViewportDimensions`, the four sizes computed on every render
  (`AllViewportDimensions`), the initial state, one value-level transition per
  handler, the routing of each handle's `onDrag` to its handler, and lemmas
  about whole sequences of handler invocations (`Run`).
- `app.dfy`, module `AppComponent`: class `App`, whose fields are the five
  pieces of state and whose methods are the handlers. Each method updates the
  fields in place and is proved to perform the matching `Layout` transition,
  with its frame (the fields it leaves alone) stated.

JavaScript numbers are modelled as `real`: the code only assigns, subtracts
and halves them, so `windowHeight / 2` is exact. The divider thickness
constants (8 and 4) are declared but, as in the code, the resolver does not
use them.

The drag handlers assign the raw sample coordinates: nothing clamps the
dividers or the pane sizes, the resolver applies no thickness deflation, and
the resize handler leaves the dividers at their pixel positions. The `<==>` in
the contract of `AllViewportDimensions` shows the consequence on every side:
some pane size is negative exactly when a divider lies outside the window;
`DragPastEdgeGoesNegative` gives one instance, a sample beyond the
bottom-right corner.

## Model

| member | source | states |
|---|---|---|
| Layout.GetViewportDimensions | src/App.tsx:61-87 | total over the four quadrants and both fields always defined; per axis the size is the divider offset on the near side and the window dimension minus the offset on the far side; with both dividers inside the window every size lies between 0 and the window dimension |
| Layout.AllViewportDimensions | src/App.tsx:91-94 | panes in one row have equal heights and panes in one column equal widths; upper plus lower height is the window height, left plus right width the window width; all sizes are non-negative exactly when both dividers lie inside the window |
| Layout.InitialState | src/App.tsx:29-33 | on mount no handle is held, the window size is the one read, and every pane has half the window height and half its width |
| Layout.DragHorizontal | src/App.tsx:35-37 | the horizontal divider becomes exactly the sample's y (unclamped), every other field is unchanged, no pane width changes and both upper panes take height y |
| Layout.DragVertical | src/App.tsx:39-42 | the vertical divider becomes exactly the sample's x (unclamped), every other field is unchanged, no pane height changes and both left panes take width x |
| Layout.DragBoth | src/App.tsx:44-47 | the multi-drag equals a horizontal drag followed by a vertical drag with the same sample, in either order |
| Layout.Resized | src/App.tsx:49-52 | the window size is replaced and nothing else changes; the upper-left pane keeps its size and the lower and right panes absorb the whole change in height and width |
| Layout.PressHandle | src/App.tsx:105 | mouse-down on a handle records exactly that handle and changes nothing else |
| Layout.ReleaseHandle | src/App.tsx:106 | stop clears the held handle and changes nothing else |
| Layout.HandlerFor | src/App.tsx:103-158 | Top and Bottom are wired to the vertical divider handler, Left and Right to the horizontal divider handler, Center to the multi-drag handler, each in both directions |
| Layout.DragHandle | src/App.tsx:103-158 | a drag on a handle moves exactly the dividers that handle controls (vertical for Top, Bottom, Center; horizontal for Left, Right, Center) to the sample's coordinates, and leaves the window size and held handle alone |
| Layout.RunAppend | src/App.tsx:35-52 | handling a history and then one more event is the same as handling the longer history |
| Layout.RunFollowsLastEvents | src/App.tsx:35-52 | after any history, each divider sits at the last coordinate delivered to a handle that moves it, the window has the last size reported, and the held handle is the one of the last mouse-down unless a stop followed |
| Layout.ResizesKeepDividers | src/App.tsx:49-52 | any number of resizes leaves both dividers, the held handle and the upper-left pane's size unchanged |
| Layout.HandleEventsKeepWindow | src/App.tsx:35-47 | drags, mouse-downs and stops never change the window size |
| Layout.DragPastEdgeGoesNegative | src/App.tsx:44-47 | with no clamping, a sample beyond the bottom-right corner makes the lower panes' height and the right panes' width negative |
| Layout.DragInsideStaysInWindow | src/App.tsx:35-47 | a drag to a point inside the window keeps both dividers inside it |
| AppComponent.App.constructor | src/App.tsx:29-33 | the fields start as the initial state: no handle held, the given window size, both dividers at half of it |
| AppComponent.App.OnHorizontalDividerDrag | src/App.tsx:35-37 | sets the horizontal divider field to y and leaves the other four fields unchanged |
| AppComponent.App.OnVerticalDividerDrag | src/App.tsx:39-42 | sets the vertical divider field to x and leaves the other four fields unchanged |
| AppComponent.App.OnMultiDrag | src/App.tsx:44-47 | sets both divider fields from one sample and leaves the window size and held handle unchanged |
| AppComponent.App.HandleResize | src/App.tsx:49-52 | sets the window size fields to the new size and leaves both dividers and the held handle unchanged |
| AppComponent.App.OnMouseDown | src/App.tsx:105 | sets the held handle to the pressed segment and leaves the other fields unchanged |
| AppComponent.App.OnStop | src/App.tsx:106 | clears the held handle and leaves the other fields unchanged |
| AppComponent.App.OnDrag | src/App.tsx:103-158 | runs the handler wired to the segment and so moves exactly the dividers that segment controls |
| AppComponent.App.Handle | src/App.tsx:35-52 | delivering an event to its handler performs that event's transition |

## Left out

- JSX rendering, the styled components and the flex layout: presentation only.
- The drag library's pointer capture and its production of drag samples: a
  foreign library; the sample coordinates are arbitrary inputs. The library
  calls a handle's `onDrag` only between its mouse-down and stop; the handlers
  themselves do not check the held handle, so the model does not gate drags on it.
- Subscribing to and unsubscribing from the window's resize event, and reading
  `window.innerHeight` / `window.innerWidth`: host I/O; the sizes are method
  and function parameters.
- The `console.log` call in the vertical divider handler and the empty
  `updateViewportDimensions`: a side effect and dead code.
- Renders between the two setter calls of `onMultiDrag` and of
  `handleResize`: the model keeps only the state after each handler returns.
  Whether React renders between the two calls (a state with one field updated
  and the other not) depends on the React version and on where the listener
  was attached; the state after the handler returns is the same either way.
- IEEE floating point: numbers are exact reals.
