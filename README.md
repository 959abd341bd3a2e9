# baby-excalidraw scene-editing engine, in Dafny

This project models the core of a small React whiteboard (`src/App.jsx`), together with the
earlier, smaller drawing loop in `src/App-clone.jsx`. The model covers:

- **Elements** (`elements.dfy`, module `Elements`). An element is a line or a rectangle with an
  identifier and integer coordinates `x1, y1, x2, y2`. Its kind is the name of the tool that
  drew it (`Tool`). Only `Rectangle` is treated as a box; every other kind is treated as a line.
  A scene is a `seq<Element>`. Its invariant `WellIndexed` says that every element's id is its
  index. `WriteSlot` is the `elementsCopy[id] = element` write of `updateElement`.
- **Hit-testing** (`geometry.dfy`, module `Geometry`). This has `nearPoint`'s 5-unit square,
  `positionWithinElement` with its corner and end precedence, and `getElementAtPosition` as a
  first-match scan in scene order. It also has `cursorForPosition` and the hover cursor.
- **Coordinates** (`coordinates.dfy`, module `Coordinates`). This has `adjustElementCoordinates`
  (min/max for boxes, an end-point swap for lines), `resizeCoordinates` and the translation a
  move applies.
- **History** (`history.dfy`, module `History`). This is `useHistory` as the class
  `HistoryStore<T>`. Its methods are specified by functions on the value `Timeline<T>`:
  `Committed`, `Overwritten`, `Undone` and `Redone`. The lemmas about those functions state
  the undo/redo laws. `setState` accepts a value or an updater function, as in the source.
- **Gestures** (`gestures.dfy`, module `Gestures`). These are the scene each pointer event
  produces, as pure functions of the interaction state: a drawing, moving or resizing frame,
  and the normalisation on release.
- **Editor** (`editor.dfy`, module `Editor`). This is the `App` component as the class
  `Whiteboard`. Its fields are `action`, `tool` and `selected`, and it holds the history store.
  Pointer-down commits one snapshot: an identical copy of the scene when an element is
  selected, or the scene plus a new element when drawing. Every move frame and the release
  overwrite that snapshot. So one gesture is one undo step (`History.GestureIsOneUndoStep`).
  The invariant `Valid` keeps every snapshot in the history well indexed. It also keeps the
  selected element consistent with the action.
- **Sketch** (`sketch.dfy`, module `Sketch`). This is `App-clone.jsx` as the class `Board`,
  holding a list of shapes and a `drawing` flag. Mouse-down appends a zero-extent shape,
  mouse-move while drawing stretches the last shape, and mouse-up stops drawing.

React state updates are modelled as taking effect immediately and in order.

The line-segment test `Math.abs(distance(a, b) - (distance(a, c) + distance(b, c))) < 1` uses
floating-point square roots. It is a parameter of the model: `onSegment: SegmentTest` is a
total function given to `Whiteboard`'s constructor. Every property is proved for every such
function.

Three consequences of `src/App.jsx` that the model states as lemmas:
- Hit-testing returns the first hit element in creation order, which is not necessarily the
  one drawn on top (`Geometry.EarliestHitWins`).
- A box at most 9 units wide and at most 9 units high has no body region, because on integer
  positions `nearPoint`'s four corner squares cover all of it (`Geometry.SmallBoxHasNoInside`);
  a 10 by 10 box has a body point at its centre (`Geometry.TenBoxHasInside`). So after drawing
  from (10, 10) to (5, 5), a click at (7, 7) reports the top-left corner
  (`Gestures.DrawAndSelectExample`).
- The body test of a box runs on the stored corners. A box whose corners are in the wrong
  order has no body region (`Geometry.UnorderedBoxHasNoInside`).

## Model

| member | source | states |
|---|---|---|
| `Elements.CreateElement` | src/App.jsx:8-15 | the element carries the given id, kind and the four coordinates as given |
| `Elements.WriteSlot` | src/App.jsx:177-178 | writing slot `id` of a scene copy: inside the scene only that slot changes, to the element, and the length is kept; one past the end appends |
| `Elements.WriteSlotKeepsIndexed` | src/App.jsx:174-180 | writing an element into the slot its own id names keeps every id equal to its index |
| `Elements.AppendKeepsIndexed` | src/App.jsx:201-203 | appending an element whose id is the scene's length keeps the scene well indexed |
| `Geometry.NearPoint` | src/App.jsx:18-20 | the tag is returned exactly when the point lies in the open square of half-side 5 around the target, and otherwise null |
| `Geometry.PositionWithin` | src/App.jsx:23-49 | on a box: tl, tr, bl, br against the stored corners, in that order, then inside when x1<=x<=x2 and y1<=y<=y2, else null. On a line: start, end, then inside when the segment test holds. Both directions of every case are stated |
| `Geometry.FirstHitIndex` | src/App.jsx:56-60 | the index of the first element hit: every earlier element is missed and the element at the index is hit, or no element is hit |
| `Geometry.ElementAt` | src/App.jsx:56-60 | None exactly when no element is hit; otherwise the first hit element in scene order, with the region it reports |
| `Geometry.EarliestHitWins` | src/App.jsx:56-60 | of two hit elements, the later one is never returned: the returned element's id is at most the earlier one's (an even earlier hit may be returned instead) |
| `Geometry.UnorderedBoxHasNoInside` | src/App.jsx:32 | a box whose stored corners are out of order is never reported as hit inside its body |
| `Geometry.SmallBoxHasNoInside` | src/App.jsx:18-33 | a box at most 9 wide and at most 9 high is never reported as hit inside its body: its corner squares cover its area |
| `Geometry.TenBoxHasInside` | src/App.jsx:18-33 | the centre (5,5) of the box (0,0)-(10,10) is reported as its body, so the 9-unit bound is tight |
| `Geometry.OrderedBoxCoversItsArea` | src/App.jsx:28-33 | every point of a box's closed area hits the box |
| `Geometry.BoxHitIsNearTheBox` | src/App.jsx:18-33 | any hit on an ordered box lies strictly within 5 of the box on both axes |
| `Geometry.CursorForPosition` | src/App.jsx:81-94 | move exactly for the body; nesw-resize exactly for tr and bl; and so nwse-resize for tl, br, start and end |
| `Geometry.HoverCursor` | src/App.jsx:213-218 | the default cursor exactly when the pointer hits no element; otherwise `cursorForPosition` of the region of the first hit element |
| `Coordinates.AdjustElementCoordinates` | src/App.jsx:63-78 | a box keeps its two x values and its two y values, now ascending. A line becomes its end points, in order or swapped, and ends ordered (x1<x2, or x1=x2 and y1<=y2). It is unchanged exactly when it was already ordered |
| `Coordinates.AdjustKeepsNormalised` | src/App.jsx:63-78 | an element whose coordinates are already normalised is returned as it is |
| `Coordinates.AdjustIdempotent` | src/App.jsx:63-78 | normalising twice equals normalising once |
| `Coordinates.AdjustBoxExample` | src/App.jsx:65-70 | the box (30,10)-(10,40) normalises to (10,10)-(30,40) |
| `Coordinates.WithCorners` | src/App.jsx:249 | the element rebuilt with new coordinates keeps its id and kind |
| `Coordinates.ResizeCoordinates` | src/App.jsx:97-113 | null exactly for the body. Otherwise the grabbed handle's point is the pointer and the opposite handle's point is unchanged, which fixes all four coordinates |
| `Coordinates.ResizeCoordinatesChangesTwo` | src/App.jsx:99-109 | tl/start keep x2,y2; tr keeps x1,y2; bl keeps y1,x2; br/end keep x1,y1 |
| `Coordinates.HandleHitIsNearHandle` | src/App.jsx:26-47 | a reported handle (corner or end) lies in the 5-unit square around that handle's point, the point resizing then moves |
| `Coordinates.MovedCoordinates` | src/App.jsx:227-232 | the first corner goes to the pointer minus the grab offset; width x2-x1 and height y2-y1 are preserved |
| `Coordinates.MoveIsTranslation` | src/App.jsx:227-232 | moving shifts all four coordinates by one and the same vector |
| `Coordinates.MoveAtGrabPointIsIdentity` | src/App.jsx:189-190 | with the offset recorded at the grab and the pointer still there, moving leaves the coordinates unchanged |
| `History.Initial` | src/App.jsx:116-117 | a fresh history has exactly one snapshot, the initial state, at index 0 |
| `History.Overwritten` | src/App.jsx:121-124 | an overwrite makes the new state current, keeps length and index, and leaves every other snapshot alone |
| `History.Committed` | src/App.jsx:125-129 | a commit keeps snapshots 0..index, appends the new state as current, and gives length index+2 at index+1 |
| `History.Undone` | src/App.jsx:132 | undo keeps the snapshots and decrements the index only when it is above 0, so 0<=index<length holds |
| `History.Redone` | src/App.jsx:133 | redo keeps the snapshots and increments the index only when below length-1, so 0<=index<length holds |
| `History.OverwriteWithCurrent` | src/App.jsx:121-124 | overwriting with the current state changes nothing |
| `History.UndoAtStart` | src/App.jsx:132 | undo on a fresh history is a no-op |
| `History.RedoAfterCommit` | src/App.jsx:125-133 | nothing can be redone right after a commit |
| `History.CommitUndoRedo` | src/App.jsx:119-133 | after a commit, undo shows the previous state and redo restores the committed history and state |
| `History.OverwriteAll` | src/App.jsx:121-124 | any run of overwrites keeps the history valid |
| `History.OverwriteAllKeepsShape` | src/App.jsx:121-124 | any run of overwrites keeps length, index and all other snapshots, and ends on the last frame |
| `History.GestureIsOneUndoStep` | src/App.jsx:119-133 | one commit then any overwrites: one undo returns to the state before, with the earlier snapshots intact |
| `History.CommitAfterUndoDiscardsRedo` | src/App.jsx:125-132 | commit A, commit B, undo, commit C leaves exactly [initial, A, C] |
| `History.HistoryStore.constructor` | src/App.jsx:115-117 | the store starts as the fresh history of the initial state |
| `History.HistoryStore.Current` | src/App.jsx:135 | the current snapshot is the timeline's entry at the index |
| `History.HistoryStore.SetState` | src/App.jsx:119-130 | the store becomes the overwrite or the commit of the resolved action (value, or updater applied to the current snapshot) |
| `History.HistoryStore.Undo` | src/App.jsx:132 | the store becomes the undone timeline |
| `History.HistoryStore.Redo` | src/App.jsx:133 | the store becomes the redone timeline |
| `Gestures.GrabAction` | src/App.jsx:193-197 | a grab starts moving or resizing: moving exactly when the body is grabbed, resizing for a handle |
| `Gestures.CursorAnnouncesGrab` | src/App.jsx:81-94 | the hover cursor is move exactly when pressing there would start moving, and a resize cursor exactly when it would start resizing |
| `Gestures.NewElement` | src/App.jsx:201-202 | a drawing tool's new element has id equal to the scene length, the tool as kind, and zero extent at the pointer |
| `Gestures.DrawFrame` | src/App.jsx:220-224 | the last element keeps its x1,y1, takes x2,y2 from the pointer and its kind from the tool; every earlier element and the length are unchanged |
| `Gestures.MoveFrame` | src/App.jsx:225-232 | only the element at the selected id changes: its first corner is pointer minus offset, with width and height as when grabbed |
| `Gestures.ResizeFrame` | src/App.jsx:233-238 | only the element at the selected id changes: its grabbed handle is at the pointer and its opposite handle as when grabbed |
| `Gestures.Frame` | src/App.jsx:220-238 | with no gesture in progress a move leaves the scene unchanged |
| `Gestures.FrameKeepsIndexed` | src/App.jsx:220-238 | every frame keeps a well-indexed scene well indexed |
| `Gestures.Release` | src/App.jsx:242-254 | the scene changes only after a draw or a resize of a selected element still in the scene, never after a move |
| `Gestures.ReleaseNormalisesSelected` | src/App.jsx:243-250 | after a draw or resize only the selected element changes, into its normalised coordinates (boxes ordered, lines ordered), and the scene stays well indexed |
| `Gestures.ReleaseIdempotent` | src/App.jsx:243-250 | releasing twice normalises no further than releasing once |
| `Gestures.DrawAndSelectExample` | src/App.jsx:183-254 | a rectangle drawn from (10,10) to (5,5) is stored as (5,5)-(10,10), and both (5,5) and (7,7) select its top-left corner |
| `Editor.Whiteboard.constructor` | src/App.jsx:140-143 | empty scene as the only snapshot, action none, tool line, no selection |
| `Editor.Whiteboard.SetTool` | src/App.jsx:261-285 | only the tool changes |
| `Editor.Whiteboard.UpdateElement` | src/App.jsx:174-180 | the current snapshot is overwritten with the scene whose slot id holds the new element, and the history stays well indexed |
| `Editor.Whiteboard.MouseDown` | src/App.jsx:183-207 | selection: a miss changes nothing. A hit commits an identical copy, records the hit element with offset pointer-(x1,y1), and sets moving for the body or resizing for a handle. Drawing: commits the scene plus a zero-extent element with id = length, and starts drawing |
| `Editor.Whiteboard.MouseMove` | src/App.jsx:210-239 | returns the hover cursor when the tool is selection; the current snapshot is overwritten with the gesture's frame, and history length and index are unchanged |
| `Editor.Whiteboard.MouseUp` | src/App.jsx:242-254 | the current snapshot is overwritten with the release scene (normalised after draw or resize only); the action becomes none and the selection is cleared |
| `Editor.Whiteboard.Undo` | src/App.jsx:132 | the history becomes the undone timeline; nothing else changes |
| `Editor.Whiteboard.Redo` | src/App.jsx:133 | the history becomes the redone timeline; nothing else changes |
| `Sketch.CreateShape` | src/App-clone.jsx:3-6 | the shape carries the given coordinates and type |
| `Sketch.Stretched` | src/App-clone.jsx:49-57 | only the last shape changes: it keeps x1,y1, takes x2,y2 from the pointer and its type from the current element type; the length and earlier shapes are unchanged |
| `Sketch.StretchAll` | src/App-clone.jsx:45-57 | any run of moves keeps the number of shapes |
| `Sketch.DrawGestureAddsOneShape` | src/App-clone.jsx:36-57 | a press and any moves add exactly one shape: it starts at the press and ends at the last move, and the earlier shapes are untouched |
| `Sketch.StretchAllIsLastMove` | src/App-clone.jsx:49-57 | stretching depends only on the last shape's first point, not on where it ended before |
| `Sketch.Board.constructor` | src/App-clone.jsx:9-11 | no shapes, not drawing, type line |
| `Sketch.Board.SetElementType` | src/App-clone.jsx:71-82 | only the element type changes |
| `Sketch.Board.MouseDown` | src/App-clone.jsx:36-43 | drawing starts, and exactly one shape (x,y,x,y,current type) is appended |
| `Sketch.Board.MouseMove` | src/App-clone.jsx:45-58 | not drawing: the shapes are unchanged. Drawing: the shapes become the stretched list |
| `Sketch.Board.MouseUp` | src/App-clone.jsx:60-62 | drawing stops and the shapes are unchanged |

The methods `Editor.DrawUndoRedo` and `Sketch.PressDragRelease` are clients of the two
classes. They show that the class contracts alone determine a whole gesture and its undo.

## Left out

- Canvas rendering. This covers the `useLayoutEffect` blocks, `rough.canvas` and the 2D
  context calls of both files. It is output to a device.
- The roughjs shape that `createElement` stores in `roughElement`. It is a foreign library
  call and is used only for drawing.
- The floating-point line-segment test (`distance`, `Math.sqrt`, `Math.abs(offset) < 1`). It is
  the parameter `onSegment` rather than computed.
- The keyboard listener and its registration. Only the `undo` and `redo` it triggers are
  modelled, as `Whiteboard.Undo` and `Whiteboard.Redo`, which may come at any time.
- The toolbar, radio buttons and buttons, and the window size. Setting `event.target.style.cursor`
  is also left out: `MouseMove` returns the cursor to its caller instead.
- Fractional pointer positions. `clientX` and `clientY` are JavaScript numbers; the model takes
  them as `int`. The `Math.abs(...) < 5` and `x >= x1` tests are the same formulas, restricted to
  integer positions (the small-box bound of 9 units relies on that).
- React's asynchronous batching of state updates and stale closures. Every update takes effect
  at once, in program order.
- Elements.WriteSlot: a slot more than one past the end of the scene leaves the scene
  unchanged. JavaScript would leave holes in the array there. This can only happen after an
  undo in the middle of a move or resize, when the selected id lies beyond the current scene.
- Editor.Whiteboard.MouseMove: a drawing frame on an empty scene changes nothing. The source
  throws a TypeError there. This too is reachable only after an undo in the middle of a draw.
- Editor.Whiteboard.MouseUp: when the selected id lies outside the current scene, the model
  skips normalisation and still resets the action and selection. The source throws before
  resetting them. This is reachable only after an undo in the middle of a gesture.
