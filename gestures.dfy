/**
 * The scene each pointer event produces, as functions of the interaction state: the
 * frames of a draw, move or resize, and the normalisation on release. The Editor class
 * performs these updates on its history; these functions specify them.
 */
module Gestures {
  import opened Wrappers
  import opened Elements
  import opened Geometry
  import opened Coordinates

  /** What the pointer is doing; `Idle` is the source's 'none'. */
  datatype Action = Idle | Drawing | Moving | Resizing

  /**
   * The element a gesture acts on: the element being drawn, or a hit element with the region
   * grabbed and the offset of the pointer from its first corner.
   */
  datatype Selected =
    | Drawn(element: Element)
    | Grabbed(element: Element, position: Position, offsetX: int, offsetY: int)

  /** Grabbing an element's body moves it; grabbing a handle resizes it. */
  function GrabAction(p: Position): (a: Action)
    ensures a == Moving || a == Resizing
    ensures a == Moving <==> p == Inside
  {
    if p == Inside then Moving else Resizing
  }

  /** The hover cursor announces what pressing at that point would do. */
  lemma CursorAnnouncesGrab(p: Position)
    ensures CursorForPosition(p) == Move <==> GrabAction(p) == Moving
    ensures CursorForPosition(p) != Move <==> GrabAction(p) == Resizing
  {
  }

  /** The element a drawing tool starts at (x, y): a zero-extent one at the end of the scene. */
  function NewElement(scene: seq<Element>, x: int, y: int, tool: Tool): (e: Element)
    ensures e.id == |scene| && e.kind == tool && e.Corners() == Coords(x, y, x, y)
  {
    CreateElement(|scene|, x, y, x, y, tool)
  }

  /** A drawing frame: the last element keeps its first point and ends at the pointer. */
  function DrawFrame(scene: seq<Element>, x: int, y: int, tool: Tool): (r: seq<Element>)
    ensures |scene| == 0 ==> r == scene
    ensures |scene| > 0 ==> |r| == |scene| && r[..|scene| - 1] == scene[..|scene| - 1]
    ensures |scene| > 0 ==>
      r[|scene| - 1] == Element(|scene| - 1, scene[|scene| - 1].x1, scene[|scene| - 1].y1, x, y, tool)
  {
    if |scene| == 0 then scene
    else
      var index := |scene| - 1;
      WriteSlot(scene, index, CreateElement(index, scene[index].x1, scene[index].y1, x, y, tool))
  }

  /**
   * A moving frame: the grabbed element, as it was when grabbed, moved so that its first corner
   * is the pointer minus the grab offset; no other element changes.
   */
  function MoveFrame(scene: seq<Element>, e: Element, x: int, y: int, offsetX: int, offsetY: int): (r: seq<Element>)
    ensures e.id < |scene| ==> |r| == |scene|
    ensures e.id < |scene| ==> forall i :: 0 <= i < |scene| && i != e.id ==> r[i] == scene[i]
    ensures e.id < |scene| ==> r[e.id].id == e.id && r[e.id].kind == e.kind
    ensures e.id < |scene| ==> r[e.id].x1 == x - offsetX && r[e.id].y1 == y - offsetY
    ensures e.id < |scene| ==> r[e.id].x2 - r[e.id].x1 == e.x2 - e.x1 && r[e.id].y2 - r[e.id].y1 == e.y2 - e.y1
  {
    WriteSlot(scene, e.id, WithCorners(e, MovedCoordinates(e, x, y, offsetX, offsetY)))
  }

  /**
   * A resizing frame: the grabbed handle of the element, as it was when grabbed, follows the
   * pointer and the opposite handle stays; no other element changes. Grabbing the body is
   * no resize.
   */
  function ResizeFrame(scene: seq<Element>, e: Element, p: Position, x: int, y: int): (r: seq<Element>)
    ensures p == Inside ==> r == scene
    ensures p != Inside && e.id < |scene| ==> |r| == |scene|
    ensures p != Inside && e.id < |scene| ==> forall i :: 0 <= i < |scene| && i != e.id ==> r[i] == scene[i]
    ensures p != Inside && e.id < |scene| ==> r[e.id].id == e.id && r[e.id].kind == e.kind
    ensures p != Inside && e.id < |scene| ==> HandlePoint(r[e.id].Corners(), p) == Point(x, y)
    ensures p != Inside && e.id < |scene| ==>
      HandlePoint(r[e.id].Corners(), Opposite(p)) == HandlePoint(e.Corners(), Opposite(p))
  {
    match ResizeCoordinates(x, y, p, e.Corners())
    case Some(c) => WriteSlot(scene, e.id, WithCorners(e, c))
    case None => scene
  }

  /** The scene after a pointer move, for each action; with no gesture it is unchanged. */
  function Frame(action: Action, selected: Option<Selected>, tool: Tool, scene: seq<Element>, x: int, y: int): (r: seq<Element>)
    ensures action == Idle ==> r == scene
  {
    match action
    case Idle => scene
    case Drawing => DrawFrame(scene, x, y, tool)
    case Moving =>
      (match selected
       case Some(Grabbed(e, _, offsetX, offsetY)) => MoveFrame(scene, e, x, y, offsetX, offsetY)
       case _ => scene)
    case Resizing =>
      (match selected
       case Some(Grabbed(e, p, _, _)) => ResizeFrame(scene, e, p, x, y)
       case _ => scene)
  }

  /** Every frame keeps every element's identifier equal to its index. */
  lemma FrameKeepsIndexed(action: Action, selected: Option<Selected>, tool: Tool, scene: seq<Element>, x: int, y: int)
    requires WellIndexed(scene)
    ensures WellIndexed(Frame(action, selected, tool, scene, x, y))
  {
    match action
    case Idle =>
    case Drawing =>
      if |scene| > 0 {
        var index := |scene| - 1;
        WriteSlotKeepsIndexed(scene, CreateElement(index, scene[index].x1, scene[index].y1, x, y, tool));
      }
    case Moving =>
      match selected {
        case Some(Grabbed(e, _, offsetX, offsetY)) =>
          WriteSlotKeepsIndexed(scene, WithCorners(e, MovedCoordinates(e, x, y, offsetX, offsetY)));
        case _ =>
      }
    case Resizing =>
      match selected {
        case Some(Grabbed(e, p, _, _)) =>
          if p != Inside {
            WriteSlotKeepsIndexed(scene, WithCorners(e, ResizeCoordinates(x, y, p, e.Corners()).value));
          }
        case _ =>
      }
  }

  /** Whether releasing the pointer normalises the selected element. */
  predicate Normalises(action: Action, selected: Option<Selected>, scene: seq<Element>)
  {
    selected.Some? && selected.value.element.id < |scene| && (action == Drawing || action == Resizing)
  }

  /**
   * The scene after the pointer is released: after a draw or a resize the selected element,
   * as it now stands in the scene, is normalised; after a move nothing changes.
   */
  function Release(action: Action, selected: Option<Selected>, scene: seq<Element>): (r: seq<Element>)
    ensures !Normalises(action, selected, scene) ==> r == scene
    ensures action == Moving || action == Idle ==> r == scene
  {
    if Normalises(action, selected, scene) then
      var e := scene[selected.value.element.id];
      WriteSlot(scene, e.id, WithCorners(e, AdjustElementCoordinates(e)))
    else scene
  }

  /**
   * On a well-indexed scene, releasing after a draw or a resize replaces just the selected
   * element, by its normalised self, and the scene stays well indexed.
   */
  lemma ReleaseNormalisesSelected(action: Action, selected: Option<Selected>, scene: seq<Element>)
    requires WellIndexed(scene)
    ensures WellIndexed(Release(action, selected, scene))
    ensures Normalises(action, selected, scene) ==>
      var r, id := Release(action, selected, scene), selected.value.element.id;
      |r| == |scene| &&
      (forall i :: 0 <= i < |scene| && i != id ==> r[i] == scene[i]) &&
      r[id].id == id && r[id].kind == scene[id].kind &&
      r[id].Corners() == AdjustElementCoordinates(scene[id]) &&
      (r[id].IsBox() ==> BoxOrdered(r[id].Corners())) &&
      (!r[id].IsBox() ==> LexOrdered(r[id].Corners()))
  {
    if Normalises(action, selected, scene) {
      var e := scene[selected.value.element.id];
      WriteSlotKeepsIndexed(scene, WithCorners(e, AdjustElementCoordinates(e)));
    }
  }

  /** Releasing twice normalises no further than releasing once. */
  lemma ReleaseIdempotent(action: Action, selected: Option<Selected>, scene: seq<Element>)
    requires WellIndexed(scene)
    ensures Release(action, selected, Release(action, selected, scene)) == Release(action, selected, scene)
  {
    var r := Release(action, selected, scene);
    if Normalises(action, selected, scene) {
      var id := selected.value.element.id;
      ReleaseNormalisesSelected(action, selected, scene);
      assert Normalises(action, selected, r);
      AdjustIdempotent(scene[id]);
      AdjustKeepsNormalised(r[id]);
      var r2 := Release(action, selected, r);
      assert r2[id] == r[id];
      assert r2 == r;
    }
  }

  /**
   * Drawing a rectangle from (10, 10) to (5, 5) and releasing stores (5, 5)-(10, 10). The box
   * is narrower than two corner squares, so the selection tool finds its top-left corner both
   * at (5, 5) and at (7, 7): no point of it is reported as its body.
   */
  lemma DrawAndSelectExample(onSegment: SegmentTest)
    ensures
      var e := NewElement([], 10, 10, Rectangle);
      var drawn := Frame(Drawing, Some(Drawn(e)), Rectangle, [e], 5, 5);
      var released := Release(Drawing, Some(Drawn(e)), drawn);
      released == [Element(0, 5, 5, 10, 10, Rectangle)] &&
      ElementAt(5, 5, released, onSegment) == Some(Hit(released[0], TopLeft)) &&
      ElementAt(7, 7, released, onSegment) == Some(Hit(released[0], TopLeft))
  {
    var e := NewElement([], 10, 10, Rectangle);
    var drawn := Frame(Drawing, Some(Drawn(e)), Rectangle, [e], 5, 5);
    assert drawn == [Element(0, 10, 10, 5, 5, Rectangle)];
    var released := Release(Drawing, Some(Drawn(e)), drawn);
    assert released == [Element(0, 5, 5, 10, 10, Rectangle)];
    assert PositionWithin(7, 7, released[0], onSegment) == Some(TopLeft);
    assert PositionWithin(5, 5, released[0], onSegment) == Some(TopLeft);
  }
}
