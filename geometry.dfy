/**
 * Hit-testing: which element of the scene, and which part of it, a pointer position hits,
 * and which cursor the selection tool shows there.
 */
module Geometry {
  import opened Wrappers
  import opened Elements

  /** The region of an element a point hits: a rectangle's corner, a line's end, or its body. */
  datatype Position = TopLeft | TopRight | BottomLeft | BottomRight | Start | End | Inside

  /**
   * The floating-point test that a point (px, py) lies on the segment (x1, y1)-(x2, y2):
   * the segment's length minus the lengths to the point differ by less than 1. It is a
   * parameter of the model.
   */
  type SegmentTest = (int, int, int, int, int, int) -> bool

  /** Half the side of the square around a handle inside which the handle is grabbed. */
  const Tolerance: int := 5

  function Abs(n: int): nat { if n < 0 then -n else n }

  /** The open square of side 2 * Tolerance centred on (tx, ty). */
  predicate InSquare(x: int, y: int, tx: int, ty: int)
  {
    tx - Tolerance < x < tx + Tolerance && ty - Tolerance < y < ty + Tolerance
  }

  /** `name` when the point is strictly less than Tolerance away from the target on both axes. */
  function NearPoint(x: int, y: int, tx: int, ty: int, name: Position): (r: Option<Position>)
    ensures r == if InSquare(x, y, tx, ty) then Some(name) else None
  {
    if Abs(x - tx) < Tolerance && Abs(y - ty) < Tolerance then Some(name) else None
  }

  /** JavaScript's `a || b` on a possibly-null region. */
  function OrElse(a: Option<Position>, b: Option<Position>): Option<Position>
  {
    if a.Some? then a else b
  }

  /** The region of `e` hit by (x, y), or None. */
  function PositionWithin(x: int, y: int, e: Element, onSegment: SegmentTest): (r: Option<Position>)
    // a box: the four corners of the stored (not necessarily ordered) corners, in this order
    ensures e.IsBox() ==> (r == Some(TopLeft) <==> InSquare(x, y, e.x1, e.y1))
    ensures e.IsBox() ==> (r == Some(TopRight) <==>
      !InSquare(x, y, e.x1, e.y1) && InSquare(x, y, e.x2, e.y1))
    ensures e.IsBox() ==> (r == Some(BottomLeft) <==>
      !InSquare(x, y, e.x1, e.y1) && !InSquare(x, y, e.x2, e.y1) && InSquare(x, y, e.x1, e.y2))
    ensures e.IsBox() ==> (r == Some(BottomRight) <==>
      !InSquare(x, y, e.x1, e.y1) && !InSquare(x, y, e.x2, e.y1) && !InSquare(x, y, e.x1, e.y2) &&
      InSquare(x, y, e.x2, e.y2))
    ensures e.IsBox() ==> (r == Some(Inside) <==>
      !InSquare(x, y, e.x1, e.y1) && !InSquare(x, y, e.x2, e.y1) && !InSquare(x, y, e.x1, e.y2) &&
      !InSquare(x, y, e.x2, e.y2) && e.x1 <= x <= e.x2 && e.y1 <= y <= e.y2)
    ensures e.IsBox() ==> r != Some(Start) && r != Some(End)
    // a line: its start, then its end, then the segment test
    ensures !e.IsBox() ==> (r == Some(Start) <==> InSquare(x, y, e.x1, e.y1))
    ensures !e.IsBox() ==> (r == Some(End) <==> !InSquare(x, y, e.x1, e.y1) && InSquare(x, y, e.x2, e.y2))
    ensures !e.IsBox() ==> (r == Some(Inside) <==>
      !InSquare(x, y, e.x1, e.y1) && !InSquare(x, y, e.x2, e.y2) && onSegment(e.x1, e.y1, e.x2, e.y2, x, y))
    ensures !e.IsBox() ==> r != Some(TopLeft) && r != Some(TopRight) && r != Some(BottomLeft) && r != Some(BottomRight)
  {
    if e.IsBox() then
      var topLeft := NearPoint(x, y, e.x1, e.y1, TopLeft);
      var topRight := NearPoint(x, y, e.x2, e.y1, TopRight);
      var bottomLeft := NearPoint(x, y, e.x1, e.y2, BottomLeft);
      var bottomRight := NearPoint(x, y, e.x2, e.y2, BottomRight);
      var inside := if x >= e.x1 && x <= e.x2 && y >= e.y1 && y <= e.y2 then Some(Inside) else None;
      OrElse(topLeft, OrElse(topRight, OrElse(bottomLeft, OrElse(bottomRight, inside))))
    else
      var start := NearPoint(x, y, e.x1, e.y1, Start);
      var end := NearPoint(x, y, e.x2, e.y2, End);
      var inside := if onSegment(e.x1, e.y1, e.x2, e.y2, x, y) then Some(Inside) else None;
      OrElse(start, OrElse(end, inside))
  }

  /** Whether some part of `e` is hit by (x, y). */
  predicate Hits(x: int, y: int, e: Element, onSegment: SegmentTest)
  {
    PositionWithin(x, y, e, onSegment).Some?
  }

  /** The index of the first element of the scene that is hit, or |scene| when none is. */
  function FirstHitIndex(x: int, y: int, scene: seq<Element>, onSegment: SegmentTest): (k: nat)
    ensures k <= |scene|
    ensures forall j :: 0 <= j < k ==> !Hits(x, y, scene[j], onSegment)
    ensures k < |scene| ==> Hits(x, y, scene[k], onSegment)
    decreases |scene|
  {
    if |scene| == 0 then 0
    else if Hits(x, y, scene[0], onSegment) then 0
    else 1 + FirstHitIndex(x, y, scene[1..], onSegment)
  }

  /** An element as the hit-tester returns it: the element with the region that was hit. */
  datatype Hit = Hit(element: Element, position: Position)

  /** Index k holds the first element in scene order that (x, y) hits. */
  ghost predicate IsFirstHit(x: int, y: int, scene: seq<Element>, onSegment: SegmentTest, k: int)
  {
    0 <= k < |scene| && Hits(x, y, scene[k], onSegment) &&
    forall j :: 0 <= j < k ==> !Hits(x, y, scene[j], onSegment)
  }

  /** The first element of the scene hit by (x, y), scanning front to back, with its region. */
  function ElementAt(x: int, y: int, scene: seq<Element>, onSegment: SegmentTest): (r: Option<Hit>)
    ensures r.None? <==> forall i :: 0 <= i < |scene| ==> !Hits(x, y, scene[i], onSegment)
    ensures r.Some? ==>
      exists k :: (IsFirstHit(x, y, scene, onSegment, k) && r.value.element == scene[k] &&
                   Some(r.value.position) == PositionWithin(x, y, scene[k], onSegment))
  {
    var k := FirstHitIndex(x, y, scene, onSegment);
    if k < |scene| then
      assert IsFirstHit(x, y, scene, onSegment, k);
      Some(Hit(scene[k], PositionWithin(x, y, scene[k], onSegment).value))
    else None
  }

  /** Of two hit elements, the later one is never selected: the scan stops at the first hit. */
  lemma EarliestHitWins(x: int, y: int, scene: seq<Element>, onSegment: SegmentTest, i: int, j: int)
    requires WellIndexed(scene)
    requires 0 <= i < j < |scene|
    requires Hits(x, y, scene[i], onSegment) && Hits(x, y, scene[j], onSegment)
    ensures ElementAt(x, y, scene, onSegment).Some?
    ensures ElementAt(x, y, scene, onSegment).value.element.id <= i
  {
    var k := FirstHitIndex(x, y, scene, onSegment);
    assert k <= i;
  }

  /**
   * A box whose corners are stored the wrong way round is never reported as hit inside:
   * its inside region is empty until it is normalised.
   */
  lemma UnorderedBoxHasNoInside(x: int, y: int, e: Element, onSegment: SegmentTest)
    requires e.IsBox() && (e.x1 > e.x2 || e.y1 > e.y2)
    ensures PositionWithin(x, y, e, onSegment) != Some(Inside)
  {
  }

  /**
   * A box at most 9 units wide and at most 9 units high has no body region: on integer
   * positions the four open corner squares of half-side Tolerance cover all of its area.
   */
  lemma SmallBoxHasNoInside(x: int, y: int, e: Element, onSegment: SegmentTest)
    requires e.IsBox() && 0 <= e.x2 - e.x1 <= 2 * Tolerance - 1 && 0 <= e.y2 - e.y1 <= 2 * Tolerance - 1
    ensures PositionWithin(x, y, e, onSegment) != Some(Inside)
  {
  }

  /** The bound is tight: a 10 by 10 box has a body point at its centre. */
  lemma TenBoxHasInside(onSegment: SegmentTest)
    ensures PositionWithin(5, 5, Element(0, 0, 0, 10, 10, Rectangle), onSegment) == Some(Inside)
  {
  }

  /** On an ordered box, every point of the closed box is hit. */
  lemma OrderedBoxCoversItsArea(x: int, y: int, e: Element, onSegment: SegmentTest)
    requires e.IsBox() && e.x1 <= x <= e.x2 && e.y1 <= y <= e.y2
    ensures Hits(x, y, e, onSegment)
  {
  }

  /** Any hit on a box lies in the box widened by Tolerance - 1 on every side. */
  lemma BoxHitIsNearTheBox(x: int, y: int, e: Element, onSegment: SegmentTest)
    requires e.IsBox() && e.x1 <= e.x2 && e.y1 <= e.y2
    requires Hits(x, y, e, onSegment)
    ensures e.x1 - Tolerance < x < e.x2 + Tolerance && e.y1 - Tolerance < y < e.y2 + Tolerance
  {
  }

  /** The cursors the selection tool shows. */
  datatype Cursor = Default | Move | NwseResize | NeswResize

  /** The cursor for a hit region. */
  function CursorForPosition(p: Position): (c: Cursor)
    ensures c != Default
    ensures c == Move <==> p == Inside
    ensures c == NeswResize <==> p == TopRight || p == BottomLeft
  {
    match p
    case TopLeft | BottomRight | Start | End => NwseResize
    case TopRight | BottomLeft => NeswResize
    case Inside => Move
  }

  /** The cursor shown while hovering at (x, y) with the selection tool. */
  function HoverCursor(x: int, y: int, scene: seq<Element>, onSegment: SegmentTest): (c: Cursor)
    ensures c == Default <==> forall i :: 0 <= i < |scene| ==> !Hits(x, y, scene[i], onSegment)
    ensures forall k :: IsFirstHit(x, y, scene, onSegment, k) ==>
      c == CursorForPosition(PositionWithin(x, y, scene[k], onSegment).value)
  {
    match ElementAt(x, y, scene, onSegment)
    case Some(h) => CursorForPosition(h.position)
    case None => Default
  }
}
