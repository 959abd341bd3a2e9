/**
 * Coordinate transformations of an element: normalising its corners when a gesture ends,
 * moving a grabbed handle while resizing, and translating it while moving.
 */
module Coordinates {
  import opened Wrappers
  import opened Elements
  import opened Geometry

  /** A box is normalised when (x1, y1) is its top-left and (x2, y2) its bottom-right corner. */
  predicate BoxOrdered(c: Coords) { c.x1 <= c.x2 && c.y1 <= c.y2 }

  /** A line is normalised when its start does not come after its end, comparing x then y. */
  predicate LexOrdered(c: Coords) { c.x1 < c.x2 || (c.x1 == c.x2 && c.y1 <= c.y2) }

  function Min(a: int, b: int): int { if a <= b then a else b }
  function Max(a: int, b: int): int { if a <= b then b else a }

  /** The element's normalised coordinates. */
  function AdjustElementCoordinates(e: Element): (c: Coords)
    // a box keeps its two x values and its two y values, now in increasing order
    ensures e.IsBox() ==> BoxOrdered(c)
    ensures e.IsBox() ==> multiset{c.x1, c.x2} == multiset{e.x1, e.x2} && multiset{c.y1, c.y2} == multiset{e.y1, e.y2}
    // a line keeps its two end points, swapped exactly when they were out of order
    ensures !e.IsBox() ==> LexOrdered(c)
    ensures !e.IsBox() ==> c == e.Corners() || c == Coords(e.x2, e.y2, e.x1, e.y1)
    ensures !e.IsBox() ==> (c == e.Corners() <==> LexOrdered(e.Corners()))
  {
    if e.IsBox() then
      Coords(Min(e.x1, e.x2), Min(e.y1, e.y2), Max(e.x1, e.x2), Max(e.y1, e.y2))
    else if e.x1 < e.x2 || (e.x1 == e.x2 && e.y1 < e.y2) then
      Coords(e.x1, e.y1, e.x2, e.y2)
    else
      Coords(e.x2, e.y2, e.x1, e.y1)
  }

  /** The element with its coordinates replaced, keeping its identifier and kind. */
  function WithCorners(e: Element, c: Coords): (r: Element)
    ensures r.id == e.id && r.kind == e.kind && r.Corners() == c
  {
    CreateElement(e.id, c.x1, c.y1, c.x2, c.y2, e.kind)
  }

  /** An element that is already normalised is left as it is. */
  lemma AdjustKeepsNormalised(e: Element)
    requires e.IsBox() ==> BoxOrdered(e.Corners())
    requires !e.IsBox() ==> LexOrdered(e.Corners())
    ensures AdjustElementCoordinates(e) == e.Corners()
  {
  }

  /** Normalising twice is normalising once. */
  lemma AdjustIdempotent(e: Element)
    ensures AdjustElementCoordinates(WithCorners(e, AdjustElementCoordinates(e))) == AdjustElementCoordinates(e)
  {
    var c := AdjustElementCoordinates(e);
    AdjustKeepsNormalised(WithCorners(e, c));
  }

  /** A box drawn from (30, 10) to (10, 40) is stored as (10, 10)-(30, 40). */
  lemma AdjustBoxExample()
    ensures AdjustElementCoordinates(Element(0, 30, 10, 10, 40, Rectangle)) == Coords(10, 10, 30, 40)
  {
  }

  /** A point of the plane. */
  datatype Point = Point(x: int, y: int)

  /** The point of the coordinates that the handle `p` stands for. */
  function HandlePoint(c: Coords, p: Position): Point
    requires p != Inside
  {
    match p
    case TopLeft | Start => Point(c.x1, c.y1)
    case TopRight => Point(c.x2, c.y1)
    case BottomLeft => Point(c.x1, c.y2)
    case BottomRight | End => Point(c.x2, c.y2)
  }

  /** The handle diagonally across from `p`, which resizing through `p` holds still. */
  function Opposite(p: Position): (q: Position)
    requires p != Inside
    ensures q != Inside && q != p
  {
    match p
    case TopLeft => BottomRight
    case BottomRight => TopLeft
    case TopRight => BottomLeft
    case BottomLeft => TopRight
    case Start => End
    case End => Start
  }

  /**
   * The coordinates after dragging handle `position` to (px, py): the grabbed handle is at the
   * pointer and the opposite handle has not moved (between them they fix all four
   * coordinates). The body of an element is no handle, and gives None.
   */
  function ResizeCoordinates(px: int, py: int, position: Position, c: Coords): (r: Option<Coords>)
    ensures r.None? <==> position == Inside
    ensures r.Some? ==> HandlePoint(r.value, position) == Point(px, py)
    ensures r.Some? ==> HandlePoint(r.value, Opposite(position)) == HandlePoint(c, Opposite(position))
  {
    match position
    case TopLeft | Start => Some(Coords(px, py, c.x2, c.y2))
    case TopRight => Some(Coords(c.x1, py, px, c.y2))
    case BottomLeft => Some(Coords(px, c.y1, c.x2, py))
    case BottomRight | End => Some(Coords(c.x1, c.y1, px, py))
    case Inside => None
  }

  /** Resizing changes exactly the two coordinates the grabbed handle carries. */
  lemma ResizeCoordinatesChangesTwo(px: int, py: int, position: Position, c: Coords)
    requires position != Inside
    ensures var r := ResizeCoordinates(px, py, position, c).value;
      (position == TopLeft || position == Start ==> r.x2 == c.x2 && r.y2 == c.y2) &&
      (position == TopRight ==> r.x1 == c.x1 && r.y2 == c.y2) &&
      (position == BottomLeft ==> r.y1 == c.y1 && r.x2 == c.x2) &&
      (position == BottomRight || position == End ==> r.x1 == c.x1 && r.y1 == c.y1)
  {
    var r := ResizeCoordinates(px, py, position, c).value;
    assert HandlePoint(r, Opposite(position)) == HandlePoint(c, Opposite(position));
  }

  /** The region the hit-tester reports for a handle is the square around that handle's point. */
  lemma HandleHitIsNearHandle(x: int, y: int, e: Element, onSegment: SegmentTest)
    requires PositionWithin(x, y, e, onSegment).Some?
    requires PositionWithin(x, y, e, onSegment).value != Inside
    ensures var h := HandlePoint(e.Corners(), PositionWithin(x, y, e, onSegment).value);
      InSquare(x, y, h.x, h.y)
  {
  }

  /**
   * The coordinates of `e` moved so that its first corner is at the pointer minus the
   * grab offset, keeping its width and height.
   */
  function MovedCoordinates(e: Element, px: int, py: int, offsetX: int, offsetY: int): (r: Coords)
    ensures r.x1 == px - offsetX && r.y1 == py - offsetY
    ensures r.x2 - r.x1 == e.x2 - e.x1 && r.y2 - r.y1 == e.y2 - e.y1
  {
    var width := e.x2 - e.x1;
    var height := e.y2 - e.y1;
    var nextX1 := px - offsetX;
    var nextY1 := py - offsetY;
    Coords(nextX1, nextY1, nextX1 + width, nextY1 + height)
  }

  /** Moving translates all four coordinates by the same vector. */
  lemma MoveIsTranslation(e: Element, px: int, py: int, offsetX: int, offsetY: int)
    ensures var r := MovedCoordinates(e, px, py, offsetX, offsetY);
      var dx, dy := px - offsetX - e.x1, py - offsetY - e.y1;
      r == Coords(e.x1 + dx, e.y1 + dy, e.x2 + dx, e.y2 + dy)
  {
  }

  /** With the pointer still where the element was grabbed, moving leaves the element in place. */
  lemma MoveAtGrabPointIsIdentity(e: Element, gx: int, gy: int)
    ensures MovedCoordinates(e, gx, gy, gx - e.x1, gy - e.y1) == e.Corners()
  {
  }
}
