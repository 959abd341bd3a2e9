/**
 * The earlier, smaller drawing loop: a list of shapes and a drawing flag. Pressing appends a
 * zero-extent shape at the pointer, moving while drawing stretches the last shape to the
 * pointer, releasing stops drawing. There is no history, selection or normalisation.
 */
module Sketch {

  /** The two shape types of the toolbar. */
  datatype Kind = Line | Rectangle

  /** A shape from (x1, y1) to (x2, y2). */
  datatype Shape = Shape(x1: int, y1: int, x2: int, y2: int, kind: Kind)

  function CreateShape(x1: int, y1: int, x2: int, y2: int, kind: Kind): (s: Shape)
    ensures s.x1 == x1 && s.y1 == y1 && s.x2 == x2 && s.y2 == y2 && s.kind == kind
  {
    Shape(x1, y1, x2, y2, kind)
  }

  /**
   * The shapes after one move while drawing: the last shape keeps its first point, ends at
   * the pointer and takes the current type; every earlier shape stays.
   */
  function Stretched(shapes: seq<Shape>, x: int, y: int, kind: Kind): (r: seq<Shape>)
    requires |shapes| > 0
    ensures |r| == |shapes| && r[..|shapes| - 1] == shapes[..|shapes| - 1]
    ensures r[|shapes| - 1] == Shape(shapes[|shapes| - 1].x1, shapes[|shapes| - 1].y1, x, y, kind)
  {
    var index := |shapes| - 1;
    shapes[index := CreateShape(shapes[index].x1, shapes[index].y1, x, y, kind)]
  }

  /** A pointer position. */
  datatype Pointer = Pointer(x: int, y: int)

  /** The shapes after a run of moves while drawing, one per pointer position, in order. */
  function StretchAll(shapes: seq<Shape>, moves: seq<Pointer>, kind: Kind): (r: seq<Shape>)
    requires |shapes| > 0
    ensures |r| == |shapes|
    decreases |moves|
  {
    if |moves| == 0 then shapes
    else StretchAll(Stretched(shapes, moves[0].x, moves[0].y, kind), moves[1..], kind)
  }

  /**
   * A whole draw gesture (a press at (x0, y0) and any moves) adds exactly one shape: it starts
   * at the press, ends at the last move, and the shapes before it are untouched.
   */
  lemma {:induction false} DrawGestureAddsOneShape(shapes: seq<Shape>, x0: int, y0: int, moves: seq<Pointer>, kind: Kind)
    ensures var r := StretchAll(shapes + [Shape(x0, y0, x0, y0, kind)], moves, kind);
      |r| == |shapes| + 1 && r[..|shapes|] == shapes &&
      r[|shapes|].x1 == x0 && r[|shapes|].y1 == y0 && r[|shapes|].kind == kind &&
      (|moves| == 0 ==> r[|shapes|].x2 == x0 && r[|shapes|].y2 == y0) &&
      (|moves| > 0 ==> r[|shapes|].x2 == moves[|moves| - 1].x && r[|shapes|].y2 == moves[|moves| - 1].y)
    decreases |moves|
  {
    var start := shapes + [Shape(x0, y0, x0, y0, kind)];
    assert start[..|shapes|] == shapes;
    if |moves| > 0 {
      var next := Stretched(start, moves[0].x, moves[0].y, kind);
      assert next == shapes + [Shape(x0, y0, moves[0].x, moves[0].y, kind)];
      DrawGestureAddsOneShape(shapes, x0, y0, moves[1..], kind);
      if |moves| > 1 {
        StretchAllIsLastMove(shapes, x0, y0, moves[0], moves[1..], kind);
      }
    }
  }

  /** Stretching depends only on the first point of the last shape, not on where it ended. */
  lemma StretchAllIsLastMove(shapes: seq<Shape>, x0: int, y0: int, first: Pointer, moves: seq<Pointer>, kind: Kind)
    requires |moves| > 0
    ensures StretchAll(shapes + [Shape(x0, y0, first.x, first.y, kind)], moves, kind)
         == StretchAll(shapes + [Shape(x0, y0, x0, y0, kind)], moves, kind)
  {
    var a := shapes + [Shape(x0, y0, first.x, first.y, kind)];
    var b := shapes + [Shape(x0, y0, x0, y0, kind)];
    assert Stretched(a, moves[0].x, moves[0].y, kind) == Stretched(b, moves[0].x, moves[0].y, kind);
  }

  class Board {
    var elements: seq<Shape>
    var drawing: bool
    var elementType: Kind

    /** While drawing there is a shape being drawn: the last one. */
    ghost predicate Valid()
      reads this
    {
      drawing ==> |elements| > 0
    }

    constructor ()
      ensures Valid() && elements == [] && !drawing && elementType == Line
    {
      elements := [];
      drawing := false;
      elementType := Line;
    }

    method SetElementType(kind: Kind)
      requires Valid()
      modifies this
      ensures Valid() && elementType == kind
      ensures elements == old(elements) && drawing == old(drawing)
    {
      elementType := kind;
    }

    /** Pressing starts drawing with one new zero-extent shape of the current type. */
    method MouseDown(x: int, y: int)
      requires Valid()
      modifies this
      ensures Valid() && drawing && elementType == old(elementType)
      ensures elements == old(elements) + [Shape(x, y, x, y, old(elementType))]
    {
      drawing := true;
      var element := CreateShape(x, y, x, y, elementType);
      elements := elements + [element];
    }

    /** Moving stretches the last shape to the pointer while drawing, and does nothing otherwise. */
    method MouseMove(x: int, y: int)
      requires Valid()
      modifies this
      ensures Valid() && drawing == old(drawing) && elementType == old(elementType)
      ensures !old(drawing) ==> elements == old(elements)
      ensures old(drawing) ==> elements == Stretched(old(elements), x, y, elementType)
    {
      if !drawing {
        return;
      }
      var index := |elements| - 1;
      var updatedElement := CreateShape(elements[index].x1, elements[index].y1, x, y, elementType);
      var elementsCopy := elements;
      elementsCopy := elementsCopy[index := updatedElement];
      elements := elementsCopy;
    }

    /** Releasing stops drawing and leaves the shapes as they are. */
    method MouseUp()
      requires Valid()
      modifies this
      ensures Valid() && !drawing && elements == old(elements) && elementType == old(elementType)
    {
      drawing := false;
    }
  }

  /** A client of the class: a press, two moves and a release leave one stretched line. */
  method PressDragRelease()
  {
    var board := new Board();
    board.MouseDown(1, 2);
    board.MouseMove(3, 4);
    board.MouseMove(5, 6);
    board.MouseUp();
    assert board.elements == [Shape(1, 2, 5, 6, Line)];
    board.MouseMove(7, 8);
    assert board.elements == [Shape(1, 2, 5, 6, Line)];
  }
}
