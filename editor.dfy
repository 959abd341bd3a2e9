/**
 * The whiteboard application: the active tool, the pointer action, the selected element and
 * the history of scenes, updated by the pointer handlers and by undo and redo. The first
 * event of a gesture commits one new snapshot; every later frame overwrites it.
 */
module Editor {
  import opened Wrappers
  import opened Elements
  import opened Geometry
  import opened Coordinates
  import opened History
  import opened Gestures

  /** The selected element matches the action: drawn for a draw, grabbed by the body or a handle. */
  ghost predicate SessionValid(action: Action, selected: Option<Selected>)
  {
    (action == Drawing ==> selected.Some? && selected.value.Drawn?) &&
    (action == Moving ==> selected.Some? && selected.value.Grabbed? && selected.value.position == Inside) &&
    (action == Resizing ==> selected.Some? && selected.value.Grabbed? && selected.value.position != Inside)
  }

  class Whiteboard {
    const onSegment: SegmentTest
    const history: HistoryStore<seq<Element>>
    var action: Action
    var tool: Tool
    var selected: Option<Selected>

    /** The history is valid, every snapshot in it is well indexed, and the session is coherent. */
    ghost predicate Valid()
      reads this, history
    {
      history.Valid() &&
      (forall k :: 0 <= k < |history.entries| ==> WellIndexed(history.entries[k])) &&
      SessionValid(action, selected)
    }

    /** The scene on the canvas: the current snapshot. */
    function Elements(): seq<Element>
      reads this, history
      requires history.Valid()
    {
      history.Current()
    }

    constructor (onSegment: SegmentTest)
      ensures Valid() && fresh(history)
      ensures this.onSegment == onSegment
      ensures history.Model() == Initial([])
      ensures action == Idle && tool == Line && selected == None
    {
      this.onSegment := onSegment;
      history := new HistoryStore([]);
      action := Idle;
      tool := Line;
      selected := None;
    }

    method SetTool(t: Tool)
      requires Valid()
      modifies this
      ensures Valid()
      ensures tool == t && action == old(action) && selected == old(selected)
    {
      tool := t;
    }

    /** Replaces slot `id` of the scene with a new element, as an overwrite. */
    method UpdateElement(id: nat, x1: int, y1: int, x2: int, y2: int, kind: Tool)
      requires Valid()
      modifies history
      ensures Valid()
      ensures history.Model() ==
        Overwritten(old(history.Model()), WriteSlot(old(Elements()), id, CreateElement(id, x1, y1, x2, y2, kind)))
    {
      var element := CreateElement(id, x1, y1, x2, y2, kind);
      var scene := history.Current();
      WriteSlotKeepsIndexed(scene, element);
      var elementsCopy := WriteSlot(scene, id, element);
      history.SetState(Value(elementsCopy), true);
    }

    /**
     * Pressing the pointer. With the selection tool, a hit element is grabbed (with the offset
     * of the pointer from its first corner) and an identical copy of the scene is committed;
     * a miss changes nothing. A drawing tool commits the scene with a new zero-extent element.
     */
    method MouseDown(x: int, y: int)
      requires Valid()
      modifies this, history
      ensures Valid()
      ensures tool == old(tool)
      ensures old(tool) == Selection ==>
        var hit := ElementAt(x, y, old(Elements()), onSegment);
        (hit.None? ==>
          history.Model() == old(history.Model()) && action == old(action) && selected == old(selected)) &&
        (hit.Some? ==>
          history.Model() == Committed(old(history.Model()), old(Elements())) &&
          selected == Some(Grabbed(hit.value.element, hit.value.position,
                                   x - hit.value.element.x1, y - hit.value.element.y1)) &&
          action == GrabAction(hit.value.position))
      ensures old(tool) != Selection ==>
        var e := NewElement(old(Elements()), x, y, old(tool));
        history.Model() == Committed(old(history.Model()), old(Elements()) + [e]) &&
        selected == Some(Drawn(e)) && action == Drawing
    {
      var elements := history.Current();
      if tool == Selection {
        var element := ElementAt(x, y, elements, onSegment);
        if element.Some? {
          var hit := element.value;
          var offsetX := x - hit.element.x1;
          var offsetY := y - hit.element.y1;
          selected := Some(Grabbed(hit.element, hit.position, offsetX, offsetY));
          history.SetState(Updater(prevState => prevState), false);
          if hit.position == Inside {
            action := Moving;
          } else {
            action := Resizing;
          }
        }
      } else {
        var id := |elements|;
        var element := CreateElement(id, x, y, x, y, tool);
        AppendKeepsIndexed(elements, element);
        history.SetState(Updater(prevState => prevState + [element]), false);
        selected := Some(Drawn(element));
        action := Drawing;
      }
    }

    /**
     * Moving the pointer. With the selection tool the hover cursor is returned (the caller shows
     * it). The frame of the current gesture overwrites the current snapshot; with no gesture the
     * scene is unchanged.
     */
    method MouseMove(x: int, y: int) returns (cursor: Option<Cursor>)
      requires Valid()
      modifies history
      ensures Valid()
      ensures cursor == if tool == Selection then Some(HoverCursor(x, y, old(Elements()), onSegment)) else None
      ensures history.Model() == Overwritten(old(history.Model()), Frame(action, selected, tool, old(Elements()), x, y))
    {
      var elements := history.Current();
      cursor := if tool == Selection then Some(HoverCursor(x, y, elements, onSegment)) else None;
      OverwriteWithCurrent(history.Model());
      if action == Drawing {
        if |elements| > 0 {
          var index := |elements| - 1;
          UpdateElement(index, elements[index].x1, elements[index].y1, x, y, tool);
        }
      } else if action == Moving {
        match selected {
          case Some(Grabbed(e, _, offsetX, offsetY)) =>
            var c := MovedCoordinates(e, x, y, offsetX, offsetY);
            UpdateElement(e.id, c.x1, c.y1, c.x2, c.y2, e.kind);
          case _ =>
        }
      } else if action == Resizing {
        match selected {
          case Some(Grabbed(e, position, _, _)) =>
            match ResizeCoordinates(x, y, position, e.Corners()) {
              case Some(c) => UpdateElement(e.id, c.x1, c.y1, c.x2, c.y2, e.kind);
              case None =>
            }
          case _ =>
        }
      }
    }

    /**
     * Releasing the pointer: after a draw or a resize the selected element is normalised, as an
     * overwrite; the action returns to idle and the selection is dropped.
     */
    method MouseUp()
      requires Valid()
      modifies this, history
      ensures Valid()
      ensures history.Model() == Overwritten(old(history.Model()), Release(old(action), old(selected), old(Elements())))
      ensures action == Idle && selected == None && tool == old(tool)
    {
      var elements := history.Current();
      OverwriteWithCurrent(history.Model());
      if selected.Some? {
        var index := selected.value.element.id;
        if index < |elements| {
          var e := elements[index];
          if action == Drawing || action == Resizing {
            var c := AdjustElementCoordinates(e);
            UpdateElement(e.id, c.x1, c.y1, c.x2, c.y2, e.kind);
          }
        }
      }
      action := Idle;
      selected := None;
    }

    method Undo()
      requires Valid()
      modifies history
      ensures Valid() && history.Model() == Undone(old(history.Model()))
    {
      history.Undo();
    }

    method Redo()
      requires Valid()
      modifies history
      ensures Valid() && history.Model() == Redone(old(history.Model()))
    {
      history.Redo();
    }
  }

  /**
   * A client of the class: one rectangle drawn from (10, 10) to (5, 5) is one undo step, and
   * redo brings it back normalised.
   */
  method DrawUndoRedo(onSegment: SegmentTest)
  {
    var board := new Whiteboard(onSegment);
    board.SetTool(Rectangle);
    board.MouseDown(10, 10);
    assert board.Elements() == [Element(0, 10, 10, 10, 10, Rectangle)];
    var cursor := board.MouseMove(5, 5);
    assert cursor == None;
    assert board.Elements() == [Element(0, 10, 10, 5, 5, Rectangle)];
    board.MouseUp();
    assert board.Elements() == [Element(0, 5, 5, 10, 10, Rectangle)];
    assert board.history.Model().entries == [[], [Element(0, 5, 5, 10, 10, Rectangle)]];
    board.Undo();
    assert board.Elements() == [];
    board.Redo();
    assert board.Elements() == [Element(0, 5, 5, 10, 10, Rectangle)];
  }
}
