/**
 * The element model of the whiteboard: an element is a line or a rectangle with an
 * identifier and two integer corner (or end) points. The scene is the ordered sequence
 * of elements; an element's identifier is its index in the scene.
 */
module Elements {

  /** The tools of the toolbar. An element's kind is the name of the tool that drew it. */
  datatype Tool = Selection | Line | Rectangle

  /** The four coordinates of an element, without identity or kind. */
  datatype Coords = Coords(x1: int, y1: int, x2: int, y2: int)

  /**
   * A drawn element. Only `Rectangle` is treated as a box by the geometry; every other
   * kind (a line, or an element whose kind became `Selection` because the tool was switched
   * in the middle of a draw) is treated as a line segment.
   */
  datatype Element = Element(id: nat, x1: int, y1: int, x2: int, y2: int, kind: Tool)
  {
    function Corners(): Coords { Coords(x1, y1, x2, y2) }

    predicate IsBox() { kind == Rectangle }
  }

  /** Builds an element; the renderer's shape description is not part of the model. */
  function CreateElement(id: nat, x1: int, y1: int, x2: int, y2: int, kind: Tool): (e: Element)
    ensures e.id == id && e.kind == kind
    ensures e.Corners() == Coords(x1, y1, x2, y2)
  {
    Element(id, x1, y1, x2, y2, kind)
  }

  /** The scene invariant: every element's identifier is its index. */
  ghost predicate WellIndexed(scene: seq<Element>)
  {
    forall i :: 0 <= i < |scene| ==> scene[i].id == i
  }

  /**
   * `copy[id] = e` on a copy of the scene. A slot inside the scene is replaced, and a slot
   * just past its end extends it by one. A slot further out is left as the scene (the
   * array would get holes there).
   */
  function WriteSlot(scene: seq<Element>, id: nat, e: Element): (r: seq<Element>)
    ensures id < |scene| ==> |r| == |scene| && r[id] == e
    ensures id < |scene| ==> forall i :: 0 <= i < |scene| && i != id ==> r[i] == scene[i]
    ensures id == |scene| ==> r == scene + [e]
    ensures id > |scene| ==> r == scene
  {
    if id < |scene| then scene[id := e]
    else if id == |scene| then scene + [e]
    else scene
  }

  /** Writing an element into the slot its identifier names keeps the scene well indexed. */
  lemma WriteSlotKeepsIndexed(scene: seq<Element>, e: Element)
    requires WellIndexed(scene)
    ensures WellIndexed(WriteSlot(scene, e.id, e))
  {
    var r := WriteSlot(scene, e.id, e);
    forall i | 0 <= i < |r|
      ensures r[i].id == i
    {
      if i == e.id {
      } else {
        assert r[i] == scene[i];
      }
    }
  }

  /** Appending an element whose identifier is the scene's length keeps it well indexed. */
  lemma AppendKeepsIndexed(scene: seq<Element>, e: Element)
    requires WellIndexed(scene) && e.id == |scene|
    ensures WellIndexed(scene + [e])
  {
    WriteSlotKeepsIndexed(scene, e);
  }
}
