/** The cards on the board (`ElementType` in GameScreen.tsx) and the linear
    searches the combination handler runs over them (`elements.find`). */
module Elements {

  datatype Option<+T> = None | Some(value: T)

  /** One element card: its id, display name, emoji and flavour text. */
  datatype Element = Element(id: string, name: string, emoji: string, description: string)

  /** The four primitives the board starts with when no saved list is passed in. */
  const Primitives: seq<Element> := [
    Element("air", "Air", "\U{1F4A8}", "Gaseous substances"),
    Element("water", "Water", "\U{1F4A7}", "Liquid life"),
    Element("earth", "Earth", "\U{1F331}", "Solid ground"),
    Element("fire", "Fire", "\U{1F525}", "Energy and heat")
  ]

  /** No two cards share an id. */
  ghost predicate UniqueIds(elements: seq<Element>) {
    forall i, j :: 0 <= i < j < |elements| ==> elements[i].id != elements[j].id
  }

  lemma PrimitivesHaveUniqueIds()
    ensures |Primitives| == 4 && UniqueIds(Primitives)
  {
  }

  /** `elements.find(e => e.id === id)`: the first card with that id, if any. */
  function Find(elements: seq<Element>, id: string): (r: Option<Element>)
    ensures r.None? <==> forall k :: 0 <= k < |elements| ==> elements[k].id != id
    ensures r.Some? ==> exists i :: 0 <= i < |elements| && elements[i] == r.value && r.value.id == id
                                    && forall k :: 0 <= k < i ==> elements[k].id != id
  {
    if |elements| == 0 then None
    else if elements[0].id == id then Some(elements[0])
    else
      var r := Find(elements[1..], id);
      assert forall k :: 1 <= k < |elements| ==> elements[k] == elements[1..][k - 1];
      r
  }

  /** Appending a card never changes which card an earlier match finds. */
  lemma {:induction false} FindAppend(elements: seq<Element>, e: Element, id: string)
    ensures Find(elements + [e], id) == if Find(elements, id).Some? then Find(elements, id)
                                       else if e.id == id then Some(e) else None
  {
    if |elements| > 0 {
      assert (elements + [e])[1..] == elements[1..] + [e];
      FindAppend(elements[1..], e, id);
    }
  }

  /** The linear search as the handler runs it, one card at a time. */
  method FindById(elements: seq<Element>, id: string) returns (r: Option<Element>)
    ensures r == Find(elements, id)
  {
    var i := 0;
    while i < |elements|
      invariant 0 <= i <= |elements|
      invariant Find(elements[i..], id) == Find(elements, id)
    {
      if elements[i].id == id {
        return Some(elements[i]);
      }
      assert elements[i..][1..] == elements[i + 1..];
      i := i + 1;
    }
    return None;
  }
}
