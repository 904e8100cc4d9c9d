/** The xml-js JSON element tree the invoice is built in. An element has a
    name, an optional `attributes` object and an optional `elements` list; the
    two are optional because the builder leaves them out of some elements, and
    their absence is observable (pushing into a missing `elements` list throws). */
module Tree {
  import opened Outcomes
  import opened Attributes

  datatype Element = Element(name: string, attributes: Option<Attrs>, elements: Option<seq<Element>>)

  const CONCEPTOS := "cfdi:Conceptos"
  const CONCEPTO := "cfdi:Concepto"
  const IMPUESTOS := "cfdi:Impuestos"
  const TRASLADOS := "cfdi:Traslados"
  const TRASLADO := "cfdi:Traslado"
  const RETENCIONES := "cfdi:Retenciones"
  const RETENCION := "cfdi:Retencion"
  const EMISOR := "cfdi:Emisor"
  const RECEPTOR := "cfdi:Receptor"

  /** `{ type: 'element', name, attributes }` with no `elements` key. */
  function Leaf(name: string, attributes: Attrs): Element
  {
    Element(name, Some(attributes), None)
  }

  /** `{ type: 'element', name, elements: [] }` with no `attributes` key. */
  function Container(name: string): Element
  {
    Element(name, None, Some([]))
  }

  /** `e.elements.push(child)` on an element whose `elements` list exists. */
  function AppendChild(e: Element, child: Element): Element
    requires e.elements.Some?
  {
    e.(elements := Some(e.elements.value + [child]))
  }

  /** The leaves `forEach` pushes into a group: one leaf named `item` per
      entry, the last entry's leaf pushed last. */
  function Leaves(item: string, entries: seq<Attrs>): seq<Element>
  {
    if |entries| == 0 then []
    else Leaves(item, entries[..|entries| - 1]) + [Leaf(item, entries[|entries| - 1])]
  }

  /** Each entry appears once, as a leaf named `item`, in its place. */
  lemma {:induction false} LeavesAt(item: string, entries: seq<Attrs>)
    ensures |Leaves(item, entries)| == |entries|
    ensures forall k :: 0 <= k < |entries| ==> Leaves(item, entries)[k] == Leaf(item, entries[k])
  {
    if |entries| > 0 {
      LeavesAt(item, entries[..|entries| - 1]);
    }
  }

  /** A container named `group` holding `Leaves(item, entries)`. */
  function Group(group: string, item: string, entries: seq<Attrs>): Element
  {
    Element(group, None, Some(Leaves(item, entries)))
  }
}
