/** The tax blocks of the invoice: the `cfdi:Impuestos` sub-block of a line
    item (`cfdi:Concepto`) and the global `cfdi:Impuestos` totals block of the
    root. Each is assembled in a local element that is only attached once it
    is complete. */
module Taxes {
  import opened Outcomes
  import opened Attributes
  import opened Tree

  /** The builder's property holding its tax lists; it is not an XML attribute. */
  const IMPUESTOS_KEY := "Impuestos"
  const TOTAL_TRASLADADOS := "TotalImpuestosTrasladados"
  const TOTAL_RETENIDOS := "TotalImpuestosRetenidos"

  /** The element names of a child list, in order. */
  function Names(es: seq<Element>): seq<string>
  {
    seq(|es|, i requires 0 <= i < |es| => es[i].name)
  }

  // ---------------------------------------------------------------------
  // The tax sub-block of a line item

  /** The groups of a line item's tax sub-block (intended layout): a Traslados
      group when there are traslados, then a Retenciones group when there are
      retenciones. */
  function TaxGroups(traslados: seq<Attrs>, retenciones: seq<Attrs>): seq<Element>
  {
    (if |traslados| > 0 then [Group(TRASLADOS, TRASLADO, traslados)] else [])
      + (if |retenciones| > 0 then [Group(RETENCIONES, RETENCION, retenciones)] else [])
  }

  /** The committed line item (intended layout): the builder's properties
      without `Impuestos`, and a tax sub-block only when there is a tax. */
  function ConceptoElement(fields: Attrs, traslados: seq<Attrs>, retenciones: seq<Attrs>): Element
  {
    Element(CONCEPTO, Some(Remove(fields, IMPUESTOS_KEY)),
      Some(if |traslados| > 0 || |retenciones| > 0
           then [Element(IMPUESTOS, None, Some(TaxGroups(traslados, retenciones)))]
           else []))
  }

  /** Builds the line item element the way pushConcepto does, with the group
      index advanced after the Traslados group. */
  method BuildConcepto(fields: Attrs, traslados: seq<Attrs>, retenciones: seq<Attrs>) returns (concepto: Element)
    ensures concepto == ConceptoElement(fields, traslados, retenciones)
  {
    var children: seq<Element> := [];
    if |traslados| > 0 || |retenciones| > 0 {
      var taxes: seq<Element> := [];
      var index := 0;
      if |traslados| > 0 {
        taxes := taxes + [Container(TRASLADOS)];
        var k := 0;
        while k < |traslados|
          invariant k <= |traslados|
          invariant taxes == [Group(TRASLADOS, TRASLADO, traslados[..k])]
        {
          assert traslados[..k + 1] == traslados[..k] + [traslados[k]];
          taxes := taxes[index := AppendChild(taxes[index], Leaf(TRASLADO, traslados[k]))];
          k := k + 1;
        }
        assert traslados[..k] == traslados;
        index := index + 1;
      }
      assert taxes == if |traslados| > 0 then [Group(TRASLADOS, TRASLADO, traslados)] else [];
      if |retenciones| > 0 {
        var done := taxes;
        taxes := taxes + [Container(RETENCIONES)];
        var k := 0;
        while k < |retenciones|
          invariant k <= |retenciones|
          invariant index == |done| && |taxes| == |done| + 1
          invariant taxes == done + [Group(RETENCIONES, RETENCION, retenciones[..k])]
        {
          assert retenciones[..k + 1] == retenciones[..k] + [retenciones[k]];
          taxes := taxes[index := AppendChild(taxes[index], Leaf(RETENCION, retenciones[k]))];
          k := k + 1;
        }
        assert retenciones[..k] == retenciones;
      }
      assert taxes == TaxGroups(traslados, retenciones);
      children := [Element(IMPUESTOS, None, Some(taxes))];
    }
    concepto := Element(CONCEPTO, Some(Remove(fields, IMPUESTOS_KEY)), Some(children));
  }

  /** A committed line item carries the caller's properties without
      `Impuestos`, in their order, and has one child, its tax sub-block,
      exactly when it has a traslado or a retencion. */
  lemma ConceptoLayout(fields: Attrs, traslados: seq<Attrs>, retenciones: seq<Attrs>)
    ensures ConceptoElement(fields, traslados, retenciones).name == CONCEPTO
    ensures ConceptoElement(fields, traslados, retenciones).attributes.Some?
    ensures forall k :: Lookup(ConceptoElement(fields, traslados, retenciones).attributes.value, k)
                        == if k == IMPUESTOS_KEY then None else Lookup(fields, k)
    ensures KeysOf(ConceptoElement(fields, traslados, retenciones).attributes.value) == KeysOf(fields) - {IMPUESTOS_KEY}
    ensures IMPUESTOS_KEY !in KeysOf(fields) ==> ConceptoElement(fields, traslados, retenciones).attributes.value == fields
    ensures IMPUESTOS_KEY in KeysOf(fields) ==>
      exists j :: (0 <= j < |fields| && fields[j].0 == IMPUESTOS_KEY &&
                   ConceptoElement(fields, traslados, retenciones).attributes.value == fields[..j] + fields[j + 1..])
    ensures ConceptoElement(fields, traslados, retenciones).elements.Some?
    ensures |ConceptoElement(fields, traslados, retenciones).elements.value| == 0 <==> |traslados| == 0 && |retenciones| == 0
    ensures |ConceptoElement(fields, traslados, retenciones).elements.value| <= 1
    ensures |traslados| > 0 || |retenciones| > 0 ==>
      ConceptoElement(fields, traslados, retenciones).elements.value[0]
        == Element(IMPUESTOS, None, Some(TaxGroups(traslados, retenciones)))
  {
    LookupRemove(fields, IMPUESTOS_KEY);
    if IMPUESTOS_KEY in KeysOf(fields) {
      RemoveInOrder(fields, IMPUESTOS_KEY);
    }
  }

  /** The sub-block holds a Traslados group iff there are traslados and a
      Retenciones group iff there are retenciones, Traslados first; each
      group holds its entries once each, in call order. */
  lemma TaxGroupsLayout(traslados: seq<Attrs>, retenciones: seq<Attrs>)
    ensures Names(TaxGroups(traslados, retenciones))
            == (if |traslados| > 0 then [TRASLADOS] else []) + (if |retenciones| > 0 then [RETENCIONES] else [])
    ensures |traslados| > 0 ==> TaxGroups(traslados, retenciones)[0] == Group(TRASLADOS, TRASLADO, traslados)
    ensures |retenciones| > 0 ==>
      TaxGroups(traslados, retenciones)[|TaxGroups(traslados, retenciones)| - 1] == Group(RETENCIONES, RETENCION, retenciones)
  {
  }

  // ---------------------------------------------------------------------
  // The global totals block

  /** The argument of `impuestos(i)`: each total is either supplied or not
      (`_.has`), and each list may be missing. */
  datatype TotalsInput = TotalsInput(
    totalTrasladados: Option<string>,
    traslados: Option<seq<Attrs>>,
    totalRetenidos: Option<string>,
    retenciones: Option<seq<Attrs>>)

  /** A supplied total whose list is missing makes `forEach` on `undefined` throw. */
  predicate MissingList(i: TotalsInput)
  {
    (i.totalTrasladados.Some? && i.traslados.None?) || (i.totalRetenidos.Some? && i.retenciones.None?)
  }

  /** The totals set on the block's initially empty attribute object. */
  function TotalsAttributes(i: TotalsInput): Attrs
  {
    var a := if i.totalTrasladados.Some? then Set([], TOTAL_TRASLADADOS, i.totalTrasladados.value) else [];
    if i.totalRetenidos.Some? then Set(a, TOTAL_RETENIDOS, i.totalRetenidos.value) else a
  }

  function TotalsGroups(i: TotalsInput): seq<Element>
    requires !MissingList(i)
  {
    (if i.totalTrasladados.Some? then [Group(TRASLADOS, TRASLADO, i.traslados.value)] else [])
      + (if i.totalRetenidos.Some? then [Group(RETENCIONES, RETENCION, i.retenciones.value)] else [])
  }

  /** The totals block (intended layout), or the TypeError of a missing list. */
  function TotalsBlock(i: TotalsInput): Result<Element>
  {
    if MissingList(i) then Err(UndefinedProperty)
    else Ok(Element(IMPUESTOS, Some(TotalsAttributes(i)), Some(TotalsGroups(i))))
  }

  /** Builds the totals block the way `impuestos` does, with the group index
      advanced after the Traslados group. */
  method BuildTotals(i: TotalsInput) returns (r: Result<Element>)
    ensures r == TotalsBlock(i)
  {
    var attributes: Attrs := [];
    var elements: seq<Element> := [];
    var index := 0;
    if i.totalTrasladados.Some? {
      attributes := Set(attributes, TOTAL_TRASLADADOS, i.totalTrasladados.value);
      elements := elements + [Container(TRASLADOS)];
      if i.traslados.None? {
        return Err(UndefinedProperty);
      }
      var traslados := i.traslados.value;
      var k := 0;
      while k < |traslados|
        invariant k <= |traslados|
        invariant elements == [Group(TRASLADOS, TRASLADO, traslados[..k])]
      {
        assert traslados[..k + 1] == traslados[..k] + [traslados[k]];
        elements := elements[index := AppendChild(elements[index], Leaf(TRASLADO, traslados[k]))];
        k := k + 1;
      }
      assert traslados[..k] == traslados;
      index := index + 1;
    }
    assert elements == if i.totalTrasladados.Some? then [Group(TRASLADOS, TRASLADO, i.traslados.value)] else [];
    if i.totalRetenidos.Some? {
      attributes := Set(attributes, TOTAL_RETENIDOS, i.totalRetenidos.value);
      var done := elements;
      elements := elements + [Container(RETENCIONES)];
      if i.retenciones.None? {
        return Err(UndefinedProperty);
      }
      var retenciones := i.retenciones.value;
      var k := 0;
      while k < |retenciones|
        invariant k <= |retenciones|
        invariant index == |done| && |elements| == |done| + 1
        invariant elements == done + [Group(RETENCIONES, RETENCION, retenciones[..k])]
      {
        assert retenciones[..k + 1] == retenciones[..k] + [retenciones[k]];
        elements := elements[index := AppendChild(elements[index], Leaf(RETENCION, retenciones[k]))];
        k := k + 1;
      }
      assert retenciones[..k] == retenciones;
    }
    assert elements == TotalsGroups(i);
    r := Ok(Element(IMPUESTOS, Some(attributes), Some(elements)));
  }

  /** The totals block fails only for a supplied total without its list.
      Otherwise each total, independently of the other, is an attribute iff it
      is supplied, and its group is present iff it is supplied (even with an
      empty list), Traslados first, each holding its entries in order. */
  lemma TotalsLayout(i: TotalsInput)
    ensures TotalsBlock(i).Err? <==> MissingList(i)
    ensures TotalsBlock(i).Ok? ==>
      var e := TotalsBlock(i).value;
      && e.name == IMPUESTOS
      && e.attributes.Some?
      && Lookup(e.attributes.value, TOTAL_TRASLADADOS) == i.totalTrasladados
      && Lookup(e.attributes.value, TOTAL_RETENIDOS) == i.totalRetenidos
      && KeysOf(e.attributes.value) <= {TOTAL_TRASLADADOS, TOTAL_RETENIDOS}
      && e.elements.Some?
      && Names(e.elements.value)
         == (if i.totalTrasladados.Some? then [TRASLADOS] else [])
            + (if i.totalRetenidos.Some? then [RETENCIONES] else [])
      && (i.totalTrasladados.Some? ==> e.elements.value[0] == Group(TRASLADOS, TRASLADO, i.traslados.value))
      && (i.totalRetenidos.Some? ==>
            e.elements.value[|e.elements.value| - 1] == Group(RETENCIONES, RETENCION, i.retenciones.value))
  {
  }

  // ---------------------------------------------------------------------
  // The layout as written: `index` is a `const`, so `index++` throws

  /** pushConcepto's line item as written: with traslados, `index++` on the
      `const` throws a TypeError; without, the Retenciones group sits at
      index 0 as intended. */
  function ConceptoAsWritten(fields: Attrs, traslados: seq<Attrs>, retenciones: seq<Attrs>): Result<Element>
  {
    if |traslados| > 0 then Err(ConstAssignment)
    else Ok(Element(CONCEPTO, Some(Remove(fields, IMPUESTOS_KEY)),
      Some(if |retenciones| > 0
           then [Element(IMPUESTOS, None, Some([Group(RETENCIONES, RETENCION, retenciones)]))]
           else [])))
  }

  /** The written line item builder fails exactly when there are traslados,
      where the intended one has a Traslados group holding them; in every
      other case the two agree. */
  lemma ConceptoConstIndex(fields: Attrs, traslados: seq<Attrs>, retenciones: seq<Attrs>)
    ensures ConceptoAsWritten(fields, traslados, retenciones).Err? <==> |traslados| > 0
    ensures |traslados| == 0 ==> ConceptoAsWritten(fields, traslados, retenciones) == Ok(ConceptoElement(fields, traslados, retenciones))
    ensures |traslados| > 0 ==>
      ConceptoElement(fields, traslados, retenciones).elements.value[0].elements.value[0]
        == Group(TRASLADOS, TRASLADO, traslados)
  {
    if |traslados| == 0 {
      assert TaxGroups(traslados, retenciones) == if |retenciones| > 0 then [Group(RETENCIONES, RETENCION, retenciones)] else [];
    }
  }

  /** The totals block of `impuestos` as written: a supplied
      TotalImpuestosTrasladados always ends in a TypeError (from `forEach` on a
      missing list, or from `index++` on the `const`). */
  function TotalsAsWritten(i: TotalsInput): Result<Element>
  {
    if i.totalTrasladados.Some? then
      Err(if i.traslados.None? then UndefinedProperty else ConstAssignment)
    else if i.totalRetenidos.Some? && i.retenciones.None? then Err(UndefinedProperty)
    else Ok(Element(IMPUESTOS,
      Some(if i.totalRetenidos.Some? then Set([], TOTAL_RETENIDOS, i.totalRetenidos.value) else []),
      Some(if i.totalRetenidos.Some? then [Group(RETENCIONES, RETENCION, i.retenciones.value)] else [])))
  }

  /** The written `impuestos` fails whenever TotalImpuestosTrasladados is
      supplied, including every input the intended one accepts with that
      total; without that total the two agree. */
  lemma TotalsConstIndex(i: TotalsInput)
    ensures TotalsAsWritten(i).Err? <==> i.totalTrasladados.Some? || MissingList(i)
    ensures i.totalTrasladados.None? ==> TotalsAsWritten(i) == TotalsBlock(i)
    ensures i.totalTrasladados.Some? && !MissingList(i) ==>
      TotalsAsWritten(i) == Err(ConstAssignment) && TotalsBlock(i).Ok?
  {
    if i.totalTrasladados.None? && !MissingList(i) {
      assert TotalsGroups(i) == if i.totalRetenidos.Some? then [Group(RETENCIONES, RETENCION, i.retenciones.value)] else [];
    }
  }
}
