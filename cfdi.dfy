/** The CFDI 3.3 invoice ("Comprobante") under construction: the root
    element's attribute object and child list, the line item builder, and the
    certification and seal attributes added at the end. */
module Cfdi {
  import opened Outcomes
  import opened Attributes
  import opened Tree
  import opened Taxes
  import opened SerialNumber

  const XMLNS_XSI := "xmlns:xsi"
  const XSI_NAMESPACE := "http://www.w3.org/2001/XMLSchema-instance"
  const SCHEMA_LOCATION := "xsi:schemaLocation"
  const CFDI_SCHEMA_LOCATION := "http://www.sat.gob.mx/cfd/3 http://www.sat.gob.mx/sitio_internet/cfd/3/cfdv33.xsd"
  const XMLNS_CFDI := "xmlns:cfdi"
  const CFDI_NAMESPACE := "http://www.sat.gob.mx/cfd/3"
  const VERSION := "Version"
  const CFDI_VERSION := "3.3"
  const NO_CERTIFICADO := "NoCertificado"
  const CERTIFICADO := "Certificado"
  const SELLO := "Sello"

  // ---------------------------------------------------------------------
  // Root attributes

  /** The caller's invoice fields with the namespace, schema location and
      version assigned over them. */
  function RootAttributes(comprobante: Attrs): Attrs
  {
    Set(Set(Set(Set(comprobante,
      XMLNS_XSI, XSI_NAMESPACE),
      SCHEMA_LOCATION, CFDI_SCHEMA_LOCATION),
      XMLNS_CFDI, CFDI_NAMESPACE),
      VERSION, CFDI_VERSION)
  }

  /** The root carries the caller's fields, in their order, plus the four
      fixed attributes, which override caller fields of the same name. */
  lemma RootAttributesSpec(comprobante: Attrs)
    ensures forall k ::
              Lookup(RootAttributes(comprobante), k) ==
                if k == XMLNS_XSI then Some(XSI_NAMESPACE)
                else if k == SCHEMA_LOCATION then Some(CFDI_SCHEMA_LOCATION)
                else if k == XMLNS_CFDI then Some(CFDI_NAMESPACE)
                else if k == VERSION then Some(CFDI_VERSION)
                else Lookup(comprobante, k)
    ensures KeysOf(RootAttributes(comprobante)) == KeysOf(comprobante) + {XMLNS_XSI, SCHEMA_LOCATION, XMLNS_CFDI, VERSION}
    ensures |comprobante| <= |RootAttributes(comprobante)| <= |comprobante| + 4
    ensures forall j :: 0 <= j < |comprobante| ==> RootAttributes(comprobante)[j].0 == comprobante[j].0
  {
    var a1 := Set(comprobante, XMLNS_XSI, XSI_NAMESPACE);
    var a2 := Set(a1, SCHEMA_LOCATION, CFDI_SCHEMA_LOCATION);
    var a3 := Set(a2, XMLNS_CFDI, CFDI_NAMESPACE);
    LookupSet(comprobante, XMLNS_XSI, XSI_NAMESPACE);
    LookupSet(a1, SCHEMA_LOCATION, CFDI_SCHEMA_LOCATION);
    LookupSet(a2, XMLNS_CFDI, CFDI_NAMESPACE);
    LookupSet(a3, VERSION, CFDI_VERSION);
  }

  // ---------------------------------------------------------------------
  // Certification and seal attributes

  /** The root attributes after `certificar`: NoCertificado then Certificado assigned. */
  function CertifiedAttributes(a: Attrs, noCertificado: string, certificado: string): Attrs
  {
    Set(Set(a, NO_CERTIFICADO, noCertificado), CERTIFICADO, certificado)
  }

  /** Certification sets exactly NoCertificado and Certificado, leaves every
      other attribute and every existing position alone, and doing it again
      with the same certificate changes nothing. */
  lemma CertifiedAttributesSpec(a: Attrs, noCertificado: string, certificado: string)
    ensures Lookup(CertifiedAttributes(a, noCertificado, certificado), NO_CERTIFICADO) == Some(noCertificado)
    ensures Lookup(CertifiedAttributes(a, noCertificado, certificado), CERTIFICADO) == Some(certificado)
    ensures forall k :: k != NO_CERTIFICADO && k != CERTIFICADO ==>
      Lookup(CertifiedAttributes(a, noCertificado, certificado), k) == Lookup(a, k)
    ensures KeysOf(CertifiedAttributes(a, noCertificado, certificado)) == KeysOf(a) + {NO_CERTIFICADO, CERTIFICADO}
    ensures forall j :: 0 <= j < |a| ==> CertifiedAttributes(a, noCertificado, certificado)[j].0 == a[j].0
    ensures CertifiedAttributes(CertifiedAttributes(a, noCertificado, certificado), noCertificado, certificado)
            == CertifiedAttributes(a, noCertificado, certificado)
  {
    var a1 := Set(a, NO_CERTIFICADO, noCertificado);
    var a2 := Set(a1, CERTIFICADO, certificado);
    LookupSet(a, NO_CERTIFICADO, noCertificado);
    LookupSet(a1, CERTIFICADO, certificado);
    SetSameValue(a2, NO_CERTIFICADO, noCertificado);
    SetSameValue(a2, CERTIFICADO, certificado);
  }

  /** Committing the seal adds only Sello; taking Sello out of the sealed
      attributes gives back the attributes as they stood without it, which
      for a first seal are exactly the attributes that were canonicalized. */
  lemma SelloCommit(a: Attrs, sello: string)
    ensures Lookup(Set(a, SELLO, sello), SELLO) == Some(sello)
    ensures forall k :: k != SELLO ==> Lookup(Set(a, SELLO, sello), k) == Lookup(a, k)
    ensures KeysOf(Set(a, SELLO, sello)) == KeysOf(a) + {SELLO}
    ensures Remove(Set(a, SELLO, sello), SELLO) == Remove(a, SELLO)
    ensures SELLO !in KeysOf(a) ==> Remove(Set(a, SELLO, sello), SELLO) == a
  {
    LookupSet(a, SELLO, sello);
    RemoveSet(a, SELLO, sello);
  }

  // ---------------------------------------------------------------------
  // Committing a line item into the root's children

  /** The root children once the `cfdi:Conceptos` container has been created
      if needed: it is created exactly when there are two children. */
  function WithConceptos(children: seq<Element>): seq<Element>
  {
    if |children| == 2 then children + [Container(CONCEPTOS)] else children
  }

  /** pushConcepto on the root children (intended layout): the new children
      and whether the push succeeded. The line item goes at the end of the
      `elements` of child 2, whatever that child is; without a child 2, or
      when child 2 has no `elements`, a TypeError is thrown. */
  function PushConcepto(children: seq<Element>, concepto: Element): (seq<Element>, Outcome)
  {
    var cs := WithConceptos(children);
    if |cs| < 3 || cs[2].elements.None? then (cs, Fail(UndefinedProperty))
    else (cs[2 := AppendChild(cs[2], concepto)], Pass)
  }

  /** The positional rule of pushConcepto: the container is created only when
      the root has exactly two children, the line item is always appended
      last to child 2, every other child is unchanged, and the push fails,
      changing nothing, when there is no child 2 with an `elements` list. */
  lemma PushConceptoLayout(children: seq<Element>, concepto: Element)
    ensures PushConcepto(children, concepto).1.Pass? <==>
      |children| == 2 || (|children| > 2 && children[2].elements.Some?)
    ensures PushConcepto(children, concepto).1.Fail? ==>
      PushConcepto(children, concepto) == (children, Fail(UndefinedProperty))
    ensures |children| == 2 ==>
      PushConcepto(children, concepto) == (children + [Element(CONCEPTOS, None, Some([concepto]))], Pass)
    ensures |children| > 2 && children[2].elements.Some? ==>
      var cs := PushConcepto(children, concepto).0;
      && |cs| == |children|
      && cs[2] == Element(children[2].name, children[2].attributes, Some(children[2].elements.value + [concepto]))
      && (forall j :: 0 <= j < |children| && j != 2 ==> cs[j] == children[j])
  {
    if |children| == 2 {
      var cs := children + [Container(CONCEPTOS)];
      assert [] + [concepto] == [concepto];
      assert AppendChild(cs[2], concepto) == Element(CONCEPTOS, None, Some([concepto]));
      assert cs[2 := AppendChild(cs[2], concepto)] == children + [Element(CONCEPTOS, None, Some([concepto]))];
    }
  }

  /** pushConcepto as written: the container is created first, then building
      a line item with traslados throws at `index++` on the `const`, so the
      line item is never pushed. */
  function PushConceptoAsWritten(children: seq<Element>, fields: Attrs, traslados: seq<Attrs>, retenciones: seq<Attrs>)
    : (seq<Element>, Outcome)
  {
    var cs := WithConceptos(children);
    if |cs| < 3 then (cs, Fail(UndefinedProperty))
    else match ConceptoAsWritten(fields, traslados, retenciones)
      case Err(e) => (cs, Fail(e))
      case Ok(concepto) =>
        if cs[2].elements.None? then (cs, Fail(UndefinedProperty))
        else (cs[2 := AppendChild(cs[2], concepto)], Pass)
  }

  /** Without traslados the written pushConcepto is the intended one. With
      traslados it never commits the line item; on a root with two children
      it leaves an empty Conceptos container behind, where the intended one
      commits the line item into a new container. */
  lemma PushConceptoConstIndex(children: seq<Element>, fields: Attrs, traslados: seq<Attrs>, retenciones: seq<Attrs>)
    ensures |traslados| == 0 ==>
      PushConceptoAsWritten(children, fields, traslados, retenciones)
        == PushConcepto(children, ConceptoElement(fields, traslados, retenciones))
    ensures |traslados| > 0 ==>
      PushConceptoAsWritten(children, fields, traslados, retenciones).1.Fail? &&
      PushConceptoAsWritten(children, fields, traslados, retenciones).0 == WithConceptos(children)
    ensures |children| == 2 && |traslados| > 0 ==>
      && PushConceptoAsWritten(children, fields, traslados, retenciones)
           == (children + [Container(CONCEPTOS)], Fail(ConstAssignment))
      && PushConcepto(children, ConceptoElement(fields, traslados, retenciones)).1 == Pass
  {
    ConceptoConstIndex(fields, traslados, retenciones);
  }

  // ---------------------------------------------------------------------
  // The invoice

  /** `CFDI`: the root element of the invoice tree. */
  class CFDI {
    /** The root's attribute object. */
    var attributes: Attrs
    /** The root's child list. */
    var elements: seq<Element>

    constructor (comprobante: Attrs)
      ensures attributes == RootAttributes(comprobante)
      ensures elements == []
    {
      elements := [];
      attributes := comprobante;
      new;
      attributes := Set(attributes, XMLNS_XSI, XSI_NAMESPACE);
      attributes := Set(attributes, SCHEMA_LOCATION, CFDI_SCHEMA_LOCATION);
      attributes := Set(attributes, XMLNS_CFDI, CFDI_NAMESPACE);
      attributes := Set(attributes, VERSION, CFDI_VERSION);
    }

    /** Related documents are accepted and ignored. */
    method CfdiRelacionados(tipoRelacion: string, relacionados: seq<string>)
      ensures attributes == old(attributes) && elements == old(elements)
    {
    }

    method Emisor(emisor: Attrs)
      modifies this
      ensures elements == old(elements) + [Leaf(EMISOR, emisor)]
      ensures attributes == old(attributes)
    {
      elements := elements + [Leaf(EMISOR, emisor)];
    }

    method Receptor(receptor: Attrs)
      modifies this
      ensures elements == old(elements) + [Leaf(RECEPTOR, receptor)]
      ensures attributes == old(attributes)
    {
      elements := elements + [Leaf(RECEPTOR, receptor)];
    }

    /** Appends the global totals block; a supplied total without its list
        throws before anything is appended. */
    method Impuestos(i: TotalsInput) returns (r: Outcome)
      modifies this
      ensures TotalsBlock(i).Ok? ==> r == Pass && elements == old(elements) + [TotalsBlock(i).value]
      ensures TotalsBlock(i).Err? ==> r == Fail(TotalsBlock(i).error) && elements == old(elements)
      ensures attributes == old(attributes)
    {
      var block := BuildTotals(i);
      match block
      case Err(e) =>
        r := Fail(e);
      case Ok(impuestos) =>
        elements := elements + [impuestos];
        r := Pass;
    }

    /** A fresh line item builder over the given fields. */
    method Concepto(concepto: Attrs) returns (c: Concept)
      ensures fresh(c)
      ensures c.fields == concepto && c.traslados == [] && c.retenciones == []
    {
      c := new Concept(concepto);
    }

    /** Sets NoCertificado and Certificado from the certificate's serial
        number (None when the file cannot be read or parsed as a
        certificate) and its base64 text. */
    method Certificar(serialNumber: Option<Hex>, certificado: string) returns (r: Outcome)
      modifies this
      ensures elements == old(elements)
      ensures serialNumber.None? ==> r == Fail(InvalidCertificate) && attributes == old(attributes)
      ensures serialNumber.Some? && NoCertificado(serialNumber.value).Err? ==>
        r == Fail(UndefinedProperty) && attributes == old(attributes)
      ensures serialNumber.Some? && NoCertificado(serialNumber.value).Ok? ==>
        r == Pass && attributes == CertifiedAttributes(old(attributes), NoCertificado(serialNumber.value).value, certificado)
    {
      if serialNumber.None? {
        return Fail(InvalidCertificate);
      }
      var derived := NoCertificado(serialNumber.value);
      if derived.Err? {
        return Fail(derived.error);
      }
      attributes := Set(attributes, NO_CERTIFICADO, derived.value);
      attributes := Set(attributes, CERTIFICADO, certificado);
      r := Pass;
    }

    /** Seals the invoice: the canonical string is computed from the current
        tree, the private key comes decrypted (None when decryption failed),
        and the signature over the canonical string is committed as Sello. */
    method XmlSellado(canonicalize: (Attrs, seq<Element>) -> Option<string>, pem: Option<string>,
                      sign: (string, string) -> Option<string>) returns (r: Outcome)
      modifies this
      ensures elements == old(elements)
      ensures canonicalize(old(attributes), old(elements)).None? ==>
        r == Fail(CanonicalizationFailed) && attributes == old(attributes)
      ensures canonicalize(old(attributes), old(elements)).Some? && pem.None? ==>
        r == Fail(KeyDecryptionFailed) && attributes == old(attributes)
      ensures canonicalize(old(attributes), old(elements)).Some? && pem.Some? ==>
        var sello := sign(pem.value, canonicalize(old(attributes), old(elements)).value);
        && (sello.None? ==> r == Fail(SigningFailed) && attributes == old(attributes))
        && (sello.Some? ==> r == Pass && attributes == Set(old(attributes), SELLO, sello.value))
    {
      var cadena := canonicalize(attributes, elements);
      if cadena.None? {
        return Fail(CanonicalizationFailed);
      }
      if pem.None? {
        return Fail(KeyDecryptionFailed);
      }
      var sello := sign(pem.value, cadena.value);
      if sello.None? {
        return Fail(SigningFailed);
      }
      attributes := Set(attributes, SELLO, sello.value);
      r := Pass;
    }
  }

  /** `concept`: the line item builder. */
  class Concept {
    /** The caller's line item fields. */
    var fields: Attrs
    var traslados: seq<Attrs>
    var retenciones: seq<Attrs>

    /** Both tax lists start empty, whatever the caller passed. */
    constructor (concepto: Attrs)
      ensures fields == concepto && traslados == [] && retenciones == []
    {
      fields := concepto;
      traslados := [];
      retenciones := [];
    }

    method Traslado(traslado: Attrs)
      modifies this
      ensures traslados == old(traslados) + [traslado]
      ensures fields == old(fields) && retenciones == old(retenciones)
    {
      traslados := traslados + [traslado];
    }

    method Retencion(retencion: Attrs)
      modifies this
      ensures retenciones == old(retenciones) + [retencion]
      ensures fields == old(fields) && traslados == old(traslados)
    {
      retenciones := retenciones + [retencion];
    }

    /** Commits the line item into the invoice (pushConcepto). */
    method Agregar(cfdi: CFDI) returns (r: Outcome)
      modifies cfdi
      ensures (cfdi.elements, r) == PushConcepto(old(cfdi.elements), ConceptoElement(fields, traslados, retenciones))
      ensures cfdi.attributes == old(cfdi.attributes)
    {
      if |cfdi.elements| == 2 {
        cfdi.elements := cfdi.elements + [Container(CONCEPTOS)];
      }
      if |cfdi.elements| < 3 || cfdi.elements[2].elements.None? {
        return Fail(UndefinedProperty);
      }
      var concepto := BuildConcepto(fields, traslados, retenciones);
      cfdi.elements := cfdi.elements[2 := AppendChild(cfdi.elements[2], concepto)];
      r := Pass;
    }
  }
}
