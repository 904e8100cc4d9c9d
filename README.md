# CFDI 3.3 invoice tree, in Dafny

This project models the in-memory tree that `src/CFDI.js` builds for a CFDI 3.3
"Comprobante", the electronic invoice of Mexico's tax authority (SAT). The tree is
the xml-js JSON element form the library later turns into XML. The model covers:

- the `CFDI` class. Its constructor fixes the root attributes. `emisor`,
  `receptor` and `impuestos` append root children. `certificar` writes
  `NoCertificado` and `Certificado`, and `xmlSellado` commits `Sello`;
- the `concept` line-item builder (`traslado`, `retencion`, `agregar`) and
  `pushConcepto`, which puts a committed line item into the `cfdi:Conceptos`
  container found by position;
- the certificate number: the X.509 serial number (section 4.1.2.2 of RFC 5280),
  as hex text, cut into two-digit groups whose byte values become character codes.

Layout:

- `outcomes.dfy` (`Outcomes`): `Option`, `Result`, `Outcome` and the error kinds.
  `UndefinedProperty` and `ConstAssignment` are the JavaScript TypeErrors the
  code can raise.
- `attributes.dfy` (`Attributes`): an attribute object as an ordered list of unique
  keys, which is how a JavaScript object orders property names that are not
  array indices (every name this library uses). `Set` is `obj[k] = v`: it replaces the
  value in place or appends the key. `Remove` is `delete obj[k]`.
- `tree.dfy` (`Tree`): `Element(name, attributes, elements)`. Both `attributes` and
  `elements` are optional, because the code leaves them out of some elements and
  pushing into a missing `elements` list throws.
- `serial.dfy` (`SerialNumber`): the `match`/`map`/`join` derivation as functions,
  with its length, content and round-trip lemmas.
- `taxes.dfy` (`Taxes`): the line item and its tax sub-block, and the global
  totals block. Each is built by a method with loops, proved to equal a
  declarative layout. The file also holds the layout as written (see Findings).
- `cfdi.dfy` (`Cfdi`): the classes `CFDI` (fields `attributes`, `elements` of the
  root) and `Concept` (fields `fields`, `traslados`, `retenciones`), the positional
  `pushConcepto` rule, and the certification and seal attributes.

The service calls `xmlSellado` makes become parameters of `XmlSellado`:
`canonicalize` stands for serialization plus the xslt "cadena original"
transform, as a function of the current tree; `pem` is the decrypted key, or
None when decryption failed; `sign` is RSA-SHA256. The certificate is passed to
`Certificar` already parsed: its serial number's hex text, or None when the file
cannot be read or parsed, and its base64 text.

Where the library's intended design and its code differ, the model follows the
code, with one exception: the `const index` defect (see Findings). The classes
commit the intended layout of a line item and of the totals block where the code
throws. The code as written is modelled beside them, by `PushConceptoAsWritten`,
`ConceptoAsWritten` and `TotalsAsWritten`. Everywhere else the model follows the code:

- the code enforces no `Draft → Structured → Certified → Signed` state machine.
  A second `XmlSellado` overwrites `Sello` in place, and `Agregar` may commit the
  same builder twice;
- the child order Emisor, Receptor, Impuestos, Conceptos is not maintained. The
  Conceptos container is created only on a root of exactly two children, and a
  line item goes into whatever child sits at index 2;
- the attribute names are the code's (`NoCertificado`, `Certificado`, `Sello`);
- the concepto's tax sub-block depends on the lists being non-empty, but a global
  `cfdi:Traslados`/`cfdi:Retenciones` group depends on its total being supplied,
  even with an empty list.

## Model

| member | source | states |
|---|---|---|
| Attributes.Set | src/CFDI.js:184-187 | assigning a property keeps keys unique. The keys become the old keys plus k; a new key is appended at the end and every existing key keeps its position |
| Attributes.Lookup | src/CFDI.js:254-255 | reading a property (`_.has(i, k)` and `i[k]`) gives a value iff the key is present |
| Attributes.Remove | src/CFDI.js:37 | deleting a property removes exactly that key, the length drops by one iff the key was there, and without that key the object is unchanged |
| Attributes.RemoveInOrder | src/CFDI.js:37 | deleting a present property takes out exactly the pair with that key; the pairs before and after it keep their order |
| Attributes.LookupSet | src/CFDI.js:184-187 | after `obj[k] = v`, k reads v and every other property reads as before |
| Attributes.LookupRemove | src/CFDI.js:37 | after `delete obj[k]`, k is absent and every other property reads as before |
| Attributes.SetSameValue | src/CFDI.js:346-347 | re-assigning a property its current value changes nothing |
| Attributes.RemoveSet | src/CFDI.js:388 | deleting a just-assigned property gives the object with that property deleted, or the object itself when it lacked it |
| Tree.LeavesAt | src/CFDI.js:63-70 | a group's `forEach` pushes one leaf per entry: entry k appears as leaf k, with that entry's attributes, in call order |
| SerialNumber.Groups | src/CFDI.js:340 | `match(/.{1,2}/g)` gives ceil(n/2) groups; group i is digits 2i and 2i+1, or the lone last digit |
| SerialNumber.JoinGroups | src/CFDI.js:340 | joining the groups gives back the hex text, so nothing is lost or duplicated |
| SerialNumber.ParseHex | src/CFDI.js:342 | `parseInt` of a one- or two-digit group is below 256 |
| SerialNumber.JoinSingletons | src/CFDI.js:341-344 | joining one-character strings gives one character per string, in order |
| SerialNumber.SerialChars | src/CFDI.js:338-344 | the derivation itself; its length and content are stated by SerialCharsSpec, SerialOfBytes and SerialCharsInverse |
| SerialNumber.NoCertificado | src/CFDI.js:338-344 | empty serial text makes `match` return null, so a TypeError; otherwise the result is the derived string |
| SerialNumber.SerialCharsSpec | src/CFDI.js:338-344 | the certificate number has ceil(n/2) characters, and character i's code is group i's hex value (0..255) |
| SerialNumber.SerialOfBytes | src/CFDI.js:338-344 | for a serial written as two hex digits per byte, the certificate number is exactly the serial's bytes as characters |
| SerialNumber.SerialCharsInverse | src/CFDI.js:338-344 | writing the certificate number's codes back as hex restores even-length lower-case serial text |
| Taxes.BuildConcepto | src/CFDI.js:36-93 | builds the committed line item in the intended layout: the fields minus `Impuestos`, and a sub-block holding the Traslados group at index 0 and the Retenciones group after it |
| Taxes.ConceptoLayout | src/CFDI.js:36-45 | a committed line item's attributes are the caller's fields minus `Impuestos`, in their order (the fields themselves when there is no `Impuestos`). It has one child, the `cfdi:Impuestos` sub-block, iff there is a traslado or retencion, and no child otherwise |
| Taxes.TaxGroupsLayout | src/CFDI.js:54-91 | the sub-block's group names are exactly [Traslados iff traslados non-empty] then [Retenciones iff retenciones non-empty], and each group holds its full list |
| Taxes.BuildTotals | src/CFDI.js:243-297 | builds the global totals block in the intended layout, or the TypeError of a supplied total whose list is missing |
| Taxes.TotalsLayout | src/CFDI.js:243-297 | the block fails only for a supplied total without its list. Otherwise each total, independently of the other, is an attribute iff supplied, and its group is present iff supplied (Traslados first), holding its list in order |
| Taxes.ConceptoAsWritten | src/CFDI.js:36-93 | the line item as written; ConceptoConstIndex states when it fails and where it agrees with the intended one |
| Taxes.TotalsAsWritten | src/CFDI.js:243-297 | the totals block as written; TotalsConstIndex states when it fails and where it agrees with the intended one |
| Taxes.ConceptoConstIndex | src/CFDI.js:46-92 | the written line-item build fails iff there are traslados, where the intended one has a Traslados group holding them; otherwise the two agree |
| Taxes.TotalsConstIndex | src/CFDI.js:252-296 | the written `impuestos` fails whenever TotalImpuestosTrasladados is supplied, even on inputs the intended one accepts; without that total the two agree |
| Cfdi.RootAttributesSpec | src/CFDI.js:181-188 | the root holds the caller's fields, in their order, plus four fixed attributes: `xmlns:xsi`, `xsi:schemaLocation`, `xmlns:cfdi` and `Version = "3.3"`, which override caller keys of the same name |
| Cfdi.CertifiedAttributesSpec | src/CFDI.js:346-347 | certification sets exactly NoCertificado and Certificado and leaves other attributes and positions alone. Doing it twice with the same certificate gives identical attributes |
| Cfdi.SelloCommit | src/CFDI.js:388 | the seal adds only Sello. Taking Sello out again gives the attributes without it, which on a first seal are the attributes that were canonicalized and signed |
| Cfdi.PushConcepto | src/CFDI.js:24-96 | pushConcepto with the intended line-item layout; PushConceptoLayout states the positional rule and the failure cases |
| Cfdi.PushConceptoAsWritten | src/CFDI.js:24-96 | pushConcepto as written; PushConceptoConstIndex states that it never commits a line item with traslados |
| Cfdi.PushConceptoLayout | src/CFDI.js:26-95 | the container is created only on a root of exactly two children, and the line item is appended last to child 2. Every other child is unchanged. With no child 2, or a child 2 without `elements`, it fails and changes nothing |
| Cfdi.PushConceptoConstIndex | src/CFDI.js:26-95 | without traslados the written pushConcepto is the intended one. With traslados it never commits, and on a two-child root it leaves an empty Conceptos container behind |
| Cfdi.CFDI.constructor | src/CFDI.js:181-188 | the root attributes are the fixed attributes assigned over the caller's fields, and the root has no children |
| Cfdi.CFDI.CfdiRelacionados | src/CFDI.js:195-197 | changes nothing |
| Cfdi.CFDI.Emisor | src/CFDI.js:205-212 | appends exactly one `cfdi:Emisor` leaf with the given attributes at the end. Earlier children and the root attributes are unchanged |
| Cfdi.CFDI.Receptor | src/CFDI.js:220-227 | appends exactly one `cfdi:Receptor` leaf with the given attributes at the end. Earlier children and the root attributes are unchanged |
| Cfdi.CFDI.Impuestos | src/CFDI.js:243-301 | appends exactly one totals block (intended layout), even when no total is supplied, unless a list is missing; then it fails and appends nothing |
| Cfdi.CFDI.Concepto | src/CFDI.js:328-330 | returns a fresh builder over the given fields with both tax lists empty |
| Cfdi.CFDI.Certificar | src/CFDI.js:335-349 | sets the derived NoCertificado and the base64 Certificado and changes nothing else. An unreadable certificate or empty serial fails and changes nothing |
| Cfdi.CFDI.XmlSellado | src/CFDI.js:370-394 | signs the canonical form of the current tree and commits only Sello. A failed canonicalization, key decryption or signing leaves the tree unchanged |
| Cfdi.Concept.constructor | src/CFDI.js:124-130 | a new builder keeps the fields, and both tax lists start empty |
| Cfdi.Concept.Traslado | src/CFDI.js:140-143 | appends to the traslados list only, preserving call order |
| Cfdi.Concept.Retencion | src/CFDI.js:153-156 | appends to the retenciones list only, preserving call order |
| Cfdi.Concept.Agregar | src/CFDI.js:158-160 | commits the line item by the positional rule, with the intended layout. The root attributes are unchanged |

## Left out

- The root element's name and the XML declaration come from `utils/base`, which is not part of this model. The root is assumed to start with an empty child list.
- The certificate file read, the PEM wrapping and the parsing by node-forge are not modelled (they are file I/O and a foreign library). `Certificar` receives the serial's hex text, or None when reading or parsing fails, and the base64 text. The hex text is assumed to contain hex digits only, so `parseInt` on other characters is not modelled. `HexOfBytes` assumes two lower-case digits per byte.
- Serialization by xml-js (`xml()` and the two `json2xml` calls in `xmlSellado`) and the xslt transform producing the cadena original are external. They appear only as the `canonicalize` parameter, and the XML text returned is not modelled.
- PKCS#8 key decryption through openssl (section 6 of RFC 5208) and RSA-SHA256 signing (RSASSA-PKCS1-v1_5, section 8.2 of RFC 8017) are foreign crypto. They are the `pem` and `sign` parameters, and `pem.trim()` belongs to `sign`.
- Temporary directory and file management and the platform tool paths are I/O and globals.
- Promises are not modelled: `XmlSellado` returns its outcome directly. On a failed key decryption the code calls an undefined `reject`, which rejects the promise with a ReferenceError; the model reports `KeyDecryptionFailed`.
- Aliasing is not modelled. The tree keeps references to the caller's objects, and the builder adds `Impuestos` to the caller's own line item object; the model holds copies.
- Attribute values are strings. Other JSON values, and what `JSON.stringify` drops, are not modelled. The constant `type: 'element'` of every node is omitted.
- The `return this` that makes the methods chainable is not modelled.
- Cfdi.Concept.Agregar: commits the intended line-item layout, including a line item with traslados. The code throws at `index++` instead (src/CFDI.js:72) and commits nothing. The written behaviour is `PushConceptoAsWritten` (with `ConceptoAsWritten`), and `PushConceptoConstIndex` relates the two.
- Cfdi.CFDI.Impuestos: appends the intended totals block, including when TotalImpuestosTrasladados is supplied. The code throws at `index++` instead (src/CFDI.js:273) and appends nothing. The written behaviour is `TotalsAsWritten`, and `TotalsConstIndex` relates the two.
- Cfdi.Concept.constructor: the lists live in separate fields instead of under the caller object's `Impuestos` property. A caller-supplied `Impuestos` can therefore only appear as a string field, which the commit drops.

## Findings

| source | as written | input that shows it | evidently intended | confidence | as-written member | corrected member |
|---|---|---|---|---|---|---|
| src/CFDI.js:46-72 | `index` is a `const`, and `index++` after the Traslados loop throws a TypeError. The line item is never pushed, yet a Conceptos container created just before stays on the root | the root holds `[cfdi:Emisor, cfdi:Receptor]` and a builder with one traslado calls `agregar` | the line item is committed, with Traslados at index 0 and Retenciones at index 1 of its tax sub-block | high, not executed | Cfdi.PushConceptoConstIndex | Taxes.BuildConcepto |
| src/CFDI.js:252-273 | the same `const index` in `impuestos`: whenever TotalImpuestosTrasladados is supplied, `index++` throws and no totals block is appended | `impuestos` with TotalImpuestosTrasladados "16.00" and one traslado | the totals block is appended, with Traslados at index 0 and Retenciones at index 1 | high, not executed | Taxes.TotalsConstIndex | Taxes.BuildTotals |
