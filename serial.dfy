/** The certificate number written to the invoice's `NoCertificado` attribute:
    the hex text of the X.509 serial number (section 4.1.2.2 of RFC 5280) cut
    into groups of two digits, each group read as a byte and the bytes taken as
    character codes. */
module SerialNumber {
  import opened Outcomes

  predicate IsHexDigit(c: char)
  {
    '0' <= c <= '9' || 'a' <= c <= 'f' || 'A' <= c <= 'F'
  }

  predicate IsHex(s: string)
  {
    forall i :: 0 <= i < |s| ==> IsHexDigit(s[i])
  }

  /** Text made of hex digits only, the form in which the certificate parser
      hands over the serial number. */
  type Hex = s: string | IsHex(s)

  type Byte = x: int | 0 <= x < 256

  function DigitValue(c: char): (d: nat)
    requires IsHexDigit(c)
    ensures d < 16
  {
    if '0' <= c <= '9' then c as int - '0' as int
    else if 'a' <= c <= 'f' then c as int - 'a' as int + 10
    else c as int - 'A' as int + 10
  }

  /** The lower-case digit for d. */
  function HexDigit(d: nat): (c: char)
    requires d < 16
    ensures IsHexDigit(c) && DigitValue(c) == d
  {
    if d < 10 then ('0' as int + d) as char else ('a' as int + d - 10) as char
  }

  function Min(a: int, b: int): int
  {
    if a <= b then a else b
  }

  /** Group i of hex text: digits 2i and 2i+1, or digit 2i alone at the end of odd-length text. */
  function GroupAt(s: string, i: nat): (g: string)
    requires 2 * i < |s|
    ensures 1 <= |g| <= 2 && (IsHex(s) ==> IsHex(g))
  {
    s[2 * i .. Min(2 * i + 2, |s|)]
  }

  /** `s.match(/.{1,2}/g)` on non-empty hex text: consecutive groups of two
      digits, the last one of a single digit when |s| is odd. */
  function Groups(s: string): (g: seq<string>)
    ensures |g| == (|s| + 1) / 2
    ensures forall i :: 0 <= i < |g| ==> g[i] == GroupAt(s, i)
    decreases |s|
  {
    if |s| == 0 then []
    else if |s| <= 2 then [s]
    else [s[..2]] + Groups(s[2..])
  }

  /** `Array.prototype.join('')`. */
  function Join(parts: seq<string>): string
  {
    if |parts| == 0 then "" else parts[0] + Join(parts[1..])
  }

  /** `parseInt(v, 16)` on a group of one or two hex digits. */
  function ParseHex(v: string): (n: nat)
    requires 1 <= |v| <= 2 && IsHex(v)
    ensures n < 256
  {
    if |v| == 1 then DigitValue(v[0]) else 16 * DigitValue(v[0]) + DigitValue(v[1])
  }

  /** `String.fromCharCode(n)`: the one-character string with code n. */
  function FromCharCode(n: nat): string
    requires n < 256
  {
    [n as char]
  }

  /** The derivation itself: cut the hex text into groups, read each group as
      a byte, turn each byte into the one-character string with that code, and
      concatenate the results. */
  function SerialChars(hex: Hex): string
  {
    var groups := Groups(hex);
    Join(seq(|groups|, i requires 0 <= i < |groups| => FromCharCode(ParseHex(groups[i]))))
  }

  /** The certificate number, or the TypeError raised when the serial text is
      empty (`match` then returns null, and `null.map` throws). */
  function NoCertificado(hex: Hex): (r: Result<string>)
    ensures r.Err? <==> |hex| == 0
    ensures r.Ok? ==> r.value == SerialChars(hex)
  {
    if |hex| == 0 then Err(UndefinedProperty) else Ok(SerialChars(hex))
  }

  /** Cutting into groups and joining them again gives back the text. */
  lemma {:induction false} JoinGroups(s: string)
    ensures Join(Groups(s)) == s
    decreases |s|
  {
    if |s| > 2 {
      JoinGroups(s[2..]);
      assert s == s[..2] + s[2..];
    }
  }

  /** Joining one-character strings gives the string of those characters. */
  lemma {:induction false} JoinSingletons(parts: seq<string>)
    requires forall i :: 0 <= i < |parts| ==> |parts[i]| == 1
    ensures |Join(parts)| == |parts|
    ensures forall i :: 0 <= i < |parts| ==> Join(parts)[i] == parts[i][0]
  {
    if |parts| > 0 {
      JoinSingletons(parts[1..]);
    }
  }

  /** The certificate number has one character per group of the serial's hex
      text, ceil(n/2) of them, and character i has the byte value of group i
      as its code, so every code lies in 0..255. */
  lemma SerialCharsSpec(hex: Hex)
    ensures |SerialChars(hex)| == (|hex| + 1) / 2
    ensures forall i :: 0 <= i < |SerialChars(hex)| ==> SerialChars(hex)[i] as int == ParseHex(GroupAt(hex, i)) < 256
  {
    var groups := Groups(hex);
    var parts := seq(|groups|, i requires 0 <= i < |groups| => FromCharCode(ParseHex(groups[i])));
    JoinSingletons(parts);
    var r := SerialChars(hex);
    assert r == Join(parts);
    forall i | 0 <= i < |r|
      ensures r[i] as int == ParseHex(GroupAt(hex, i))
    {
      assert r[i] == parts[i][0];
      assert parts[i] == FromCharCode(ParseHex(groups[i]));
    }
  }

  /** The hex text of a serial number's bytes, two lower-case digits per byte. */
  function HexOfBytes(b: seq<Byte>): (h: Hex)
    ensures |h| == 2 * |b|
    ensures forall i :: 0 <= i < |b| ==> h[2 * i] == HexDigit(b[i] / 16) && h[2 * i + 1] == HexDigit(b[i] % 16)
  {
    if |b| == 0 then "" else [HexDigit(b[0] / 16), HexDigit(b[0] % 16)] + HexOfBytes(b[1..])
  }

  /** The byte codes of a string whose characters all lie in 0..255. */
  function Codes(s: string): (b: seq<Byte>)
    requires forall i :: 0 <= i < |s| ==> s[i] as int < 256
    ensures |b| == |s| && forall i :: 0 <= i < |s| ==> b[i] == s[i] as int
  {
    seq(|s|, i requires 0 <= i < |s| => s[i] as int)
  }

  /** The certificate number is the serial number's raw bytes read as
      characters, neither its decimal nor its hex text. */
  lemma SerialOfBytes(b: seq<Byte>)
    ensures SerialChars(HexOfBytes(b)) == seq(|b|, i requires 0 <= i < |b| => b[i] as char)
  {
    var s := SerialChars(HexOfBytes(b));
    SerialOfBytesLength(b);
    forall i | 0 <= i < |b|
      ensures s[i] == b[i] as char
    {
      SerialOfBytesAt(b, i);
    }
    AsCharsPointwise(s, b);
  }

  /** A string is a byte sequence read as characters when it agrees with it
      at every position. */
  lemma AsCharsPointwise(s: string, b: seq<Byte>)
    requires |s| == |b|
    requires forall i :: 0 <= i < |b| ==> s[i] == b[i] as char
    ensures s == seq(|b|, i requires 0 <= i < |b| => b[i] as char)
  {
  }

  lemma SerialOfBytesLength(b: seq<Byte>)
    ensures |SerialChars(HexOfBytes(b))| == |b|
  {
    SerialCharsSpec(HexOfBytes(b));
  }

  lemma SerialOfBytesAt(b: seq<Byte>, i: nat)
    requires i < |b|
    ensures |SerialChars(HexOfBytes(b))| == |b|
    ensures SerialChars(HexOfBytes(b))[i] == b[i] as char
  {
    var hex := HexOfBytes(b);
    SerialCharsSpec(hex);
    ByteDigits(b[i]);
    assert GroupAt(hex, i) == [HexDigit(b[i] / 16), HexDigit(b[i] % 16)];
  }

  /** The two digits written for a byte read back as that byte. */
  lemma ByteDigits(x: Byte)
    ensures ParseHex([HexDigit(x / 16), HexDigit(x % 16)]) == x
  {
  }

  predicate IsLowerHex(s: string)
  {
    forall i :: 0 <= i < |s| ==> '0' <= s[i] <= '9' || 'a' <= s[i] <= 'f'
  }

  /** Conversely, writing the codes of the certificate number back as hex gives
      the serial's lower-case hex text of even length: nothing is lost. */
  lemma SerialCharsInverse(hex: Hex)
    requires IsLowerHex(hex) && |hex| % 2 == 0
    ensures forall i :: 0 <= i < |SerialChars(hex)| ==> SerialChars(hex)[i] as int < 256
    ensures HexOfBytes(Codes(SerialChars(hex))) == hex
  {
    SerialCodesBounded(hex);
    var back := HexOfBytes(Codes(SerialChars(hex)));
    assert |SerialChars(hex)| == |hex| / 2 by {
      SerialCharsSpec(hex);
    }
    forall j | 0 <= j < |hex|
      ensures back[j] == hex[j]
    {
      var i := j / 2;
      assert j == 2 * i || j == 2 * i + 1;
      SerialCharsInverseAt(hex, i);
    }
  }

  lemma SerialCharsInverseAt(hex: Hex, i: nat)
    requires IsLowerHex(hex) && |hex| % 2 == 0 && 2 * i < |hex|
    ensures forall k :: 0 <= k < |SerialChars(hex)| ==> SerialChars(hex)[k] as int < 256
    ensures |HexOfBytes(Codes(SerialChars(hex)))| == |hex|
    ensures HexOfBytes(Codes(SerialChars(hex)))[2 * i] == hex[2 * i]
    ensures HexOfBytes(Codes(SerialChars(hex)))[2 * i + 1] == hex[2 * i + 1]
  {
    SerialCodeAt(hex, i);
    var b := Codes(SerialChars(hex));
    var c0, c1 := hex[2 * i], hex[2 * i + 1];
    DigitsOfByte(DigitValue(c0), DigitValue(c1));
    LowerDigitRoundTrip(c0);
    LowerDigitRoundTrip(c1);
    assert HexOfBytes(b)[2 * i] == HexDigit(b[i] / 16);
    assert HexOfBytes(b)[2 * i + 1] == HexDigit(b[i] % 16);
  }

  lemma SerialCodesBounded(hex: Hex)
    ensures forall k :: 0 <= k < |SerialChars(hex)| ==> SerialChars(hex)[k] as int < 256
  {
    SerialCharsSpec(hex);
  }

  /** Character i of the certificate number of even-length text, as a byte. */
  lemma SerialCodeAt(hex: Hex, i: nat)
    requires |hex| % 2 == 0 && 2 * i < |hex|
    ensures forall k :: 0 <= k < |SerialChars(hex)| ==> SerialChars(hex)[k] as int < 256
    ensures |SerialChars(hex)| == |hex| / 2
    ensures Codes(SerialChars(hex))[i] == 16 * DigitValue(hex[2 * i]) + DigitValue(hex[2 * i + 1])
  {
    SerialCharsSpec(hex);
    assert 2 * i + 2 <= |hex|;
    assert GroupAt(hex, i) == [hex[2 * i], hex[2 * i + 1]];
  }

  lemma DigitsOfByte(hi: nat, lo: nat)
    requires hi < 16 && lo < 16
    ensures (16 * hi + lo) / 16 == hi && (16 * hi + lo) % 16 == lo
  {
  }

  lemma LowerDigitRoundTrip(c: char)
    requires '0' <= c <= '9' || 'a' <= c <= 'f'
    ensures HexDigit(DigitValue(c)) == c
  {
  }
}
