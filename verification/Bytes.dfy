/** Byte strings: percent escapes and UTF-8. */
module Bytes {
  type Byte = b: int | 0 <= b < 256

  const PERCENT: Byte := 37
  const PLUS: Byte := 43
  const SPACE: Byte := 32
  const AMPERSAND: Byte := 38
  const EQUALS: Byte := 61
  const COMMA: Byte := 44
  const MINUS: Byte := 45
  const DOT: Byte := 46

  /** The characters that the formats give a meaning to. */
  lemma Characters()
    ensures [PERCENT, PLUS, SPACE, AMPERSAND, EQUALS, COMMA, MINUS, DOT] == BytesOf("%+ &=,-.")
  {
  }

  predicate Ascii(s: string) {
    forall k :: 0 <= k < |s| ==> s[k] as int < 128
  }

  /** The bytes of an ASCII text. */
  function BytesOf(s: string): (b: seq<Byte>)
    requires Ascii(s)
    ensures |b| == |s| && forall k :: 0 <= k < |s| ==> b[k] == s[k] as int
  {
    seq(|s|, k requires 0 <= k < |s| => s[k] as int)
  }

  predicate Alphanumeric(b: Byte) {
    48 <= b <= 57 || 65 <= b <= 90 || 97 <= b <= 122
  }

  predicate Hex(b: Byte) {
    48 <= b <= 57 || 65 <= b <= 70 || 97 <= b <= 102
  }

  function HexValue(b: Byte): (v: nat)
    requires Hex(b)
    ensures v < 16
  {
    if b <= 57 then b - 48 else if b <= 70 then b - 55 else b - 87
  }

  function UpperHex(v: nat): (b: Byte)
    requires v < 16
    ensures Hex(b) && HexValue(b) == v
  {
    if v < 10 then 48 + v else 55 + v
  }

  function Escape(b: Byte): seq<Byte> {
    [PERCENT, UpperHex(b / 16), UpperHex(b % 16)]
  }

  predicate Escaped(s: seq<Byte>) {
    |s| >= 3 && s[0] == PERCENT && Hex(s[1]) && Hex(s[2])
  }

  /** Percent escapes are replaced; a percent sign that starts none stays. */
  function PercentDecode(s: seq<Byte>): seq<Byte> {
    if s == [] then []
    else if Escaped(s) then [16 * HexValue(s[1]) + HexValue(s[2])] + PercentDecode(s[3..])
    else [s[0]] + PercentDecode(s[1..])
  }

  function Spaced(s: seq<Byte>): seq<Byte> {
    if s == [] then [] else [if s[0] == PLUS then SPACE else s[0]] + Spaced(s[1..])
  }

  /** Form decoding: plus signs are spaces, then percent escapes. */
  function FormDecode(s: seq<Byte>): seq<Byte> {
    PercentDecode(Spaced(s))
  }

  lemma {:induction false} SpacedParts(s: seq<Byte>, k: nat)
    requires k <= |s|
    ensures |Spaced(s)| == |s| && Spaced(s)[k..] == Spaced(s[k..])
    ensures k < |s| ==> Spaced(s)[k] == if s[k] == PLUS then SPACE else s[k]
  {
    if s != [] {
      if k > 0 {
        SpacedParts(s[1..], k - 1);
        assert s[1..][k - 1..] == s[k..];
      } else {
        SpacedParts(s[1..], 0);
        assert s[0..] == s;
      }
    }
  }

  /** Form decoding, one unit at a time. */
  lemma FormDecodeStep(s: seq<Byte>)
    requires s != []
    ensures FormDecode(s) ==
      if Escaped(s) then [16 * HexValue(s[1]) + HexValue(s[2])] + FormDecode(s[3..])
      else [if s[0] == PLUS then SPACE else s[0]] + FormDecode(s[1..])
  {
    SpacedParts(s, 0);
    SpacedParts(s, 1);
    if |s| >= 3 {
      SpacedParts(s, 2);
      SpacedParts(s, 3);
    }
  }

  lemma FormDecodeEscape(b: Byte, rest: seq<Byte>)
    ensures FormDecode(Escape(b) + rest) == [b] + FormDecode(rest)
  {
    FormDecodeStep(Escape(b) + rest);
    assert (Escape(b) + rest)[3..] == rest;
  }

  // ----- UTF-8 -----

  predicate Continuation(s: seq<Byte>, k: nat) {
    k < |s| && 0x80 <= s[k] <= 0xBF
  }

  /** The length of the well-formed sequence at the start; 0 if there is none
      (Table 3-7 of the Unicode Standard). */
  function Utf8Unit(s: seq<Byte>): nat {
    if s == [] then 0
    else if s[0] <= 0x7F then 1
    else if 0xC2 <= s[0] <= 0xDF && Continuation(s, 1) then 2
    else if s[0] == 0xE0 && Continuation(s, 1) && s[1] >= 0xA0 && Continuation(s, 2) then 3
    else if (0xE1 <= s[0] <= 0xEC || 0xEE <= s[0] <= 0xEF) && Continuation(s, 1) && Continuation(s, 2) then 3
    else if s[0] == 0xED && Continuation(s, 1) && s[1] <= 0x9F && Continuation(s, 2) then 3
    else if s[0] == 0xF0 && Continuation(s, 1) && s[1] >= 0x90 && Continuation(s, 2) && Continuation(s, 3) then 4
    else if 0xF1 <= s[0] <= 0xF3 && Continuation(s, 1) && Continuation(s, 2) && Continuation(s, 3) then 4
    else if s[0] == 0xF4 && Continuation(s, 1) && s[1] <= 0x8F && Continuation(s, 2) && Continuation(s, 3) then 4
    else 0
  }

  predicate Utf8(s: seq<Byte>) {
    s == [] || (0 < Utf8Unit(s) <= |s| && Utf8(s[Utf8Unit(s)..]))
  }

  predicate CodePoint(c: nat) {
    c < 0xD800 || 0xE000 <= c < 0x11_0000
  }

  /** The bytes of one character. */
  function Utf8Of(c: nat): seq<Byte>
    requires CodePoint(c)
  {
    if c < 0x80 then [c]
    else if c < 0x800 then [0xC0 + c / 64, 0x80 + c % 64]
    else if c < 0x1_0000 then [0xE0 + c / 4096, 0x80 + c / 64 % 64, 0x80 + c % 64]
    else [0xF0 + c / 26_2144, 0x80 + c / 4096 % 64, 0x80 + c / 64 % 64, 0x80 + c % 64]
  }

  function Utf8Text(text: seq<nat>): seq<Byte>
    requires forall k :: 0 <= k < |text| ==> CodePoint(text[k])
  {
    if text == [] then [] else Utf8Of(text[0]) + Utf8Text(text[1..])
  }

  lemma TwoBytes(c: nat)
    requires 0x80 <= c < 0x800
    ensures 2 <= c / 64 < 32
  {
  }

  lemma ThreeBytes(c: nat)
    requires 0x800 <= c < 0x1_0000
    ensures c / 4096 < 16 && (c / 4096 == 0 ==> c / 64 % 64 >= 32)
    ensures c / 4096 == 13 ==> (c / 64 % 64 < 32 <==> c < 0xE000 && c < 0xD800)
  {
    assert c / 64 == 64 * (c / 4096) + c / 64 % 64;
  }

  lemma FourBytes(c: nat)
    requires 0x1_0000 <= c < 0x11_0000
    ensures c / 26_2144 <= 4 && (c / 26_2144 == 0 ==> c / 4096 % 64 >= 16) && (c / 26_2144 == 4 ==> c / 4096 % 64 < 16)
  {
    assert c / 4096 == 64 * (c / 26_2144) + c / 4096 % 64;
  }

  /** The bytes of a character are one well-formed sequence ... */
  lemma UnitOfCodePoint(c: nat, rest: seq<Byte>)
    requires CodePoint(c)
    ensures Utf8Unit(Utf8Of(c) + rest) == |Utf8Of(c)|
  {
    var s := Utf8Of(c) + rest;
    assert forall k :: 0 <= k < |Utf8Of(c)| ==> s[k] == Utf8Of(c)[k];
    if c < 0x80 {
    } else if c < 0x800 {
      TwoBytes(c);
    } else if c < 0x1_0000 {
      ThreeBytes(c);
    } else {
      FourBytes(c);
    }
  }

  lemma Glue(hi: nat, lo: nat)
    requires lo < 64
    ensures (64 * hi + lo) / 64 == hi && (64 * hi + lo) % 64 == lo
  {
  }

  /** ... and every well-formed sequence is one of a character. */
  lemma CodePointOfUnit(s: seq<Byte>) returns (c: nat)
    requires Utf8Unit(s) > 0
    ensures Utf8Unit(s) <= |s| && CodePoint(c) && Utf8Of(c) == s[..Utf8Unit(s)]
  {
    match Utf8Unit(s)
    case 1 =>
      c := s[0];
      assert s[..1] == [s[0]];
    case 2 =>
      var x: nat, y: nat := s[0] - 0xC0, s[1] - 0x80;
      c := 64 * x + y;
      Glue(x, y);
      assert s[..2] == [s[0], s[1]];
    case 3 =>
      c := ThreeOf(s[0] - 0xE0, s[1] - 0x80, s[2] - 0x80);
      assert s[..3] == [s[0], s[1], s[2]];
    case 4 =>
      c := FourOf(s[0] - 0xF0, s[1] - 0x80, s[2] - 0x80, s[3] - 0x80);
      assert s[..4] == [s[0], s[1], s[2], s[3]];
  }

  lemma ThreeOf(x: nat, y: nat, z: nat) returns (c: nat)
    requires x < 16 && y < 64 && z < 64 && (x == 0 ==> y >= 32) && (x == 13 ==> y < 32)
    ensures CodePoint(c) && Utf8Of(c) == [0xE0 + x, 0x80 + y, 0x80 + z]
  {
    c := 64 * (64 * x + y) + z;
    Glue(64 * x + y, z);
    Glue(x, y);
    assert c / 4096 == x;
  }

  lemma FourOf(w: nat, x: nat, y: nat, z: nat) returns (c: nat)
    requires w <= 4 && x < 64 && y < 64 && z < 64 && (w == 0 ==> x >= 16) && (w == 4 ==> x < 16)
    ensures CodePoint(c) && Utf8Of(c) == [0xF0 + w, 0x80 + x, 0x80 + y, 0x80 + z]
  {
    c := 64 * (64 * (64 * w + x) + y) + z;
    Glue(64 * (64 * w + x) + y, z);
    Glue(64 * w + x, y);
    Glue(w, x);
    assert c / 4096 == 64 * w + x;
    assert c / 26_2144 == w;
  }

  lemma {:induction false} TextIsUtf8(text: seq<nat>)
    requires forall k :: 0 <= k < |text| ==> CodePoint(text[k])
    ensures Utf8(Utf8Text(text))
  {
    if text != [] {
      TextIsUtf8(text[1..]);
      UnitOfCodePoint(text[0], Utf8Text(text[1..]));
      assert Utf8Text(text)[|Utf8Of(text[0])|..] == Utf8Text(text[1..]);
    }
  }

  lemma TextStep(c: nat, rest: seq<nat>)
    requires CodePoint(c) && forall k :: 0 <= k < |rest| ==> CodePoint(rest[k])
    ensures forall k :: 0 <= k < |[c] + rest| ==> CodePoint(([c] + rest)[k])
    ensures Utf8Text([c] + rest) == Utf8Of(c) + Utf8Text(rest)
  {
    assert ([c] + rest)[1..] == rest;
  }

  lemma FirstUnit(s: seq<Byte>) returns (c: nat)
    requires s != [] && Utf8(s)
    ensures 0 < Utf8Unit(s) <= |s| && CodePoint(c) && s == Utf8Of(c) + s[Utf8Unit(s)..] && Utf8(s[Utf8Unit(s)..])
  {
    c := CodePointOfUnit(s);
    assert s == s[..Utf8Unit(s)] + s[Utf8Unit(s)..];
  }

  /** A byte string is well-formed exactly if it encodes some characters. */
  lemma {:induction false} Utf8IsText(s: seq<Byte>) returns (text: seq<nat>)
    requires Utf8(s)
    ensures (forall k :: 0 <= k < |text| ==> CodePoint(text[k])) && Utf8Text(text) == s
    decreases |s|
  {
    text := [];
    if s != [] {
      var c := FirstUnit(s);
      var rest := Utf8IsText(s[Utf8Unit(s)..]);
      text := [c] + rest;
      TextStep(c, rest);
    }
  }

  // ----- Numerals -----

  predicate Digit(b: Byte) {
    48 <= b <= 57
  }

  predicate AllDigits(s: seq<Byte>) {
    forall k :: 0 <= k < |s| ==> Digit(s[k])
  }

  function Digits(n: nat): (s: seq<Byte>)
    ensures s != [] && AllDigits(s)
  {
    (if n < 10 then [] else Digits(n / 10)) + [48 + n % 10]
  }

  function Number(s: seq<Byte>): nat
    requires AllDigits(s)
  {
    if s == [] then 0 else 10 * Number(s[..|s| - 1]) + (s[|s| - 1] - 48)
  }

  lemma NumberLast(s: seq<Byte>, d: Byte)
    requires AllDigits(s) && Digit(d)
    ensures AllDigits(s + [d]) && Number(s + [d]) == 10 * Number(s) + (d - 48)
  {
    assert (s + [d])[..|s|] == s;
  }

  lemma {:induction false} NumberDigits(n: nat)
    ensures Number(Digits(n)) == n
  {
    var q, d := n / 10, 48 + n % 10;
    if n < 10 {
      assert Digits(n) == [] + [d];
      NumberLast([], d);
    } else {
      assert Digits(n) == Digits(q) + [d];
      NumberDigits(q);
      NumberLast(Digits(q), d);
    }
  }
}
