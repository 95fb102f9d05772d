/** application/x-www-form-urlencoded, sections 5.1 and 5.2 of the WHATWG URL Standard. */
module WebForm {
  import opened Bytes
  import opened Pairs
  import opened Splitting

  // ----- Serializing -----

  /** Letters, digits and  * - . _ */
  predicate Unchanged(b: Byte) {
    Alphanumeric(b) || b == 42 || b == 45 || b == 46 || b == 95
  }

  function SerializedByte(b: Byte): seq<Byte> {
    if Unchanged(b) then [b] else if b == SPACE then [PLUS] else Escape(b)
  }

  function Serialized(s: seq<Byte>): seq<Byte> {
    if s == [] then [] else SerializedByte(s[0]) + Serialized(s[1..])
  }

  function SerializedPair(p: Pair): Pair {
    (Serialized(p.0), Serialized(p.1))
  }

  function SerializedPairs(pairs: seq<Pair>): seq<Pair> {
    if pairs == [] then []
    else SerializedPairs(pairs[..|pairs| - 1]) + [SerializedPair(pairs[|pairs| - 1])]
  }

  /** Letters, digits and * - . _ stay as they are, a space becomes a plus sign, and every
      other byte an upper-case escape. */
  lemma SerializerAlphabet(b: Byte)
    ensures SerializedByte(b) ==
      if Alphanumeric(b) || b as char in "*-._" then [b]
      else if b as char == ' ' then BytesOf("+")
      else [PERCENT, UpperHex(b / 16), UpperHex(b % 16)]
  {
    assert BytesOf("+") == [PLUS];
  }

  lemma {:induction false} SerializedDecodes(s: seq<Byte>)
    ensures FormDecode(Serialized(s)) == s
  {
    if s != [] {
      SerializedDecodes(s[1..]);
      if Unchanged(s[0]) || s[0] == SPACE {
        FormDecodeStep(Serialized(s));
        assert Serialized(s)[1..] == Serialized(s[1..]);
      } else {
        FormDecodeEscape(s[0], Serialized(s[1..]));
      }
    }
  }

  lemma {:induction false} SerializedIsSeparable(s: seq<Byte>)
    ensures AMPERSAND !in Serialized(s) && EQUALS !in Serialized(s)
  {
    if s != [] {
      SerializedIsSeparable(s[1..]);
      assert AMPERSAND !in SerializedByte(s[0]) && EQUALS !in SerializedByte(s[0]);
    }
  }

  // ----- Parsing -----

  /** Decoding replaces ill-formed UTF-8 and nothing else. */
  ghost predicate Faithful(lossy: seq<Byte> -> seq<Byte>) {
    forall s :: Utf8(s) ==> lossy(s) == s
  }

  function Decode(p: Pair, lossy: seq<Byte> -> seq<Byte>): Pair {
    (lossy(FormDecode(p.0)), lossy(FormDecode(p.1)))
  }

  function DecodeAll(pairs: seq<Pair>, lossy: seq<Byte> -> seq<Byte>): seq<Pair> {
    seq(|pairs|, k requires 0 <= k < |pairs| => Decode(pairs[k], lossy))
  }

  function Parsed(s: seq<Byte>, lossy: seq<Byte> -> seq<Byte>): seq<Pair> {
    DecodeAll(Read(s), lossy)
  }

  lemma ParsedConcat(a: seq<Byte>, b: seq<Byte>, lossy: seq<Byte> -> seq<Byte>)
    ensures Parsed(a + [AMPERSAND] + b, lossy) == Parsed(a, lossy) + Parsed(b, lossy)
  {
    ReadConcat(a, b);
  }

  predicate Utf8Pairs(pairs: seq<Pair>) {
    forall p :: p in pairs ==> Utf8(p.0) && Utf8(p.1)
  }

  lemma {:induction false} SerializedPairsDecode(pairs: seq<Pair>, lossy: seq<Byte> -> seq<Byte>)
    requires Faithful(lossy) && Utf8Pairs(pairs)
    ensures DecodeAll(SerializedPairs(pairs), lossy) == pairs
    ensures forall p :: p in SerializedPairs(pairs) ==> Separable(p)
  {
    if pairs != [] {
      var init, last := pairs[..|pairs| - 1], pairs[|pairs| - 1];
      SerializedPairsDecode(init, lossy);
      SerializedDecodes(last.0);
      SerializedDecodes(last.1);
      SerializedIsSeparable(last.0);
      SerializedIsSeparable(last.1);
      assert last in pairs && Decode(SerializedPair(last), lossy) == last;
      assert init + [last] == pairs;
      assert DecodeAll(SerializedPairs(pairs), lossy) ==
        DecodeAll(SerializedPairs(init), lossy) + [Decode(SerializedPair(last), lossy)];
    }
  }

  /** Parsing undoes serializing. */
  lemma ParsedSerialized(pairs: seq<Pair>, lossy: seq<Byte> -> seq<Byte>)
    requires Faithful(lossy) && Utf8Pairs(pairs)
    ensures Parsed(Written(SerializedPairs(pairs)), lossy) == pairs
  {
    SerializedPairsDecode(pairs, lossy);
    ReadWritten(SerializedPairs(pairs));
  }

  // ----- Cutting UTF-8 -----

  lemma UnitOfPrefix(a: seq<Byte>, c: Byte, b: seq<Byte>)
    requires a != [] && c <= 0x7F && Utf8Unit(a + [c] + b) > 0
    ensures Utf8Unit(a + [c] + b) == Utf8Unit(a) <= |a|
  {
    var s := a + [c] + b;
    assert s[|a|] == c && forall k :: 0 <= k < |a| ==> s[k] == a[k];
    assert !Continuation(s, |a|);
  }

  /** A well-formed text cut at an ASCII character leaves two well-formed texts. */
  lemma {:induction false} Utf8Cut(a: seq<Byte>, c: Byte, b: seq<Byte>)
    requires c <= 0x7F && Utf8(a + [c] + b)
    ensures Utf8(a) && Utf8(b)
    decreases |a|
  {
    var s := a + [c] + b;
    if a == [] {
      assert s == [c] + b && s[1..] == b;
    } else {
      UnitOfPrefix(a, c, b);
      var u := Utf8Unit(a);
      assert s[u..] == a[u..] + [c] + b;
      Utf8Cut(a[u..], c, b);
    }
  }

  predicate Swapped(s: seq<Byte>, t: seq<Byte>) {
    |s| == |t| && forall k :: 0 <= k < |s| ==> s[k] == t[k] || (s[k] <= 0x7F && t[k] <= 0x7F)
  }

  /** Well-formedness does not depend on which ASCII characters a text holds. */
  lemma {:induction false} Utf8Swap(s: seq<Byte>, t: seq<Byte>)
    requires Swapped(s, t) && Utf8(s)
    ensures Utf8(t)
    decreases |s|
  {
    if s != [] {
      var u := Utf8Unit(s);
      UnitSwap(s, t);
      assert Swapped(s[u..], t[u..]);
      Utf8Swap(s[u..], t[u..]);
    }
  }

  lemma UnitSwap(s: seq<Byte>, t: seq<Byte>)
    requires s != [] && Swapped(s, t)
    ensures Utf8Unit(s) == Utf8Unit(t)
  {
    assert forall k: nat :: Continuation(s, k) == Continuation(t, k);
    assert s[0] == t[0] || (s[0] <= 0x7F && t[0] <= 0x7F);
    if |s| > 1 {
      assert s[1] == t[1] || (s[1] <= 0x7F && t[1] <= 0x7F);
    }
  }

  // ----- Strict escapes -----

  predicate WellEscaped(s: seq<Byte>) {
    forall k :: 0 <= k < |s| && s[k] == PERCENT ==> k + 2 < |s| && Hex(s[k + 1]) && Hex(s[k + 2])
  }

  /** What the server lets through before it parses: whole escapes that decode to UTF-8. */
  predicate Strict(s: seq<Byte>) {
    WellEscaped(s) && Utf8(PercentDecode(s))
  }

  lemma WellEscapedTail(s: seq<Byte>, n: nat)
    requires WellEscaped(s) && n <= |s|
    ensures WellEscaped(s[n..])
  {
    forall k | 0 <= k < |s[n..]| && s[n..][k] == PERCENT
      ensures k + 2 < |s[n..]| && Hex(s[n..][k + 1]) && Hex(s[n..][k + 2])
    {
      assert s[n + k] == PERCENT;
    }
  }

  lemma WellEscapedCut(a: seq<Byte>, c: Byte, b: seq<Byte>)
    requires WellEscaped(a + [c] + b) && !Hex(c)
    ensures WellEscaped(a) && WellEscaped(b)
    ensures a != [] ==> Escaped(a + [c] + b) == Escaped(a)
  {
    var s := a + [c] + b;
    assert s[|a|] == c && forall k :: 0 <= k < |a| ==> s[k] == a[k];
    assert b == s[|a| + 1..];
    WellEscapedTail(s, |a| + 1);
  }

  lemma {:induction false} PercentDecodeCut(a: seq<Byte>, c: Byte, b: seq<Byte>)
    requires WellEscaped(a + [c] + b) && c != PERCENT && !Hex(c)
    ensures PercentDecode(a + [c] + b) == PercentDecode(a) + [c] + PercentDecode(b)
    decreases |a|
  {
    var s := a + [c] + b;
    if a == [] {
      assert s[1..] == b;
    } else {
      WellEscapedCut(a, c, b);
      var u := if Escaped(a) then 3 else 1;
      assert s[u..] == a[u..] + [c] + b;
      WellEscapedTail(s, u);
      PercentDecodeCut(a[u..], c, b);
    }
  }

  lemma StrictCut(a: seq<Byte>, c: Byte, b: seq<Byte>)
    requires Strict(a + [c] + b) && c <= 0x7F && c != PERCENT && !Hex(c)
    ensures Strict(a) && Strict(b)
  {
    WellEscapedCut(a, c, b);
    PercentDecodeCut(a, c, b);
    Utf8Cut(PercentDecode(a), c, PercentDecode(b));
  }

  lemma {:induction false} SpacedSwaps(s: seq<Byte>)
    ensures Swapped(PercentDecode(s), FormDecode(s))
    decreases |s|
  {
    if s != [] {
      FormDecodeStep(s);
      SpacedSwaps(if Escaped(s) then s[3..] else s[1..]);
    }
  }

  lemma StrictDecodes(s: seq<Byte>)
    requires Strict(s)
    ensures Utf8(FormDecode(s))
  {
    SpacedSwaps(s);
    Utf8Swap(PercentDecode(s), FormDecode(s));
  }

  lemma StrictParts(s: seq<Byte>)
    requires Strict(s)
    ensures Strict(Cut(s, EQUALS).0) && (Cut(s, EQUALS).1.Some? ==> Strict(Cut(s, EQUALS).1.value))
  {
    var (name, value) := Cut(s, EQUALS);
    CutParts(s, EQUALS);
    if value.Some? {
      assert s == name + [EQUALS] + value.value;
      StrictCut(name, EQUALS, value.value);
    } else {
      assert s == name;
    }
  }

  lemma StrictPiece(s: seq<Byte>)
    requires Strict(s)
    ensures forall p :: p in Piece(s) ==> Strict(p.0) && Strict(p.1)
  {
    StrictParts(s);
    assert Strict([]);
  }

  lemma {:induction false} StrictPairs(s: seq<Byte>)
    requires Strict(s)
    ensures forall p :: p in Read(s) ==> Strict(p.0) && Strict(p.1)
    decreases |s|
  {
    var (head, rest) := Cut(s, AMPERSAND);
    CutParts(s, AMPERSAND);
    if rest.Some? {
      assert s == head + [AMPERSAND] + rest.value;
      StrictCut(head, AMPERSAND, rest.value);
      StrictPairs(rest.value);
      assert Split(s, AMPERSAND)[1..] == Split(rest.value, AMPERSAND);
    } else {
      assert s == head && Split(s, AMPERSAND)[1..] == [];
    }
    StrictPiece(head);
    assert Read(s) == Piece(head) + Pieces(Split(s, AMPERSAND)[1..]);
  }

  /** The forgiving parser replaces nothing in a text that passed the strict tests:
      every name and value decodes to well-formed UTF-8. */
  lemma NothingReplaced(s: seq<Byte>, lossy: seq<Byte> -> seq<Byte>)
    requires Strict(s) && Faithful(lossy)
    ensures forall k :: 0 <= k < |Read(s)| ==>
      Parsed(s, lossy)[k] == (FormDecode(Read(s)[k].0), FormDecode(Read(s)[k].1)) &&
      Utf8(Parsed(s, lossy)[k].0) && Utf8(Parsed(s, lossy)[k].1)
  {
    StrictPairs(s);
    forall k | 0 <= k < |Read(s)| ensures Utf8(FormDecode(Read(s)[k].0)) && Utf8(FormDecode(Read(s)[k].1)) {
      StrictDecodes(Read(s)[k].0);
      StrictDecodes(Read(s)[k].1);
    }
  }
}
