/** client/src/sdk_http/form.rs and SdkHttpClient::form: the signed form body. */
module Form {
  import opened Basics
  import opened Bytes
  import opened Pairs

  // ----- Encoding -----

  /** Tab, line feed, form feed and carriage return are left out. */
  predicate Dropped(b: Byte) {
    b == 9 || b == 10 || b == 12 || b == 13
  }

  /** The characters  space ! " # $   & ' ( )   ,   /   : ; < = > ? @   [ \ ] ^   `   { | } ~ */
  predicate FormSet(b: Byte) {
    32 <= b <= 36 || 38 <= b <= 41 || b == 44 || b == 47 || 58 <= b <= 64 || 91 <= b <= 94 || b == 96
    || 123 <= b <= 126
  }

  predicate Escapes(b: Byte) {
    !(32 <= b < 127) || FormSet(b)
  }

  function EncodedByte(b: Byte): seq<Byte> {
    if Dropped(b) then [] else if Escapes(b) then Escape(b) else [b]
  }

  function Encoded(s: seq<Byte>): seq<Byte> {
    if s == [] then [] else EncodedByte(s[0]) + Encoded(s[1..])
  }

  function Stripped(s: seq<Byte>): seq<Byte> {
    if s == [] then [] else (if Dropped(s[0]) then [] else [s[0]]) + Stripped(s[1..])
  }

  /** Letters, digits and  !   ' ( ) *   - .   _   ~ */
  predicate UriKept(b: Byte) {
    Alphanumeric(b) || b == 33 || 39 <= b <= 42 || b == 45 || b == 46 || b == 95 || b == 126
  }

  function Uri(s: seq<Byte>): seq<Byte> {
    if s == [] then [] else (if UriKept(s[0]) then [s[0]] else Escape(s[0])) + Uri(s[1..])
  }

  function Raw(s: seq<Byte>): seq<Byte> {
    Encoded(Uri(s))
  }

  function Decoded(s: seq<Byte>): Option<seq<Byte>> {
    if Utf8(FormDecode(s)) then Some(FormDecode(s)) else None
  }

  lemma {:induction false} EncodedConcat(a: seq<Byte>, b: seq<Byte>)
    ensures Encoded(a + b) == Encoded(a) + Encoded(b)
  {
    if a == [] {
      assert a + b == b;
    } else {
      assert (a + b)[1..] == a[1..] + b;
      EncodedConcat(a[1..], b);
    }
  }

  lemma EncodedOne(b: Byte)
    ensures Encoded([b]) == EncodedByte(b)
  {
    assert [b][1..] == [];
  }

  lemma {:induction false} UriLast(s: seq<Byte>, b: Byte)
    ensures Uri(s + [b]) == Uri(s) + if UriKept(b) then [b] else Escape(b)
  {
    if s != [] {
      assert (s + [b])[1..] == s[1..] + [b];
      UriLast(s[1..], b);
    }
  }

  method Encode(s: seq<Byte>) returns (out: seq<Byte>)
    ensures out == Encoded(s)
  {
    out := [];
    for k := 0 to |s|
      invariant out == Encoded(s[..k])
    {
      assert s[..k + 1] == s[..k] + [s[k]];
      EncodedConcat(s[..k], [s[k]]);
      EncodedOne(s[k]);
      if !Dropped(s[k]) {
        out := out + (if Escapes(s[k]) then Escape(s[k]) else [s[k]]);
      }
    }
    assert s[..|s|] == s;
  }

  method EncodeRaw(s: seq<Byte>) returns (out: seq<Byte>)
    ensures out == Raw(s)
  {
    var uri := [];
    for k := 0 to |s|
      invariant uri == Uri(s[..k])
    {
      assert s[..k + 1] == s[..k] + [s[k]];
      UriLast(s[..k], s[k]);
      uri := uri + (if UriKept(s[k]) then [s[k]] else Escape(s[k]));
    }
    assert s[..|s|] == s;
    out := Encode(uri);
  }

  /** A byte that the encoder passes on as it is. */
  predicate Kept(b: Byte) {
    EncodedByte(b) == [b]
  }

  predicate AllKept(s: seq<Byte>) {
    forall k :: 0 <= k < |s| ==> Kept(s[k])
  }

  lemma EncodedByteIsKept(b: Byte)
    ensures AllKept(EncodedByte(b))
  {
  }

  lemma {:induction false} EncodedIsKept(s: seq<Byte>)
    ensures AllKept(Encoded(s))
  {
    if s != [] {
      EncodedIsKept(s[1..]);
      EncodedByteIsKept(s[0]);
    }
  }

  lemma {:induction false} KeptIsEncoded(s: seq<Byte>)
    requires AllKept(s)
    ensures Encoded(s) == s
  {
    if s != [] {
      KeptIsEncoded(s[1..]);
    }
  }

  /** What the encoder does with every byte: letters, digits and % * + - . _ stay, tabs and
      line breaks go, and all others become upper-case escapes. */
  lemma EncoderAlphabet(b: Byte)
    ensures Encoded([b]) ==
      if Alphanumeric(b) || b as char in "%*+-._" then [b]
      else if b as char in "\t\n\r" || b == 12 then []
      else [PERCENT, UpperHex(b / 16), UpperHex(b % 16)]
  {
    EncodedOne(b);
  }

  lemma UpperHexDigits(v: nat)
    requires v < 16
    ensures UpperHex(v) as char == "0123456789ABCDEF"[v]
  {
  }

  lemma UriOne(b: Byte)
    ensures Uri([b]) == if Alphanumeric(b) || b as char in "_-!.~'()*" then [b] else Escape(b)
  {
    assert [b][1..] == [];
  }

  /** The bytes that the two passes for raw values leave as they are. */
  lemma RawAlphabet(b: Byte)
    ensures Raw([b]) == [b] <==> Alphanumeric(b) || b as char in "_-.*"
  {
    UriOne(b);
    if Uri([b]) == [b] {
      EncodedOne(b);
    } else {
      EscapesStay(b);
    }
  }

  lemma EscapesStay(b: Byte)
    ensures Encoded(Escape(b)) == Escape(b)
  {
    EscapeIsKept(b);
    KeptIsEncoded(Escape(b));
  }

  lemma EscapeIsKept(b: Byte)
    ensures AllKept(Escape(b))
  {
  }

  /** Encoding twice is encoding once. */
  lemma EncodedTwice(s: seq<Byte>)
    ensures Encoded(Encoded(s)) == Encoded(s)
  {
    EncodedIsKept(s);
    KeptIsEncoded(Encoded(s));
  }

  /** Neither separator of a form body survives encoding. */
  lemma EncodedIsSeparable(s: seq<Byte>)
    ensures AMPERSAND !in Encoded(s) && EQUALS !in Encoded(s)
  {
    EncodedIsKept(s);
    assert !Kept(AMPERSAND) && !Kept(EQUALS);
  }

  lemma {:induction false} StrippedEncodesAlike(s: seq<Byte>)
    ensures Encoded(Stripped(s)) == Encoded(s)
    ensures forall b :: b in Stripped(s) ==> !Dropped(b)
  {
    if s != [] {
      StrippedEncodesAlike(s[1..]);
      if Dropped(s[0]) {
        assert Stripped(s) == Stripped(s[1..]);
      } else {
        assert Stripped(s)[1..] == Stripped(s[1..]);
      }
    }
  }

  lemma KeptFront(s: seq<Byte>)
    requires s != [] && !Dropped(s[0]) && !Escapes(s[0])
    ensures Encoded(s) != [] && Encoded(s)[0] == s[0] && Encoded(s)[1..] == Encoded(s[1..])
  {}

  /** No encoding starts with a hexadecimal digit, unless the text does. */
  lemma HexFront(s: seq<Byte>)
    requires forall b :: b in s ==> !Dropped(b)
    ensures (Encoded(s) != [] && Hex(Encoded(s)[0])) == (s != [] && Hex(s[0]))
  {
    assert !Hex(PERCENT);
    if s != [] {
      assert s[0] in s;
      assert Encoded(s) == EncodedByte(s[0]) + Encoded(s[1..]);
    }
  }

  /** The encoder neither makes nor breaks a percent escape at the front. */
  lemma EscapeSurvives(s: seq<Byte>)
    requires s != [] && forall b :: b in s ==> !Dropped(b)
    requires !Escapes(s[0])
    ensures Encoded(s) != [] && Encoded(s)[0] == s[0] && Encoded(s)[1..] == Encoded(s[1..])
    ensures Escaped(Encoded(s)) == Escaped(s)
    ensures Escaped(s) ==> Encoded(s)[1] == s[1] && Encoded(s)[2] == s[2] && Encoded(s)[3..] == Encoded(s[3..])
  {
    var e, t := Encoded(s), s[1..];
    KeptFront(s);
    HexFront(t);
    if |t| > 0 && Hex(t[0]) {
      KeptFront(t);
      HexFront(t[1..]);
      assert e[1..][1..] == e[2..];
      if |t| > 1 && Hex(t[1]) {
        KeptFront(t[1..]);
        assert e[2..][1..] == e[3..] && t[1..][1..] == s[3..];
      }
    }
  }

  lemma EscapedFront(s: seq<Byte>)
    requires s != [] && !Dropped(s[0]) && Escapes(s[0])
    ensures FormDecode(Encoded(s)) == [s[0]] + FormDecode(Encoded(s[1..]))
    ensures FormDecode(s) == [s[0]] + FormDecode(s[1..])
  {
    FormDecodeStep(s);
    FormDecodeEscape(s[0], Encoded(s[1..]));
    assert Encoded(s) == Escape(s[0]) + Encoded(s[1..]);
  }

  lemma {:induction false} EncodedDecodes(s: seq<Byte>)
    requires forall b :: b in s ==> !Dropped(b)
    ensures FormDecode(Encoded(s)) == FormDecode(s)
    decreases |s|
  {
    if s != [] {
      assert s[0] in s;
      if Escapes(s[0]) {
        EncodedDecodes(s[1..]);
        EscapedFront(s);
      } else {
        FormDecodeStep(s);
        EscapeSurvives(s);
        FormDecodeStep(Encoded(s));
        EncodedDecodes(if Escaped(s) then s[3..] else s[1..]);
      }
    }
  }

  /** What a server decodes from an encoded value is what it would decode from the value
      without tabs and line breaks: whole, broken and nested percent sequences included. */
  lemma DecodedEncoded(s: seq<Byte>)
    ensures FormDecode(Encoded(s)) == FormDecode(Stripped(s))
    ensures Decoded(Encoded(s)) == Decoded(Stripped(s))
  {
    StrippedEncodesAlike(s);
    EncodedDecodes(Stripped(s));
  }

  lemma {:induction false} UriDecodes(s: seq<Byte>)
    ensures FormDecode(Uri(s)) == s
    ensures forall b :: b in Uri(s) ==> !Dropped(b)
  {
    if s != [] {
      UriDecodes(s[1..]);
      if UriKept(s[0]) {
        FormDecodeStep(Uri(s));
        assert Uri(s)[1..] == Uri(s[1..]);
      } else {
        FormDecodeEscape(s[0], Uri(s[1..]));
      }
    }
  }

  /** A raw value comes back byte for byte. */
  lemma DecodedRaw(s: seq<Byte>)
    ensures FormDecode(Raw(s)) == s
    ensures Decoded(Raw(s)) == if Utf8(s) then Some(s) else None
  {
    UriDecodes(s);
    EncodedDecodes(Uri(s));
  }

  // ----- The sorted map of signed values -----

  predicate Less(a: seq<Byte>, b: seq<Byte>) {
    b != [] && (a == [] || a[0] < b[0] || (a[0] == b[0] && Less(a[1..], b[1..])))
  }

  lemma {:induction false} Trichotomy(a: seq<Byte>, b: seq<Byte>)
    ensures Less(a, b) || Less(b, a) || a == b
    ensures !(Less(a, b) && Less(b, a)) && !Less(a, a)
  {
    if a != [] {
      if b != [] {
        Trichotomy(a[1..], b[1..]);
        if a[0] == b[0] && a[1..] == b[1..] {
          assert a == [a[0]] + a[1..] == b;
        }
      } else {
        Trichotomy(a[1..], []);
      }
    }
  }

  lemma {:induction false} Transitive(a: seq<Byte>, b: seq<Byte>, c: seq<Byte>)
    requires Less(a, b) && Less(b, c)
    ensures Less(a, c)
  {
    if a != [] && a[0] == b[0] == c[0] {
      Transitive(a[1..], b[1..], c[1..]);
    }
  }

  predicate Sorted(m: seq<Pair>) {
    |m| > 1 ==> Less(m[0].0, m[1].0) && Sorted(m[1..])
  }

  /** Insertion into an ordered map: an equal name is replaced. */
  function Insert(m: seq<Pair>, p: Pair): seq<Pair> {
    if m == [] || Less(p.0, m[0].0) then [p] + m
    else if m[0].0 == p.0 then [p] + m[1..]
    else [m[0]] + Insert(m[1..], p)
  }

  function Get(m: seq<Pair>, name: seq<Byte>): Option<seq<Byte>> {
    if m == [] then None else if m[0].0 == name then Some(m[0].1) else Get(m[1..], name)
  }

  lemma {:induction false} InsertSorts(m: seq<Pair>, p: Pair)
    requires Sorted(m)
    ensures Sorted(Insert(m, p)) && Insert(m, p) != []
    ensures Insert(m, p)[0].0 == if m == [] || Less(p.0, m[0].0) then p.0 else m[0].0
  {
    if m == [] || Less(p.0, m[0].0) {
      assert ([p] + m)[1..] == m;
    } else if m[0].0 == p.0 {
      assert ([p] + m[1..])[1..] == m[1..];
    } else {
      InsertSorts(m[1..], p);
      Trichotomy(p.0, m[0].0);
      assert Insert(m, p)[1..] == Insert(m[1..], p);
    }
  }

  lemma {:induction false} Below(m: seq<Pair>, name: seq<Byte>)
    requires Sorted(m) && (m == [] || Less(name, m[0].0))
    ensures Get(m, name) == None
  {
    if m != [] {
      Trichotomy(name, m[0].0);
      if |m| > 1 {
        Transitive(name, m[0].0, m[1].0);
      }
      Below(m[1..], name);
    }
  }

  lemma {:induction false} GetInserted(m: seq<Pair>, p: Pair, name: seq<Byte>)
    requires Sorted(m)
    ensures Get(Insert(m, p), name) == if name == p.0 then Some(p.1) else Get(m, name)
  {
    if m == [] || Less(p.0, m[0].0) {
      assert ([p] + m)[1..] == m;
    } else if m[0].0 == p.0 {
      assert ([p] + m[1..])[1..] == m[1..];
    } else {
      GetInserted(m[1..], p, name);
      assert Insert(m, p)[1..] == Insert(m[1..], p);
    }
  }

  ghost predicate SameGets(a: seq<Pair>, b: seq<Pair>) {
    forall name :: Get(a, name) == Get(b, name)
  }

  lemma SameHead(a: seq<Pair>, b: seq<Pair>)
    requires Sorted(a) && Sorted(b) && SameGets(a, b) && a != []
    ensures b != [] && !Less(a[0].0, b[0].0)
  {
    assert Get(a, a[0].0) == Get(b, a[0].0);
    if b != [] && Less(a[0].0, b[0].0) {
      Below(b, a[0].0);
    }
  }

  /** An ordered map is determined by what it holds. */
  lemma {:induction false} SortedUnique(a: seq<Pair>, b: seq<Pair>)
    requires Sorted(a) && Sorted(b) && SameGets(a, b)
    ensures a == b
  {
    if a == [] {
      if b != [] {
        SameHead(b, a);
      }
    } else {
      SameHead(a, b);
      SameHead(b, a);
      Trichotomy(a[0].0, b[0].0);
      var name := a[0].0;
      assert Get(a, name) == Get(b, name);
      forall n ensures Get(a[1..], n) == Get(b[1..], n) {
        if n == name {
          Below(a[1..], n);
          Below(b[1..], n);
        } else {
          assert Get(a, n) == Get(b, n);
        }
      }
      SortedUnique(a[1..], b[1..]);
      assert a == [a[0]] + a[1..] && b == [b[0]] + b[1..];
    }
  }

  // ----- Signing -----

  function Lower(s: seq<Byte>): seq<Byte> {
    if s == [] then [] else [if 65 <= s[0] <= 90 then s[0] + 32 else s[0]] + Lower(s[1..])
  }

  const ITEM_NAME: seq<Byte> := [105, 116, 101, 109, 95, 110, 97, 109, 101]
  const ITEM_DESC: seq<Byte> := [105, 116, 101, 109, 95, 100, 101, 115, 99]

  /** Names left out of the signature, in any case. */
  predicate Unsigned(name: seq<Byte>) {
    Lower(name) == ITEM_NAME || Lower(name) == ITEM_DESC
  }

  /** The decoded values by name, the last one winning; nothing if one is undecodable. */
  function Values(fields: seq<Pair>): Option<seq<Pair>> {
    if fields == [] then Some([])
    else
      var last := fields[|fields| - 1];
      var before := Values(fields[..|fields| - 1]);
      var value := Decoded(last.1);
      if before.Some? && value.Some? then Some(Insert(before.value, (last.0, value.value))) else None
  }

  function Material(m: seq<Pair>): seq<Byte> {
    if m == [] then [] else (if Unsigned(m[0].0) then [] else m[0].1) + Material(m[1..])
  }

  function LowerDigit(v: nat): Byte
    requires v < 16
  {
    if v < 10 then 48 + v else 87 + v
  }

  function LowerHex(d: seq<Byte>): seq<Byte> {
    if d == [] then [] else [LowerDigit(d[0] / 16), LowerDigit(d[0] % 16)] + LowerHex(d[1..])
  }

  function Signature(fields: seq<Pair>, key: seq<Byte>, digest: seq<Byte> -> seq<Byte>): Option<seq<Byte>> {
    var values := Values(fields);
    if values.Some? then Some(LowerHex(digest(Material(values.value) + key))) else None
  }

  const MAX_BODY: nat := 64 * 1024
  const SIGN: seq<Byte> := [115, 105, 103, 110]

  function SignedBody(fields: seq<Pair>, key: seq<Byte>, digest: seq<Byte> -> seq<Byte>): Option<seq<Byte>> {
    var signature := Signature(fields, key, digest);
    if signature.None? then None
    else
      var body := Written(fields) + [AMPERSAND] + SIGN + [EQUALS] + signature.value;
      if |body| > MAX_BODY then None else Some(body)
  }

  method CollectValues(fields: seq<Pair>) returns (r: Option<seq<Pair>>)
    ensures r == Values(fields)
  {
    var values: seq<Pair> := [];
    for k := 0 to |fields|
      invariant Values(fields[..k]) == Some(values)
    {
      assert fields[..k + 1][..k] == fields[..k];
      var value := Decoded(fields[k].1);
      if value.None? {
        Undecodable(fields, k);
        return None;
      }
      values := Insert(values, (fields[k].0, value.value));
    }
    assert fields[..|fields|] == fields;
    r := Some(values);
  }

  method Gather(values: seq<Pair>) returns (material: seq<Byte>)
    ensures material == Material(values)
  {
    material := [];
    for k := 0 to |values|
      invariant Material(values) == material + Material(values[k..])
    {
      assert values[k..][1..] == values[k + 1..];
      if !Unsigned(values[k].0) {
        material := material + values[k].1;
      }
    }
  }

  method SignForm(fields: seq<Pair>, key: seq<Byte>, digest: seq<Byte> -> seq<Byte>) returns (r: Option<seq<Byte>>)
    ensures r == SignedBody(fields, key, digest)
  {
    var values := CollectValues(fields);
    if values.None? {
      return None;
    }
    var material := Gather(values.value);
    var signature := LowerHex(digest(material + key));
    var body := WriteFields(fields);
    body := body + [AMPERSAND] + SIGN + [EQUALS] + signature;
    r := if |body| > MAX_BODY then None else Some(body);
  }

  method WriteFields(fields: seq<Pair>) returns (body: seq<Byte>)
    ensures body == Written(fields)
  {
    body := [];
    for k := 0 to |fields|
      invariant body == Written(fields[..k])
    {
      assert fields[..k + 1][..k] == fields[..k];
      if body != [] {
        body := body + [AMPERSAND];
      }
      body := body + Assignment(fields[k]);
    }
    assert fields[..|fields|] == fields;
  }

  lemma {:induction false} Undecodable(fields: seq<Pair>, k: nat)
    requires k < |fields| && Decoded(fields[k].1) == None
    ensures Values(fields) == None
  {
    if k < |fields| - 1 {
      Undecodable(fields[..|fields| - 1], k);
    }
  }

  /** What is signed for a name: its last value. */
  function LastValue(fields: seq<Pair>, name: seq<Byte>): Option<seq<Byte>> {
    var values := Named(fields, name);
    if values == [] then None else Some(FormDecode(values[|values| - 1]))
  }

  predicate Decodable(fields: seq<Pair>) {
    forall k :: 0 <= k < |fields| ==> Decoded(fields[k].1).Some?
  }

  lemma DecodableLast(fields: seq<Pair>)
    requires fields != []
    ensures Decodable(fields) ==
      (Decodable(fields[..|fields| - 1]) && Decoded(fields[|fields| - 1].1).Some?)
  {
    assert forall k :: 0 <= k < |fields| - 1 ==> fields[..|fields| - 1][k] == fields[k];
  }

  lemma {:induction false} ValuesExist(fields: seq<Pair>)
    ensures Values(fields).Some? == Decodable(fields)
    ensures Values(fields).Some? ==> Sorted(Values(fields).value)
  {
    if fields != [] {
      ValuesExist(fields[..|fields| - 1]);
      DecodableLast(fields);
      if Values(fields).Some? {
        var last := fields[|fields| - 1];
        InsertSorts(Values(fields[..|fields| - 1]).value, (last.0, Decoded(last.1).value));
      }
    }
  }

  /** The map holds exactly the last value of every name. */
  lemma {:induction false} ValuesAreLast(fields: seq<Pair>, name: seq<Byte>)
    requires Decodable(fields)
    ensures Values(fields).Some? && Get(Values(fields).value, name) == LastValue(fields, name)
  {
    ValuesExist(fields);
    if fields != [] {
      var init, last := fields[..|fields| - 1], fields[|fields| - 1];
      ValuesExist(init);
      ValuesAreLast(init, name);
      GetInserted(Values(init).value, (last.0, Decoded(last.1).value), name);
    }
  }

  /** The entries that are signed. */
  function Signed(m: seq<Pair>): seq<Pair> {
    if m == [] then [] else (if Unsigned(m[0].0) then [] else [m[0]]) + Signed(m[1..])
  }

  lemma {:induction false} SignedSorts(m: seq<Pair>)
    requires Sorted(m)
    ensures Sorted(Signed(m)) && Material(Signed(m)) == Material(m)
    ensures forall low :: m != [] && Less(low, m[0].0) && Signed(m) != [] ==> Less(low, Signed(m)[0].0)
  {
    if m != [] {
      SignedSorts(m[1..]);
      if Unsigned(m[0].0) {
        assert Signed(m) == Signed(m[1..]);
        forall low | Less(low, m[0].0) && Signed(m) != [] ensures Less(low, Signed(m)[0].0) {
          Transitive(low, m[0].0, m[1].0);
        }
      } else {
        assert Signed(m)[1..] == Signed(m[1..]);
      }
    }
  }

  lemma {:induction false} GetSigned(m: seq<Pair>, name: seq<Byte>)
    requires Sorted(m)
    ensures Get(Signed(m), name) == if Unsigned(name) then None else Get(m, name)
  {
    if m != [] {
      GetSigned(m[1..], name);
      if Unsigned(m[0].0) {
        assert Signed(m) == Signed(m[1..]);
      } else {
        assert Signed(m)[1..] == Signed(m[1..]);
      }
    }
  }

  /** The signature is a function of the last values of the signed names alone: item
      names and descriptions, earlier duplicates and the order of names play no part. */
  lemma SignatureOfLastValues(a: seq<Pair>, b: seq<Pair>, key: seq<Byte>, digest: seq<Byte> -> seq<Byte>)
    requires Decodable(a) && Decodable(b)
    requires forall name :: !Unsigned(name) ==> LastValue(a, name) == LastValue(b, name)
    ensures Signature(a, key, digest).Some? && Signature(a, key, digest) == Signature(b, key, digest)
  {
    ValuesExist(a);
    ValuesExist(b);
    var va, vb := Values(a).value, Values(b).value;
    SignedSorts(va);
    SignedSorts(vb);
    forall name ensures Get(Signed(va), name) == Get(Signed(vb), name) {
      GetSigned(va, name);
      GetSigned(vb, name);
      ValuesAreLast(a, name);
      ValuesAreLast(b, name);
    }
    SortedUnique(Signed(va), Signed(vb));
  }

  lemma SameDecodability(a: seq<Pair>, b: seq<Pair>)
    requires Decodable(a) && forall name :: Named(a, name) == Named(b, name)
    ensures Decodable(b)
  {
    forall k | 0 <= k < |b| ensures Decoded(b[k].1).Some? {
      NamedHolds(b, k);
      assert Named(a, b[k].0) == Named(b, b[k].0);
      NamedIsThere(a, b[k].0, b[k].1);
    }
  }

  /** Reordering fields, without reordering those of one name, leaves the signature, or
      the refusal to sign, as it was. */
  lemma SignatureIgnoresOrder(a: seq<Pair>, b: seq<Pair>, key: seq<Byte>, digest: seq<Byte> -> seq<Byte>)
    requires forall name :: Named(a, name) == Named(b, name)
    ensures Signature(a, key, digest) == Signature(b, key, digest)
  {
    if Decodable(a) {
      SameDecodability(a, b);
      SignatureOfLastValues(a, b, key, digest);
    } else {
      if Decodable(b) {
        SameDecodability(b, a);
      }
      ValuesExist(a);
      ValuesExist(b);
    }
  }

  lemma {:induction false} LowerHexIsSeparable(d: seq<Byte>)
    ensures AMPERSAND !in LowerHex(d)
  {
    if d != [] {
      LowerHexIsSeparable(d[1..]);
    }
  }

  /** Signing fails exactly on an undecodable value or an oversized body; otherwise the
      fields are read back from the body, followed by their signature. */
  lemma BodyReadsBack(fields: seq<Pair>, key: seq<Byte>, digest: seq<Byte> -> seq<Byte>)
    requires forall p :: p in fields ==> Separable(p)
    ensures var r := SignedBody(fields, key, digest);
            var signature := Signature(fields, key, digest);
            (Decodable(fields) <==> signature.Some?) &&
            (r.Some? <==> signature.Some? && |Written(fields)| + 6 + |signature.value| <= 64 * 1024) &&
            (r.Some? ==> Read(r.value) == fields + [(SIGN, signature.value)])
  {
    ValuesExist(fields);
    var signature := Signature(fields, key, digest);
    if signature.Some? {
      var last := SIGN + [EQUALS] + signature.value;
      var body := Written(fields) + [AMPERSAND] + last;
      assert body == Written(fields) + [AMPERSAND] + SIGN + [EQUALS] + signature.value;
      ReadWritten(fields);
      LowerHexIsSeparable(digest(Material(Values(fields).value) + key));
      ReadOne((SIGN, signature.value));
      ReadConcat(Written(fields), last);
    }
  }

  // ----- What is signed, spelled out -----

  /** The order of names: the first byte that differs decides, and a proper prefix comes first. */
  lemma {:induction false} LessIsLexicographic(a: seq<Byte>, b: seq<Byte>)
    ensures Less(a, b) <==>
      exists k :: 0 <= k <= |a| && k < |b| && a[..k] == b[..k] && (k == |a| || a[k] < b[k])
  {
    if a != [] && b != [] && a[0] == b[0] {
      LessIsLexicographic(a[1..], b[1..]);
      if Less(a[1..], b[1..]) {
        var k :| 0 <= k <= |a[1..]| && k < |b[1..]| && a[1..][..k] == b[1..][..k]
          && (k == |a[1..]| || a[1..][k] < b[1..][k]);
        PrefixesGrow(a, b, k);
      }
      if k :| 0 <= k <= |a| && k < |b| && a[..k] == b[..k] && (k == |a| || a[k] < b[k]) {
        assert k > 0;
        PrefixesGrow(a, b, k - 1);
        assert a[1..][..k - 1] == b[1..][..k - 1];
      }
    } else if b != [] {
      assert a[..0] == b[..0];
      if a != [] {
        forall k | 0 < k <= |a| && k < |b| ensures a[..k] != b[..k] {
          assert a[..k][0] == a[0] && b[..k][0] == b[0];
        }
      }
    }
  }

  lemma PrefixesGrow(a: seq<Byte>, b: seq<Byte>, k: nat)
    requires a != [] && b != [] && a[0] == b[0] && k < |a| && k < |b|
    ensures a[1..][..k] == b[1..][..k] <==> a[..k + 1] == b[..k + 1]
  {
    assert a[..k + 1] == [a[0]] + a[1..][..k] && b[..k + 1] == [b[0]] + b[1..][..k];
    assert a[..k + 1][1..] == a[1..][..k] && b[..k + 1][1..] == b[1..][..k];
  }

  /** The texts are equal but for the case of ASCII letters. */
  predicate SameLetters(a: seq<Byte>, lower: seq<Byte>) {
    |a| == |lower| && forall k :: 0 <= k < |a| ==> a[k] == lower[k] || (65 <= a[k] <= 90 && a[k] + 32 == lower[k])
  }

  lemma SameLettersStep(a: seq<Byte>, lower: seq<Byte>)
    requires a != [] && lower != []
    ensures SameLetters(a, lower) <==>
      && (a[0] == lower[0] || (65 <= a[0] <= 90 && a[0] + 32 == lower[0]))
      && SameLetters(a[1..], lower[1..])
  {
    if SameLetters(a[1..], lower[1..]) {
      forall k | 0 < k < |a| ensures a[k] == lower[k] || (65 <= a[k] <= 90 && a[k] + 32 == lower[k]) {
        assert a[1..][k - 1] == a[k] && lower[1..][k - 1] == lower[k];
      }
    }
  }

  lemma {:induction false} LowerIsSameLetters(a: seq<Byte>, lower: seq<Byte>)
    requires forall k :: 0 <= k < |lower| ==> !(65 <= lower[k] <= 90)
    ensures Lower(a) == lower <==> SameLetters(a, lower)
  {
    if a != [] && lower != [] {
      LowerIsSameLetters(a[1..], lower[1..]);
      SameLettersStep(a, lower);
      assert Lower(a)[0] == if 65 <= a[0] <= 90 then a[0] + 32 else a[0];
      assert Lower(a)[1..] == Lower(a[1..]);
      assert Lower(a) == [Lower(a)[0]] + Lower(a)[1..] && lower == [lower[0]] + lower[1..];
    }
  }

  /** item_name and item_desc, in any case. */
  predicate ItemField(name: seq<Byte>) {
    SameLetters(name, BytesOf("item_name")) || SameLetters(name, BytesOf("item_desc"))
  }

  lemma UnsignedAreItems(name: seq<Byte>)
    ensures Unsigned(name) <==> ItemField(name)
  {
    assert BytesOf("item_name") == ITEM_NAME && BytesOf("item_desc") == ITEM_DESC;
    LowerIsSameLetters(name, ITEM_NAME);
    LowerIsSameLetters(name, ITEM_DESC);
  }

  function Joined(list: seq<Pair>): seq<Byte> {
    if list == [] then [] else list[0].1 + Joined(list[1..])
  }

  /** The list holds every name of the fields but the item fields, in ascending order, each
      with the last of its values, decoded. */
  ghost predicate Lists(list: seq<Pair>, fields: seq<Pair>) {
    && (forall i, j :: 0 <= i < j < |list| ==> Less(list[i].0, list[j].0))
    && (forall k :: 0 <= k < |list| ==> !ItemField(list[k].0) && LastValue(fields, list[k].0) == Some(list[k].1))
    && (forall f :: f in fields && !ItemField(f.0) ==> exists k :: 0 <= k < |list| && list[k].0 == f.0)
  }

  lemma {:induction false} AscendingIsSorted(list: seq<Pair>)
    requires forall i, j :: 0 <= i < j < |list| ==> Less(list[i].0, list[j].0)
    ensures Sorted(list)
    ensures forall k :: 0 <= k < |list| ==> Get(list, list[k].0) == Some(list[k].1)
    ensures forall name :: Get(list, name).Some? ==> exists k :: 0 <= k < |list| && list[k].0 == name
  {
    if list != [] {
      var rest := list[1..];
      AscendingIsSorted(rest);
      forall k | 0 <= k < |list| ensures Get(list, list[k].0) == Some(list[k].1) {
        if k > 0 {
          assert list[k] == rest[k - 1];
          Trichotomy(list[0].0, list[k].0);
        }
      }
      forall name | Get(list, name).Some? ensures exists k :: 0 <= k < |list| && list[k].0 == name {
        if list[0].0 != name {
          assert Get(rest, name).Some?;
          var k :| 0 <= k < |rest| && rest[k].0 == name;
          assert list[k + 1].0 == name;
        }
      }
    }
  }

  lemma {:induction false} JoinedIsMaterial(list: seq<Pair>)
    requires forall k :: 0 <= k < |list| ==> !ItemField(list[k].0)
    ensures Material(list) == Joined(list)
  {
    if list != [] {
      UnsignedAreItems(list[0].0);
      JoinedIsMaterial(list[1..]);
    }
  }

  lemma NamedOf(fields: seq<Pair>, name: seq<Byte>)
    ensures Named(fields, name) != [] ==> exists f :: f in fields && f.0 == name
  {
    if Named(fields, name) != [] {
      NamedIsThere(fields, name, Named(fields, name)[0]);
    }
  }

  lemma ListGets(list: seq<Pair>, fields: seq<Pair>, name: seq<Byte>)
    requires Lists(list, fields)
    ensures Get(list, name) == if ItemField(name) then None else LastValue(fields, name)
  {
    AscendingIsSorted(list);
    NamedOf(fields, name);
    if Get(list, name).Some? {
      var k :| 0 <= k < |list| && list[k].0 == name;
    }
    if !ItemField(name) && LastValue(fields, name).Some? {
      var f :| f in fields && f.0 == name;
      var k :| 0 <= k < |list| && list[k].0 == f.0;
    }
  }

  lemma ListIsSigned(list: seq<Pair>, fields: seq<Pair>)
    requires Decodable(fields) && Lists(list, fields)
    ensures Values(fields).Some? && Signed(Values(fields).value) == list
  {
    ValuesExist(fields);
    var m := Values(fields).value;
    SignedSorts(m);
    AscendingIsSorted(list);
    forall name ensures Get(Signed(m), name) == Get(list, name) {
      GetSigned(m, name);
      ValuesAreLast(fields, name);
      UnsignedAreItems(name);
      ListGets(list, fields, name);
    }
    SortedUnique(Signed(m), list);
  }

  /** The bytes that a text of hexadecimal digits stands for, two for each. */
  function FromHex(s: seq<Byte>): seq<Byte> {
    if |s| < 2 || !Hex(s[0]) || !Hex(s[1]) then [] else [16 * HexValue(s[0]) + HexValue(s[1])] + FromHex(s[2..])
  }

  /** Two lower-case digits are written for every byte, and are read back as it. */
  lemma {:induction false} LowerHexReadsBack(d: seq<Byte>)
    ensures FromHex(LowerHex(d)) == d && |LowerHex(d)| == 2 * |d|
    ensures forall b :: b in LowerHex(d) ==> b in BytesOf("0123456789abcdef")
  {
    if d != [] {
      LowerHexReadsBack(d[1..]);
      LowerDigitReads(d[0] / 16);
      LowerDigitReads(d[0] % 16);
      assert LowerHex(d)[2..] == LowerHex(d[1..]);
    }
  }

  lemma LowerDigitReads(v: nat)
    requires v < 16
    ensures Hex(LowerDigit(v)) && HexValue(LowerDigit(v)) == v && LowerDigit(v) in BytesOf("0123456789abcdef")
  {
    assert LowerDigit(v) == BytesOf("0123456789abcdef")[v];
  }

  /** The signature of decodable fields is the hexadecimal digest of their last values,
      decoded and joined in the order of their names, without the item fields, and then
      the key. The body is the fields as given, followed by it. */
  lemma SignedAsSpelled(fields: seq<Pair>, list: seq<Pair>, key: seq<Byte>, digest: seq<Byte> -> seq<Byte>)
    requires Decodable(fields) && Lists(list, fields)
    ensures var body := Written(fields) + BytesOf("&sign=") + LowerHex(digest(Joined(list) + key));
            SignedBody(fields, key, digest) == if |body| > 64 * 1024 then None else Some(body)
  {
    ListIsSigned(list, fields);
    MaterialOfSigned(fields);
    JoinedIsMaterial(list);
    var hex := LowerHex(digest(Joined(list) + key));
    assert Signature(fields, key, digest) == Some(hex);
    SignatureIsAppended(Written(fields), hex);
  }

  lemma SignatureIsAppended(body: seq<Byte>, hex: seq<Byte>)
    ensures body + BytesOf("&sign=") + hex == body + [AMPERSAND] + SIGN + [EQUALS] + hex
  {
    assert BytesOf("&sign=") == [AMPERSAND] + SIGN + [EQUALS];
    assert body + ([AMPERSAND] + SIGN + [EQUALS]) == body + [AMPERSAND] + SIGN + [EQUALS];
  }

  lemma MaterialOfSigned(fields: seq<Pair>)
    requires Values(fields).Some?
    ensures Material(Signed(Values(fields).value)) == Material(Values(fields).value)
  {
    ValuesExist(fields);
    SignedSorts(Values(fields).value);
  }

  /** With ascending names and no item fields these are simply the decoded values, one after
      the other. */
  lemma AscendingAreSigned(fields: seq<Pair>, key: seq<Byte>, digest: seq<Byte> -> seq<Byte>)
    requires Decodable(fields) && forall k :: 0 <= k < |fields| ==> !ItemField(fields[k].0)
    requires forall i, j :: 0 <= i < j < |fields| ==> Less(fields[i].0, fields[j].0)
    ensures var body := Written(fields) + BytesOf("&sign=") + LowerHex(digest(Joined(DecodedValues(fields)) + key));
            SignedBody(fields, key, digest) == if |body| > 64 * 1024 then None else Some(body)
  {
    AscendingLists(fields);
    SignedAsSpelled(fields, DecodedValues(fields), key, digest);
  }

  function DecodedValues(fields: seq<Pair>): seq<Pair> {
    seq(|fields|, k requires 0 <= k < |fields| => (fields[k].0, FormDecode(fields[k].1)))
  }

  lemma EveryNameIsListed(fields: seq<Pair>)
    ensures forall f :: f in fields ==> exists k :: 0 <= k < |fields| && DecodedValues(fields)[k].0 == f.0
  {
    forall f | f in fields ensures exists k :: 0 <= k < |fields| && DecodedValues(fields)[k].0 == f.0 {
      var k :| 0 <= k < |fields| && fields[k] == f;
      assert DecodedValues(fields)[k].0 == f.0;
    }
  }

  lemma AscendingLists(fields: seq<Pair>)
    requires forall k :: 0 <= k < |fields| ==> !ItemField(fields[k].0)
    requires forall i, j :: 0 <= i < j < |fields| ==> Less(fields[i].0, fields[j].0)
    ensures Lists(DecodedValues(fields), fields)
  {
    forall k | 0 <= k < |fields| ensures LastValue(fields, fields[k].0) == Some(FormDecode(fields[k].1)) {
      AscendingDiffer(fields, k);
      OnlyValue(fields, k);
    }
    EveryNameIsListed(fields);
  }

  lemma AscendingDiffer(fields: seq<Pair>, k: nat)
    requires k < |fields| && forall i, j :: 0 <= i < j < |fields| ==> Less(fields[i].0, fields[j].0)
    ensures forall j :: 0 <= j < |fields| && j != k ==> fields[j].0 != fields[k].0
  {
    forall j | 0 <= j < |fields| && j != k ensures fields[j].0 != fields[k].0 {
      Trichotomy(fields[j].0, fields[k].0);
      assert if j < k then Less(fields[j].0, fields[k].0) else Less(fields[k].0, fields[j].0);
    }
  }

  lemma {:induction false} NoValue(fields: seq<Pair>, name: seq<Byte>)
    requires forall j :: 0 <= j < |fields| ==> fields[j].0 != name
    ensures Named(fields, name) == []
  {
    if fields != [] {
      NoValue(fields[..|fields| - 1], name);
    }
  }

  lemma {:induction false} OnlyValue(fields: seq<Pair>, k: nat)
    requires k < |fields| && forall j :: 0 <= j < |fields| && j != k ==> fields[j].0 != fields[k].0
    ensures Named(fields, fields[k].0) == [fields[k].1]
  {
    var init := fields[..|fields| - 1];
    if k < |init| {
      OnlyValue(init, k);
    } else {
      NoValue(init, fields[k].0);
    }
  }

  // ----- SdkHttpClient::form -----

  datatype User = User(uid: seq<Byte>, mid: seq<Byte>)

  const UID: seq<Byte> := [117, 105, 100]
  const MID: seq<Byte> := [109, 105, 100]
  const TIMESTAMP: seq<Byte> := [116, 105, 109, 101, 115, 116, 97, 109, 112]
  const WEB_CODE: seq<Byte> := [119, 101, 98, 95, 99, 111, 100, 101]

  predicate ValidUser(user: Option<User>) {
    user.Some? ==> 0 < |user.value.uid| <= 256 && |user.value.mid| <= 256
  }

  function UserFields(user: Option<User>): seq<Pair> {
    if user.None? then [] else [(UID, user.value.uid), (MID, user.value.mid)]
  }

  function EncodedField(p: Pair, alreadyEncoded: bool): Pair {
    (p.0, if alreadyEncoded then Encoded(p.1) else Raw(p.1))
  }

  function EncodedFields(fields: seq<Pair>, alreadyEncoded: bool): seq<Pair> {
    if fields == [] then []
    else [EncodedField(fields[0], alreadyEncoded)] + EncodedFields(fields[1..], alreadyEncoded)
  }

  function FormFields(fields: seq<Pair>, alreadyEncoded: bool, user: Option<User>, common: seq<Pair>, timestamp: nat)
    : seq<Pair>
  {
    EncodedFields(fields + UserFields(user), alreadyEncoded) + EncodedFields(common, true)
    + Trailer(timestamp)
  }

  lemma {:induction false} EncodedFieldsLast(fields: seq<Pair>, p: Pair, alreadyEncoded: bool)
    ensures EncodedFields(fields + [p], alreadyEncoded) ==
      EncodedFields(fields, alreadyEncoded) + [EncodedField(p, alreadyEncoded)]
  {
    if fields != [] {
      assert (fields + [p])[1..] == fields[1..] + [p];
      EncodedFieldsLast(fields[1..], p, alreadyEncoded);
    }
  }

  method EncodeFields(fields: seq<Pair>, alreadyEncoded: bool) returns (out: seq<Pair>)
    ensures out == EncodedFields(fields, alreadyEncoded)
  {
    out := [];
    for k := 0 to |fields|
      invariant out == EncodedFields(fields[..k], alreadyEncoded)
    {
      var value;
      if alreadyEncoded {
        value := Encode(fields[k].1);
      } else {
        value := EncodeRaw(fields[k].1);
      }
      assert fields[..k + 1] == fields[..k] + [fields[k]];
      EncodedFieldsLast(fields[..k], fields[k], alreadyEncoded);
      out := out + [(fields[k].0, value)];
    }
    assert fields[..|fields|] == fields;
  }

  method Build(fields: seq<Pair>, alreadyEncoded: bool, user: Option<User>, common: seq<Pair>, timestamp: nat,
               key: seq<Byte>, digest: seq<Byte> -> seq<Byte>) returns (r: Option<seq<Byte>>)
    ensures r == if ValidUser(user)
                 then SignedBody(FormFields(fields, alreadyEncoded, user, common, timestamp), key, digest)
                 else None
  {
    var all := fields;
    if user.Some? {
      if user.value.uid == [] || |user.value.uid| > 256 || |user.value.mid| > 256 {
        return None;
      }
      all := all + [(UID, user.value.uid)];
      all := all + [(MID, user.value.mid)];
    }
    assert all == fields + UserFields(user);
    var out := EncodeFields(all, alreadyEncoded);
    var shared := EncodeFields(common, true);
    out := out + shared;
    out := out + [(TIMESTAMP, Digits(timestamp))];
    out := out + [(WEB_CODE, [54])];
    assert out == FormFields(fields, alreadyEncoded, user, common, timestamp);
    r := SignForm(out, key, digest);
  }

  /** Parameter names are letters, digits and underscores. */
  predicate PlainName(name: seq<Byte>) {
    forall b :: b in name ==> Alphanumeric(b) || b == 95
  }

  predicate PlainNames(fields: seq<Pair>) {
    forall k :: 0 <= k < |fields| ==> PlainName(fields[k].0)
  }

  /** A server's reading of a body: every pair form-decoded. */
  function DecodedPairs(pairs: seq<Pair>): seq<Pair> {
    if pairs == [] then []
    else [(FormDecode(pairs[0].0), FormDecode(pairs[0].1))] + DecodedPairs(pairs[1..])
  }

  /** What the caller meant: raw values as they are, encoded ones decoded. */
  function MeantField(p: Pair, alreadyEncoded: bool): Pair {
    (p.0, if alreadyEncoded then FormDecode(Stripped(p.1)) else p.1)
  }

  function Meant(fields: seq<Pair>, alreadyEncoded: bool): seq<Pair> {
    if fields == [] then [] else [MeantField(fields[0], alreadyEncoded)] + Meant(fields[1..], alreadyEncoded)
  }

  lemma {:induction false} PlainDecodes(s: seq<Byte>)
    requires PlainName(s)
    ensures FormDecode(s) == s
  {
    if s != [] {
      FormDecodeStep(s);
      PlainDecodes(s[1..]);
      assert s[0] in s;
    }
  }

  lemma {:induction false} DigitsArePlain(n: nat)
    ensures PlainName(Digits(n))
  {
    if n >= 10 {
      DigitsArePlain(n / 10);
    }
  }

  lemma {:induction false} DecodedConcat(a: seq<Pair>, b: seq<Pair>)
    ensures DecodedPairs(a + b) == DecodedPairs(a) + DecodedPairs(b)
  {
    if a == [] {
      assert a + b == b;
    } else {
      assert (a + b)[1..] == a[1..] + b;
      DecodedConcat(a[1..], b);
    }
  }

  lemma FieldMeans(p: Pair, alreadyEncoded: bool)
    requires PlainName(p.0)
    ensures var out := EncodedField(p, alreadyEncoded);
            Separable(out) && (FormDecode(out.0), FormDecode(out.1)) == MeantField(p, alreadyEncoded)
  {
    PlainDecodes(p.0);
    DecodedEncoded(p.1);
    DecodedRaw(p.1);
    EncodedIsSeparable(if alreadyEncoded then p.1 else Uri(p.1));
    assert !Alphanumeric(AMPERSAND) && !Alphanumeric(EQUALS);
  }

  lemma {:induction false} EncodedFieldsMean(fields: seq<Pair>, alreadyEncoded: bool)
    requires PlainNames(fields)
    ensures DecodedPairs(EncodedFields(fields, alreadyEncoded)) == Meant(fields, alreadyEncoded)
    ensures forall p :: p in EncodedFields(fields, alreadyEncoded) ==> Separable(p)
  {
    if fields != [] {
      FieldMeans(fields[0], alreadyEncoded);
      EncodedFieldsMean(fields[1..], alreadyEncoded);
      assert EncodedFields(fields, alreadyEncoded)[1..] == EncodedFields(fields[1..], alreadyEncoded);
    }
  }

  function Trailer(timestamp: nat): seq<Pair> {
    [(TIMESTAMP, Digits(timestamp)), (WEB_CODE, [54])]
  }

  /** What the form adds to the caller's fields, spelled out. */
  lemma AddedFields(user: User, timestamp: nat)
    ensures UserFields(None) == []
    ensures UserFields(Some(user)) == [(BytesOf("uid"), user.uid), (BytesOf("mid"), user.mid)]
    ensures Trailer(timestamp) == [(BytesOf("timestamp"), Digits(timestamp)), (BytesOf("web_code"), BytesOf("6"))]
    ensures SIGN == BytesOf("sign")
  {
    assert UID == BytesOf("uid") && MID == BytesOf("mid");
    assert TIMESTAMP == BytesOf("timestamp") && WEB_CODE == BytesOf("web_code") && [54] == BytesOf("6");
  }

  lemma {:induction false} PlainPairs(pairs: seq<Pair>)
    requires forall k :: 0 <= k < |pairs| ==> PlainName(pairs[k].0) && PlainName(pairs[k].1)
    ensures DecodedPairs(pairs) == pairs
    ensures forall k :: 0 <= k < |pairs| ==> Separable(pairs[k])
  {
    if pairs != [] {
      PlainPairs(pairs[1..]);
      PlainDecodes(pairs[0].0);
      PlainDecodes(pairs[0].1);
      forall k | 0 <= k < |pairs| ensures Separable(pairs[k]) {
        assert !Alphanumeric(AMPERSAND) && !Alphanumeric(EQUALS);
      }
    }
  }

  lemma TrailerMeans(timestamp: nat)
    ensures DecodedPairs(Trailer(timestamp)) == Trailer(timestamp)
    ensures forall p :: p in Trailer(timestamp) ==> Separable(p)
  {
    DigitsArePlain(timestamp);
    PlainPairs(Trailer(timestamp));
  }

  lemma UserIsPlain(fields: seq<Pair>, user: Option<User>)
    requires PlainNames(fields)
    ensures PlainNames(fields + UserFields(user))
  {
    assert PlainNames(UserFields(user));
  }

  lemma {:induction false} FormFieldsMean(fields: seq<Pair>, alreadyEncoded: bool, common: seq<Pair>, last: seq<Pair>)
    requires PlainNames(fields) && PlainNames(common) && DecodedPairs(last) == last
    requires forall p :: p in last ==> Separable(p)
    ensures var out := EncodedFields(fields, alreadyEncoded) + EncodedFields(common, true) + last;
            DecodedPairs(out) == Meant(fields, alreadyEncoded) + Meant(common, true) + last &&
            forall p :: p in out ==> Separable(p)
  {
    EncodedFieldsMean(fields, alreadyEncoded);
    EncodedFieldsMean(common, true);
    var a, b := EncodedFields(fields, alreadyEncoded), EncodedFields(common, true);
    DecodedConcat(a, b);
    DecodedConcat(a + b, last);
  }

  lemma BodyMeans(out: seq<Pair>, key: seq<Byte>, digest: seq<Byte> -> seq<Byte>)
    requires forall p :: p in out ==> Separable(p)
    requires SignedBody(out, key, digest).Some?
    ensures DecodedPairs(Read(SignedBody(out, key, digest).value)) ==
              DecodedPairs(out) + DecodedPairs([(SIGN, Signature(out, key, digest).value)])
  {
    BodyReadsBack(out, key, digest);
    DecodedConcat(out, [(SIGN, Signature(out, key, digest).value)]);
  }

  /** Whoever receives the body reads the caller's fields, the user, the common
      parameters, the time and the web code, then the signature, and nothing else. */
  lemma ServerReads(fields: seq<Pair>, alreadyEncoded: bool, user: Option<User>, common: seq<Pair>, timestamp: nat,
                    key: seq<Byte>, digest: seq<Byte> -> seq<Byte>)
    requires PlainNames(fields) && PlainNames(common) && ValidUser(user)
    requires SignedBody(FormFields(fields, alreadyEncoded, user, common, timestamp), key, digest).Some?
    ensures var out := FormFields(fields, alreadyEncoded, user, common, timestamp);
            DecodedPairs(Read(SignedBody(out, key, digest).value)) ==
              Meant(fields + UserFields(user), alreadyEncoded) + Meant(common, true) + Trailer(timestamp)
              + DecodedPairs([(SIGN, Signature(out, key, digest).value)])
  {
    UserIsPlain(fields, user);
    TrailerMeans(timestamp);
    FormFieldsMean(fields + UserFields(user), alreadyEncoded, common, Trailer(timestamp));
    BodyMeans(FormFields(fields, alreadyEncoded, user, common, timestamp), key, digest);
  }
}
