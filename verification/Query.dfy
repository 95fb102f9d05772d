/** server/src/query_params.rs: the names a message allows and the values they take. */
module Query {
  import opened Basics
  import opened Bytes
  import opened Json
  import opened Splitting

  type Name = seq<Byte>
  // ----- Descriptors -----

  /** Field kinds that the scalar parser tells apart. */
  datatype Kind = Str | Int64 | Uint64 | Int32 | Uint32 | Enum | Boolean | Other

  datatype Shape = Leaf(kind: Kind, repeated: bool) | Message(fields: seq<Field>)
  datatype Field = Field(name: Name, shape: Shape)

  /** The first field of this name, or the number of fields. */
  function Index(fields: seq<Field>, name: Name): (i: nat)
    ensures i <= |fields| && (i < |fields| ==> fields[i].name == name)
  {
    if fields == [] || fields[0].name == name then 0 else 1 + Index(fields[1..], name)
  }

  /** The leaf at the end of a path of field names. */
  function LeafAt(shape: Shape, path: seq<Name>): Option<Shape>
    decreases |path|
  {
    if shape.Leaf? then if path == [] then Some(shape) else None
    else if path == [] || Index(shape.fields, path[0]) == |shape.fields| then None
    else LeafAt(shape.fields[Index(shape.fields, path[0])].shape, path[1..])
  }

  /** The query names of a message: dotted for the fields of nested messages. */
  function Leaves(fields: seq<Field>, prefix: Name): seq<(Name, Shape)> {
    if fields == [] then []
    else
      var name := prefix + fields[0].name;
      (if fields[0].shape.Leaf? then [(name, fields[0].shape)] else Leaves(fields[0].shape.fields, name + [DOT]))
      + Leaves(fields[1..], prefix)
  }

  function Find(leaves: seq<(Name, Shape)>, key: Name): Option<Shape> {
    if leaves == [] then None else if leaves[0].0 == key then Some(leaves[0].1) else Find(leaves[1..], key)
  }

  /** The leaves of one field. */
  function OwnLeaves(f: Field, prefix: Name): seq<(Name, Shape)> {
    if f.shape.Leaf? then [(prefix + f.name, f.shape)] else Leaves(f.shape.fields, prefix + f.name + [DOT])
  }

  lemma {:induction false} LeavesLast(fields: seq<Field>, f: Field, prefix: Name)
    ensures Leaves(fields + [f], prefix) == Leaves(fields, prefix) + OwnLeaves(f, prefix)
  {
    if fields == [] {
      assert [f][1..] == [];
    } else {
      assert (fields + [f])[1..] == fields[1..] + [f];
      LeavesLast(fields[1..], f, prefix);
    }
  }

  method Collect(fields: seq<Field>, prefix: Name) returns (out: seq<(Name, Shape)>)
    ensures out == Leaves(fields, prefix)
    decreases fields
  {
    out := [];
    for k := 0 to |fields|
      invariant out == Leaves(fields[..k], prefix)
    {
      var f := fields[k];
      assert fields[..k + 1] == fields[..k] + [f];
      LeavesLast(fields[..k], f, prefix);
      var name := prefix + f.name;
      var more;
      match f.shape {
        case Message(nested) => more := Collect(nested, name + [DOT]);
        case Leaf(_, _) => more := [(name, f.shape)];
      }
      out := out + more;
    }
    assert fields[..|fields|] == fields;
  }

  /** Protobuf's rules for the JSON names of a message's fields. */
  predicate WellNamed(shape: Shape) {
    shape.Message? ==>
      && (forall i :: 0 <= i < |shape.fields| ==> DOT !in shape.fields[i].name && WellNamed(shape.fields[i].shape))
      && forall i, j :: 0 <= i < j < |shape.fields| ==> shape.fields[i].name != shape.fields[j].name
  }

  lemma {:induction false} FindConcat(a: seq<(Name, Shape)>, b: seq<(Name, Shape)>, key: Name)
    ensures Find(a + b, key) == if Find(a, key).Some? then Find(a, key) else Find(b, key)
  {
    if a == [] {
      assert a + b == b;
    } else {
      assert (a + b)[1..] == a[1..] + b;
      FindConcat(a[1..], b, key);
    }
  }

  function PathOf(key: Name): seq<Name> {
    Split(key, DOT)
  }

  lemma SplitPlain(name: Name, rest: Name)
    requires DOT !in name
    ensures PathOf(rest)[0] == name <==> rest == name || (|rest| > |name| && rest[..|name| + 1] == name + [DOT])
    ensures rest == name <==> PathOf(rest) == [name]
    ensures |rest| > |name| && rest[..|name| + 1] == name + [DOT] ==>
            PathOf(rest) == [name] + PathOf(rest[|name| + 1..])
  {
    CutParts(rest, DOT);
    if rest == name {
      CutNowhere(name, DOT);
    } else if |rest| > |name| && rest[..|name| + 1] == name + [DOT] {
      assert rest == name + [DOT] + rest[|name| + 1..];
      CutAt(name, DOT, rest[|name| + 1..]);
      JoinSplit(rest[|name| + 1..], DOT);
    }
  }

  lemma {:induction false} OtherNames(fields: seq<Field>, name: Name)
    requires forall i :: 0 <= i < |fields| ==> fields[i].name != name
    ensures Index(fields, name) == |fields|
  {
    if fields != [] {
      OtherNames(fields[1..], name);
    }
  }

  /** Every collected name starts with the prefix. */
  lemma {:induction false} LeavesArePrefixed(fields: seq<Field>, prefix: Name, key: Name)
    requires Find(Leaves(fields, prefix), key).Some?
    ensures prefix <= key
    decreases fields
  {
    if fields != [] {
      var name := prefix + fields[0].name;
      var first := OwnLeaves(fields[0], prefix);
      FindConcat(first, Leaves(fields[1..], prefix), key);
      if Find(first, key).Some? {
        if fields[0].shape.Message? {
          LeavesArePrefixed(fields[0].shape.fields, name + [DOT], key);
        } else {
          assert first[1..] == [];
        }
      } else {
        LeavesArePrefixed(fields[1..], prefix, key);
      }
    }
  }

  lemma FindNested(nested: seq<Field>, prefix: Name, name: Name, rest: Name)
    requires Find(Leaves(nested, prefix + name + [DOT]), prefix + rest).Some?
    ensures |rest| > |name| && rest[..|name| + 1] == name + [DOT]
  {
    var long, key := prefix + name + [DOT], prefix + rest;
    LeavesArePrefixed(nested, long, key);
    assert key[..|long|] == long;
    assert rest[..|name| + 1] == key[|prefix|..|long|] == long[|prefix|..] == name + [DOT];
  }

  lemma WalkFirst(fields: seq<Field>, path: seq<Name>)
    requires fields != [] && path != []
    ensures LeafAt(Message(fields), path) ==
      if path[0] == fields[0].name then LeafAt(fields[0].shape, path[1..]) else LeafAt(Message(fields[1..]), path)
  {}

  lemma OwnLeaf(f: Field, prefix: Name, rest: Name)
    requires f.shape.Leaf? && DOT !in f.name
    ensures Find(OwnLeaves(f, prefix), prefix + rest) ==
      if PathOf(rest)[0] == f.name then LeafAt(f.shape, PathOf(rest)[1..]) else None
  {
    SplitPlain(f.name, rest);
    var first := OwnLeaves(f, prefix);
    assert first[1..] == [];
    assert prefix + f.name == prefix + rest <==> f.name == rest by {
      assert (prefix + rest)[|prefix|..] == rest && (prefix + f.name)[|prefix|..] == f.name;
    }
    if |rest| > |f.name| && rest[..|f.name| + 1] == f.name + [DOT] {
      JoinSplit(rest[|f.name| + 1..], DOT);
      assert PathOf(rest)[1..] == PathOf(rest[|f.name| + 1..]);
    }
  }

  /** Looking a dotted name up in the collected list is walking its path. */
  lemma {:induction false} FindIsLeafAt(fields: seq<Field>, prefix: Name, rest: Name)
    requires WellNamed(Message(fields))
    ensures Find(Leaves(fields, prefix), prefix + rest) == LeafAt(Message(fields), PathOf(rest))
    decreases fields, 1
  {
    JoinSplit(rest, DOT);
    if fields != [] {
      var f, others := fields[0], fields[1..];
      WellNamedRest(fields);
      FindIsLeafAt(others, prefix, rest);
      WalkFirst(fields, PathOf(rest));
      FindConcat(OwnLeaves(f, prefix), Leaves(others, prefix), prefix + rest);
      if PathOf(rest)[0] == f.name {
        OtherNames(others, f.name);
      }
      if f.shape.Leaf? {
        OwnLeaf(f, prefix, rest);
      } else {
        OwnMessage(fields, prefix, rest);
      }
    }
  }

  lemma WellNamedRest(fields: seq<Field>)
    requires WellNamed(Message(fields)) && fields != []
    ensures WellNamed(Message(fields[1..])) && DOT !in fields[0].name && WellNamed(fields[0].shape)
    ensures forall i :: 0 <= i < |fields[1..]| ==> fields[1..][i].name != fields[0].name
  {
    assert forall i :: 0 <= i < |fields[1..]| ==> fields[1..][i] == fields[i + 1];
  }

  lemma {:induction false} OwnMessage(fields: seq<Field>, prefix: Name, rest: Name)
    requires fields != [] && fields[0].shape.Message? && DOT !in fields[0].name && WellNamed(fields[0].shape)
    ensures Find(OwnLeaves(fields[0], prefix), prefix + rest) ==
      if PathOf(rest) != [] && PathOf(rest)[0] == fields[0].name then LeafAt(fields[0].shape, PathOf(rest)[1..])
      else None
    decreases fields, 0
  {
    var f := fields[0];
    var nested, long := f.shape.fields, prefix + f.name + [DOT];
    SplitPlain(f.name, rest);
    if |rest| > |f.name| && rest[..|f.name| + 1] == f.name + [DOT] {
      var tail := rest[|f.name| + 1..];
      assert rest == f.name + [DOT] + tail;
      assert prefix + rest == long + tail;
      FindIsLeafAt(nested, long, tail);
    } else if Find(Leaves(nested, long), prefix + rest).Some? {
      FindNested(nested, prefix, f.name, rest);
    }
  }

  // ----- Values -----

  const TRUE: seq<Byte> := [116, 114, 117, 101]
  const FALSE: seq<Byte> := [102, 97, 108, 115, 101]

  /** Digits, after a minus sign where the type has one. */
  predicate Numeral(text: seq<Byte>, signed: bool) {
    if signed && text != [] && text[0] == MINUS then |text| > 1 && AllDigits(text[1..])
    else text != [] && AllDigits(text)
  }

  function Value(text: seq<Byte>, signed: bool): int
    requires Numeral(text, signed)
  {
    if signed && text[0] == MINUS then 0 - Number(text[1..]) else Number(text)
  }

  function Shown(v: int): seq<Byte> {
    if v < 0 then [MINUS] + Digits(-v) else Digits(v)
  }

  predicate Signed(kind: Kind) {
    kind == Int64 || kind == Int32 || kind == Enum
  }

  /** The range of an integer kind. */
  predicate InRange(kind: Kind, v: int) {
    match kind
    case Int64 => -0x8000_0000_0000_0000 <= v < 0x8000_0000_0000_0000
    case Uint64 => 0 <= v < 0x1_0000_0000_0000_0000
    case Int32 | Enum => -0x8000_0000 <= v < 0x8000_0000
    case Uint32 => 0 <= v < 0x1_0000_0000
    case Str | Boolean | Other => false
  }

  function Integer(kind: Kind, text: seq<Byte>): Option<Json> {
    if !Numeral(text, Signed(kind)) || !InRange(kind, Value(text, Signed(kind))) then None
    else
      var v := Value(text, Signed(kind));
      Some(if kind == Int64 || kind == Uint64 then Text(Shown(v)) else Num(v as real))
  }

  /** The JSON value of a parameter, as protobuf's JSON mapping writes it. */
  function Scalar(kind: Kind, text: seq<Byte>): Option<Json> {
    match kind
    case Str => Some(Text(text))
    case Int64 | Uint64 | Int32 | Uint32 => Integer(kind, text)
    case Enum => if Numeral(text, true) then Integer(kind, text) else Some(Text(text))
    case Boolean => if text == TRUE || text == FALSE then Some(Bool(text == TRUE)) else None
    case Other => None
  }

  lemma DigitsAreNumeral(s: seq<Byte>, signed: bool)
    requires s != [] && AllDigits(s)
    ensures Numeral(s, signed) && Value(s, signed) == Number(s)
    ensures Numeral([MINUS] + s, true) && Value([MINUS] + s, true) == 0 - Number(s)
  {
    assert Digit(s[0]);
    assert ([MINUS] + s)[1..] == s;
  }

  lemma ShownValue(v: int, signed: bool)
    requires signed || v >= 0
    ensures Numeral(Shown(v), signed) && Value(Shown(v), signed) == v
  {
    var n: nat := if v < 0 then -v else v;
    NumberDigits(n);
    DigitsAreNumeral(Digits(n), signed);
  }

  /** Integers keep their value to the last digit, however they are written: two texts
      of one kind give the same JSON value exactly when they denote the same number. */
  lemma IntegersKeepTheirValue(kind: Kind, a: seq<Byte>, b: seq<Byte>)
    requires kind == Int64 || kind == Uint64 || kind == Int32 || kind == Uint32
    ensures Scalar(kind, a).Some? <==> Numeral(a, Signed(kind)) && InRange(kind, Value(a, Signed(kind)))
    ensures Scalar(kind, a).Some? && Scalar(kind, b).Some? ==>
      (Scalar(kind, a) == Scalar(kind, b) <==> Value(a, Signed(kind)) == Value(b, Signed(kind)))
  {
    if Scalar(kind, a).Some? && Scalar(kind, b).Some? {
      ShownValue(Value(a, Signed(kind)), Signed(kind));
      ShownValue(Value(b, Signed(kind)), Signed(kind));
    }
  }

  /** No superfluous zeros, and no minus sign before zero. */
  predicate Canonical(text: seq<Byte>, signed: bool)
    requires Numeral(text, signed)
  {
    if signed && text[0] == MINUS then text[1] != 48 else |text| == 1 || text[0] != 48
  }

  lemma {:induction false} DigitsAreCanonical(n: nat)
    ensures Digits(n)[0] == 48 <==> n == 0
    ensures n == 0 ==> |Digits(n)| == 1
  {
    if n >= 10 {
      DigitsAreCanonical(n / 10);
    }
  }

  lemma ShownIsCanonical(v: int, signed: bool)
    requires signed || v >= 0
    ensures Numeral(Shown(v), signed) && Canonical(Shown(v), signed)
  {
    ShownValue(v, signed);
    DigitsAreCanonical(if v < 0 then -v else v);
  }

  /** What a parameter's JSON value says: 64-bit integers are shown as text without
      superfluous characters, smaller ones as numbers of the same value, true and false as
      truth values, and texts and names as they are. */
  predicate Says(kind: Kind, text: seq<Byte>, json: Json) {
    match kind
    case Str => json == Text(text)
    case Int64 | Uint64 =>
      && json.Text? && Numeral(text, Signed(kind)) && Numeral(json.text, Signed(kind))
      && Canonical(json.text, Signed(kind)) && Value(json.text, Signed(kind)) == Value(text, Signed(kind))
    case Int32 | Uint32 =>
      Numeral(text, Signed(kind)) && json == Num(Value(text, Signed(kind)) as real)
    case Enum => if Numeral(text, true) then json == Num(Value(text, true) as real) else json == Text(text)
    case Boolean => (text == BytesOf("true") && json == Bool(true)) || (text == BytesOf("false") && json == Bool(false))
    case Other => false
  }

  /** A parameter is accepted exactly if it can be read as its kind, and its JSON value says
      the same. */
  lemma ScalarsSay(kind: Kind, text: seq<Byte>)
    ensures Scalar(kind, text).Some? ==> Says(kind, text, Scalar(kind, text).value)
    ensures Scalar(kind, text).Some? <==>
      match kind
      case Str => true
      case Int64 | Uint64 | Int32 | Uint32 => Numeral(text, Signed(kind)) && InRange(kind, Value(text, Signed(kind)))
      case Enum => Numeral(text, true) ==> -0x8000_0000 <= Value(text, true) < 0x8000_0000
      case Boolean => text == BytesOf("true") || text == BytesOf("false")
      case Other => false
  {
    assert BytesOf("true") == TRUE && BytesOf("false") == FALSE;
    if (kind == Int64 || kind == Uint64) && Scalar(kind, text).Some? {
      ShownValue(Value(text, Signed(kind)), Signed(kind));
      ShownIsCanonical(Value(text, Signed(kind)), Signed(kind));
    }
  }
}
