/** server/src/path_routes.rs: readable paths turned into query strings. */
module PathRoutes {
  import opened Basics
  import opened Bytes
  import opened Pairs
  import opened Splitting
  import opened WebForm

  /** A path parameter, the query field it fills and whether it is a comma-separated list. */
  datatype Field = Field(param: seq<Byte>, name: seq<Byte>, list: bool)

  type Params = map<seq<Byte>, seq<Byte>>

  const MAX_QUERY: nat := 8192
  const MAX_ITEMS: nat := 100

  /** Characters below U+0020 and from U+007F to U+009F. */
  predicate HasControl(s: seq<Byte>) {
    exists k :: 0 <= k < |s| && (s[k] < 32 || s[k] == 127 || (s[k] == 0xC2 && k + 1 < |s| && s[k + 1] <= 0x9F))
  }

  predicate Acceptable(value: seq<Byte>) {
    value != [] && |value| <= MAX_QUERY && !HasControl(value)
  }

  predicate AcceptableList(values: seq<seq<Byte>>) {
    |values| <= MAX_ITEMS && [] !in values
  }

  function Labelled(name: seq<Byte>, values: seq<seq<Byte>>): seq<Pair> {
    seq(|values|, k requires 0 <= k < |values| => (name, values[k]))
  }

  /** The pairs that one field of a path contributes. */
  function FieldPairs(f: Field, params: Params): Option<seq<Pair>> {
    if f.param !in params || !Acceptable(params[f.param]) then None
    else if !f.list then Some([(f.name, params[f.param])])
    else
      var values := Split(params[f.param], COMMA);
      if AcceptableList(values) then Some(Labelled(f.name, values)) else None
  }

  function PathPairs(fields: seq<Field>, params: Params): Option<seq<Pair>> {
    if fields == [] then Some([])
    else
      var before := PathPairs(fields[..|fields| - 1], params);
      var last := FieldPairs(fields[|fields| - 1], params);
      if before.Some? && last.Some? then Some(before.value + last.value) else None
  }

  predicate Bound(fields: seq<Field>, name: seq<Byte>) {
    exists k :: 0 <= k < |fields| && fields[k].name == name
  }

  predicate Overrides(fields: seq<Field>, pairs: seq<Pair>) {
    exists k :: 0 <= k < |pairs| && Bound(fields, pairs[k].0)
  }

  function Given(raw: Option<seq<Byte>>): seq<Byte> {
    if raw.Some? then raw.value else []
  }

  function Joined(text: seq<Byte>, rest: seq<Byte>): seq<Byte> {
    if rest == [] then text else text + [AMPERSAND] + rest
  }

  function PathQuery(fields: seq<Field>, params: Params, raw: Option<seq<Byte>>, lossy: seq<Byte> -> seq<Byte>)
    : Option<seq<Byte>>
  {
    var rest := Given(raw);
    var pairs := PathPairs(fields, params);
    if |rest| > MAX_QUERY || Overrides(fields, Parsed(rest, lossy)) || pairs.None? then None
    else
      var text := Joined(Written(SerializedPairs(pairs.value)), rest);
      if |text| > MAX_QUERY then None else Some(text)
  }

  lemma SerializedLast(pairs: seq<Pair>, p: Pair)
    ensures Written(SerializedPairs(pairs + [p])) == Appended(Written(SerializedPairs(pairs)), SerializedPair(p))
  {
    assert (pairs + [p])[..|pairs|] == pairs;
    var all := SerializedPairs(pairs + [p]);
    assert all == SerializedPairs(pairs) + [SerializedPair(p)];
    assert all[..|all| - 1] == SerializedPairs(pairs);
  }

  lemma {:induction false} Refused(fields: seq<Field>, params: Params, k: nat)
    requires k < |fields| && FieldPairs(fields[k], params) == None
    ensures PathPairs(fields, params) == None
  {
    if k < |fields| - 1 {
      Refused(fields[..|fields| - 1], params, k);
    }
  }

  lemma LabelledLast(before: seq<Pair>, name: seq<Byte>, values: seq<seq<Byte>>, k: nat)
    requires k < |values|
    ensures before + Labelled(name, values[..k + 1]) == before + Labelled(name, values[..k]) + [(name, values[k])]
  {
    assert Labelled(name, values[..k + 1]) == Labelled(name, values[..k]) + [(name, values[k])];
  }

  method AppendItems(name: seq<Byte>, values: seq<seq<Byte>>, text: seq<Byte>, ghost before: seq<Pair>)
    returns (out: seq<Byte>)
    requires text == Written(SerializedPairs(before))
    ensures out == Written(SerializedPairs(before + Labelled(name, values)))
  {
    out := text;
    ghost var done := before;
    for k := 0 to |values|
      invariant done == before + Labelled(name, values[..k])
      invariant out == Written(SerializedPairs(done))
    {
      var p := (name, values[k]);
      LabelledLast(before, name, values, k);
      SerializedLast(done, p);
      out := Appended(out, SerializedPair(p));
      done := done + [p];
    }
    assert values[..|values|] == values;
  }

  /** Appends one field to the text; the flag tells whether it was acceptable. */
  method AppendField(f: Field, params: Params, text: seq<Byte>, ghost before: seq<Pair>)
    returns (ok: bool, out: seq<Byte>)
    requires text == Written(SerializedPairs(before))
    ensures ok == FieldPairs(f, params).Some?
    ensures ok ==> out == Written(SerializedPairs(before + FieldPairs(f, params).value))
  {
    if f.param !in params || !Acceptable(params[f.param]) {
      return false, text;
    }
    var value := params[f.param];
    if !f.list {
      SerializedLast(before, (f.name, value));
      return true, Appended(text, SerializedPair((f.name, value)));
    }
    var values := Split(value, COMMA);
    if !AcceptableList(values) {
      return false, text;
    }
    out := AppendItems(f.name, values, text, before);
    ok := true;
  }

  method AppendFields(fields: seq<Field>, params: Params) returns (r: Option<seq<Byte>>)
    ensures r == var pairs := PathPairs(fields, params);
                 if pairs.None? then None else Some(Written(SerializedPairs(pairs.value)))
  {
    var text: seq<Byte> := [];
    ghost var done: seq<Pair> := [];
    for k := 0 to |fields|
      invariant PathPairs(fields[..k], params) == Some(done)
      invariant text == Written(SerializedPairs(done))
    {
      assert fields[..k + 1][..k] == fields[..k];
      var ok, out := AppendField(fields[k], params, text, done);
      if !ok {
        Refused(fields, params, k);
        return None;
      }
      text := out;
      done := done + FieldPairs(fields[k], params).value;
    }
    assert fields[..|fields|] == fields;
    r := Some(text);
  }

  method Conflicts(fields: seq<Field>, pairs: seq<Pair>) returns (r: bool)
    ensures r == Overrides(fields, pairs)
  {
    for k := 0 to |pairs|
      invariant forall i :: 0 <= i < k ==> !Bound(fields, pairs[i].0)
    {
      if Bound(fields, pairs[k].0) {
        return true;
      }
    }
    r := false;
  }

  method Translate(fields: seq<Field>, params: Params, raw: Option<seq<Byte>>, lossy: seq<Byte> -> seq<Byte>)
    returns (r: Option<seq<Byte>>)
    ensures r == PathQuery(fields, params, raw, lossy)
  {
    var rest := Given(raw);
    if |rest| > MAX_QUERY {
      return None;
    }
    var conflict := Conflicts(fields, Parsed(rest, lossy));
    if conflict {
      return None;
    }
    var text := AppendFields(fields, params);
    if text.None? {
      return None;
    }
    var out := text.value;
    if rest != [] {
      out := out + [AMPERSAND];
      out := out + rest;
    }
    r := if |out| > MAX_QUERY then None else Some(out);
  }

  // ----- What a query string says -----

  predicate Utf8Params(fields: seq<Field>, params: Params) {
    (forall p :: p in params ==> Utf8(params[p])) && forall k :: 0 <= k < |fields| ==> Utf8(fields[k].name)
  }

  lemma {:induction false} SplitUtf8(s: seq<Byte>, sep: Byte)
    requires Utf8(s) && sep <= 0x7F
    ensures forall part :: part in Split(s, sep) ==> Utf8(part)
    decreases |s|
  {
    var (head, rest) := Cut(s, sep);
    CutParts(s, sep);
    if rest.Some? {
      assert s == head + [sep] + rest.value;
      Utf8Cut(head, sep, rest.value);
      SplitUtf8(rest.value, sep);
    } else {
      assert s == head;
    }
  }

  /** A field contributes its value, or the items of its list in order, duplicates
      included: joined by commas they are the value again. */
  lemma FieldPairsMean(f: Field, params: Params)
    requires FieldPairs(f, params).Some? && Utf8(f.name) && Utf8(params[f.param])
    ensures var values := Named(FieldPairs(f, params).value, f.name);
            FieldPairs(f, params).value == Labelled(f.name, values) &&
            Join(values, COMMA) == params[f.param] && 0 < |values| <= MAX_ITEMS && [] !in values &&
            (if f.list then forall v :: v in values ==> COMMA !in v else |values| == 1)
    ensures Utf8Pairs(FieldPairs(f, params).value)
  {
    var value := params[f.param];
    if f.list {
      JoinSplit(value, COMMA);
      SplitUtf8(value, COMMA);
      NamedLabelled(f.name, Split(value, COMMA));
    } else {
      NamedLabelled(f.name, [value]);
      assert FieldPairs(f, params).value == Labelled(f.name, [value]);
    }
  }

  lemma {:induction false} NamedLabelled(name: seq<Byte>, values: seq<seq<Byte>>)
    ensures Named(Labelled(name, values), name) == values
  {
    if values != [] {
      var init := values[..|values| - 1];
      NamedLabelled(name, init);
      assert Labelled(name, values)[..|values| - 1] == Labelled(name, init);
    }
  }

  lemma {:induction false} PathPairsMean(fields: seq<Field>, params: Params)
    requires Utf8Params(fields, params) && PathPairs(fields, params).Some?
    ensures Utf8Pairs(PathPairs(fields, params).value)
    ensures forall p :: p in PathPairs(fields, params).value ==> Bound(fields, p.0)
  {
    if fields != [] {
      var init, f := fields[..|fields| - 1], fields[|fields| - 1];
      PathPairsMean(init, params);
      FieldPairsMean(f, params);
      forall p | p in PathPairs(fields, params).value ensures Bound(fields, p.0) {
        if p in PathPairs(init, params).value {
          var k :| 0 <= k < |init| && init[k].name == p.0;
          assert fields[k].name == p.0;
        } else {
          assert fields[|fields| - 1].name == p.0;
        }
      }
    }
  }

  lemma ParsedJoined(text: seq<Byte>, rest: seq<Byte>, lossy: seq<Byte> -> seq<Byte>)
    ensures Parsed(Joined(text, rest), lossy) == Parsed(text, lossy) + Parsed(rest, lossy)
  {
    if rest == [] {
      ReadNothing();
    } else {
      ParsedConcat(text, rest, lossy);
    }
  }

  /** Parsing the query string of an accepted path gives the pairs of the path, then
      exactly those of the caller's query, none of which names a field of the path. */
  lemma PathThenQuery(fields: seq<Field>, params: Params, raw: Option<seq<Byte>>, lossy: seq<Byte> -> seq<Byte>)
    requires Faithful(lossy) && Utf8Params(fields, params)
    requires PathQuery(fields, params, raw, lossy).Some?
    ensures var text := PathQuery(fields, params, raw, lossy).value;
            |text| <= MAX_QUERY && PathPairs(fields, params).Some? &&
            Parsed(text, lossy) == PathPairs(fields, params).value + Parsed(Given(raw), lossy)
    ensures forall p :: p in Parsed(Given(raw), lossy) ==> !Bound(fields, p.0)
  {
    var pairs := PathPairs(fields, params).value;
    PathPairsMean(fields, params);
    ParsedSerialized(pairs, lossy);
    ParsedJoined(Written(SerializedPairs(pairs)), Given(raw), lossy);
    forall p | p in Parsed(Given(raw), lossy) ensures !Bound(fields, p.0) {
      var k :| 0 <= k < |Parsed(Given(raw), lossy)| && Parsed(Given(raw), lossy)[k] == p;
    }
  }

  /** A query can neither add to a field of the path nor replace it, and a path leaves
      every other field of the query alone. */
  lemma PathFieldsAreFixed(fields: seq<Field>, params: Params, raw: Option<seq<Byte>>, lossy: seq<Byte> -> seq<Byte>,
                           name: seq<Byte>)
    requires Faithful(lossy) && Utf8Params(fields, params)
    requires PathQuery(fields, params, raw, lossy).Some?
    ensures Named(Parsed(PathQuery(fields, params, raw, lossy).value, lossy), name) ==
            if Bound(fields, name) then Named(PathPairs(fields, params).value, name)
            else Named(Parsed(Given(raw), lossy), name)
  {
    PathThenQuery(fields, params, raw, lossy);
    PathPairsMean(fields, params);
    var a, b := PathPairs(fields, params).value, Parsed(Given(raw), lossy);
    NamedConcat(a, b, name);
    NotNamed(if Bound(fields, name) then b else a, name);
  }

  // ----- Which paths are accepted -----

  /** A path parameter is acceptable: there, not empty, not too long and without control
      characters; as a list, of at most 100 items, none of them empty. */
  predicate GoodParam(f: Field, params: Params) {
    && f.param in params
    && var value := params[f.param];
       && 0 < |value| <= 8192
       && (forall k :: 0 <= k < |value| ==> 32 <= value[k] && value[k] != 127)
       && (forall k :: 0 <= k < |value| - 1 ==> !(value[k] == 0xC2 && value[k + 1] <= 0x9F))
       && (f.list ==>
             var items := Split(value, COMMA);
             |items| <= 100 && forall i :: 0 <= i < |items| ==> items[i] != [])
  }

  lemma GoodParams(f: Field, params: Params)
    ensures FieldPairs(f, params).Some? <==> GoodParam(f, params)
  {
  }

  lemma {:induction false} PathPairsExist(fields: seq<Field>, params: Params)
    ensures PathPairs(fields, params).Some? <==> forall k :: 0 <= k < |fields| ==> GoodParam(fields[k], params)
  {
    if fields != [] {
      PathPairsExist(fields[..|fields| - 1], params);
      GoodParams(fields[|fields| - 1], params);
    }
  }

  /** The length of the query string that a path is translated to. */
  function TextLength(fields: seq<Field>, params: Params, raw: Option<seq<Byte>>): nat {
    var pairs := PathPairs(fields, params);
    (if pairs.None? then 0 else |Written(SerializedPairs(pairs.value))|)
    + (if Given(raw) == [] then 0 else 1 + |Given(raw)|)
  }

  lemma BoundsNothing(fields: seq<Field>, pairs: seq<Pair>)
    ensures Overrides(fields, pairs) <==> exists p :: p in pairs && Bound(fields, p.0)
  {
    if p :| p in pairs && Bound(fields, p.0) {
      var k :| 0 <= k < |pairs| && pairs[k] == p;
    }
  }

  /** A path is accepted exactly if every parameter of it is acceptable, the caller's query
      names none of its fields, and neither that query nor the whole is over 8 KiB. */
  lemma AcceptedExactly(fields: seq<Field>, params: Params, raw: Option<seq<Byte>>, lossy: seq<Byte> -> seq<Byte>)
    ensures PathQuery(fields, params, raw, lossy).Some? <==>
      && (forall k :: 0 <= k < |fields| ==> GoodParam(fields[k], params))
      && |Given(raw)| <= 8192 && !(exists p :: p in Parsed(Given(raw), lossy) && Bound(fields, p.0))
      && TextLength(fields, params, raw) <= 8192
  {
    PathPairsExist(fields, params);
    BoundsNothing(fields, Parsed(Given(raw), lossy));
  }
}
