/** A readable path and the query it stands for (server/src/path_routes.rs together with
    server/src/query_params.rs). */
module Aliases {
  import opened Basics
  import opened Bytes
  import opened Pairs
  import opened WebForm
  import PathRoutes
  import Query
  import QueryObject

  // ----- Strict texts compose -----

  lemma UnitOfWhole(a: seq<Byte>, b: seq<Byte>)
    requires a != [] && 0 < Utf8Unit(a) <= |a|
    ensures Utf8Unit(a + b) == Utf8Unit(a)
  {
    assert forall k :: 0 <= k < |a| ==> (a + b)[k] == a[k];
    assert forall k: nat :: Continuation(a, k) ==> Continuation(a + b, k);
  }

  lemma {:induction false} Utf8Concat(a: seq<Byte>, b: seq<Byte>)
    requires Utf8(a) && Utf8(b)
    ensures Utf8(a + b)
    decreases |a|
  {
    if a == [] {
      assert a + b == b;
    } else {
      var u := Utf8Unit(a);
      UnitOfWhole(a, b);
      assert (a + b)[u..] == a[u..] + b;
      Utf8Concat(a[u..], b);
    }
  }

  lemma WellEscapedConcat(a: seq<Byte>, b: seq<Byte>)
    requires WellEscaped(a) && WellEscaped(b)
    ensures WellEscaped(a + b)
  {
    var s := a + b;
    forall k | 0 <= k < |s| && s[k] == PERCENT ensures k + 2 < |s| && Hex(s[k + 1]) && Hex(s[k + 2]) {
      if k < |a| {
        assert a[k] == PERCENT;
      } else {
        assert b[k - |a|] == PERCENT;
      }
    }
  }

  lemma {:induction false} PercentDecodeConcat(a: seq<Byte>, b: seq<Byte>)
    requires WellEscaped(a)
    ensures PercentDecode(a + b) == PercentDecode(a) + PercentDecode(b)
    decreases |a|
  {
    if a == [] {
      assert a + b == b;
    } else {
      var u := if Escaped(a) then 3 else 1;
      assert Escaped(a + b) == Escaped(a);
      assert (a + b)[u..] == a[u..] + b;
      WellEscapedTail(a, u);
      PercentDecodeConcat(a[u..], b);
    }
  }

  lemma StrictConcat(a: seq<Byte>, b: seq<Byte>)
    requires Strict(a) && Strict(b)
    ensures Strict(a + b)
  {
    WellEscapedConcat(a, b);
    PercentDecodeConcat(a, b);
    Utf8Concat(PercentDecode(a), PercentDecode(b));
  }

  lemma StrictAscii(b: Byte)
    requires b <= 0x7F && b != PERCENT
    ensures Strict([b])
  {
    assert [b][1..] == [];
    assert PercentDecode([b]) == [b];
  }

  lemma SerializedByteDecodes(b: Byte)
    ensures WellEscaped(SerializedByte(b)) && Swapped([b], PercentDecode(SerializedByte(b)))
  {
    var s := SerializedByte(b);
    if Unchanged(b) || b == SPACE {
      assert s[1..] == [];
    } else {
      assert s == Escape(b) && s[3..] == [];
    }
  }

  lemma {:induction false} SerializedSwaps(s: seq<Byte>)
    ensures WellEscaped(Serialized(s)) && Swapped(s, PercentDecode(Serialized(s)))
  {
    if s != [] {
      SerializedByteDecodes(s[0]);
      SerializedSwaps(s[1..]);
      WellEscapedConcat(SerializedByte(s[0]), Serialized(s[1..]));
      PercentDecodeConcat(SerializedByte(s[0]), Serialized(s[1..]));
    }
  }

  lemma SerializedIsStrict(s: seq<Byte>)
    requires Utf8(s)
    ensures Strict(Serialized(s))
  {
    SerializedSwaps(s);
    Utf8Swap(s, PercentDecode(Serialized(s)));
  }

  lemma AssignmentIsStrict(p: Pair)
    requires Strict(p.0) && Strict(p.1)
    ensures Strict(Assignment(p))
  {
    StrictAscii(EQUALS);
    StrictConcat(p.0, [EQUALS]);
    StrictConcat(p.0 + [EQUALS], p.1);
  }

  lemma JoinedIsStrict(a: seq<Byte>, b: seq<Byte>)
    requires Strict(a) && Strict(b)
    ensures Strict(a + [AMPERSAND] + b)
  {
    StrictAscii(AMPERSAND);
    StrictConcat(a, [AMPERSAND]);
    StrictConcat(a + [AMPERSAND], b);
  }

  lemma AppendedIsStrict(body: seq<Byte>, p: Pair)
    requires Strict(body) && Utf8(p.0) && Utf8(p.1)
    ensures Strict(Appended(body, SerializedPair(p)))
  {
    SerializedIsStrict(p.0);
    SerializedIsStrict(p.1);
    AssignmentIsStrict(SerializedPair(p));
    JoinedIsStrict(body, Assignment(SerializedPair(p)));
  }

  lemma {:induction false} WrittenIsStrict(pairs: seq<Pair>)
    requires Utf8Pairs(pairs)
    ensures Strict(Written(SerializedPairs(pairs)))
  {
    if pairs == [] {
      assert PercentDecode([]) == [];
    } else {
      var init, last := pairs[..|pairs| - 1], pairs[|pairs| - 1];
      WrittenIsStrict(init);
      assert last in pairs && init + [last] == pairs;
      PathRoutes.SerializedLast(init, last);
      AppendedIsStrict(Written(SerializedPairs(init)), last);
    }
  }

  // ----- What a path means -----

  /** The text built from a path passes the parser's strict tests exactly if the caller's
      own query does: percent signs, plus signs and any other characters of a path
      parameter never make the parser refuse it. */
  lemma PathIsStrict(fields: seq<PathRoutes.Field>, params: PathRoutes.Params, raw: Option<seq<Byte>>,
                     lossy: seq<Byte> -> seq<Byte>)
    requires Faithful(lossy) && PathRoutes.Utf8Params(fields, params)
    requires PathRoutes.PathQuery(fields, params, raw, lossy).Some?
    ensures Strict(PathRoutes.PathQuery(fields, params, raw, lossy).value) <==> Strict(PathRoutes.Given(raw))
  {
    var rest := PathRoutes.Given(raw);
    var text := Written(SerializedPairs(PathRoutes.PathPairs(fields, params).value));
    PathRoutes.PathPairsMean(fields, params);
    WrittenIsStrict(PathRoutes.PathPairs(fields, params).value);
    if rest == [] {
      assert PercentDecode([]) == [];
    } else if Strict(rest) {
      JoinedIsStrict(text, rest);
    } else if Strict(text + [AMPERSAND] + rest) {
      StrictCut(text, AMPERSAND, rest);
    }
  }

  /** What the parser makes of a text; `QueryObject.Parse` computes it. */
  function Meaning(root: Query.Shape, always: set<Query.Name>, raw: seq<Byte>, lossy: seq<Byte> -> seq<Byte>)
    : Option<QueryObject.Members>
  {
    if |raw| > QueryObject.MAX_QUERY || !Strict(raw) then None
    else QueryObject.Built(root, always, Parsed(raw, lossy))
  }

  lemma CommutesAt(a: seq<Pair>, b: seq<Pair>, name: seq<Byte>)
    requires forall p, q :: p in a && q in b ==> p.0 != q.0
    ensures Named(a + b, name) == Named(b + a, name)
  {
    NamedConcat(a, b, name);
    NamedConcat(b, a, name);
    if p :| p in a && p.0 == name {
      NotNamed(b, name);
      EmptyEnds(Named(a, name));
    } else {
      NotNamed(a, name);
      EmptyEnds(Named(b, name));
    }
  }

  lemma EmptyEnds(s: seq<seq<Byte>>)
    ensures s + [] == s == [] + s
  {
  }

  lemma Commutes(a: seq<Pair>, b: seq<Pair>)
    requires forall p, q :: p in a && q in b ==> p.0 != q.0
    ensures forall name :: Named(a + b, name) == Named(b + a, name)
  {
    forall name ensures Named(a + b, name) == Named(b + a, name) {
      CommutesAt(a, b, name);
    }
  }

  /** A path is refused by the parser, or accepted with the same object, exactly as the
      query that gives the caller's parameters first and the path's after them. */
  lemma PathIsQuery(root: Query.Shape, always: set<Query.Name>, fields: seq<PathRoutes.Field>,
                    params: PathRoutes.Params, raw: Option<seq<Byte>>, lossy: seq<Byte> -> seq<Byte>)
    requires QueryObject.AlwaysMessages(root, always)
    requires Faithful(lossy) && PathRoutes.Utf8Params(fields, params)
    requires PathRoutes.PathQuery(fields, params, raw, lossy).Some?
    ensures PathRoutes.PathPairs(fields, params).Some?
    ensures Meaning(root, always, PathRoutes.PathQuery(fields, params, raw, lossy).value, lossy) ==
      if Strict(PathRoutes.Given(raw))
      then QueryObject.Built(root, always,
                             Parsed(PathRoutes.Given(raw), lossy) + PathRoutes.PathPairs(fields, params).value)
      else None
  {
    PathIsStrict(fields, params, raw, lossy);
    PathRoutes.PathThenQuery(fields, params, raw, lossy);
    PathRoutes.PathPairsMean(fields, params);
    var a, b := PathRoutes.PathPairs(fields, params).value, Parsed(PathRoutes.Given(raw), lossy);
    forall p, q | p in a && q in b ensures p.0 != q.0 {
      assert PathRoutes.Bound(fields, p.0) && !PathRoutes.Bound(fields, q.0);
    }
    Commutes(a, b);
    QueryObject.OrderAcrossKeys(root, always, a + b, b + a);
  }
}
