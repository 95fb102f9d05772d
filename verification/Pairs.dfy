/** Lists of names and values written as name=value&name=value. */
module Pairs {
  import opened Basics
  import opened Bytes
  import opened Splitting

  /** A name and a value, as written: nothing is decoded. */
  type Pair = (seq<Byte>, seq<Byte>)

  /** One piece between ampersands; an empty piece stands for nothing. */
  function Piece(p: seq<Byte>): seq<Pair> {
    if p == [] then []
    else
      var (name, value) := Cut(p, EQUALS);
      [(name, if value.Some? then value.value else [])]
  }

  function Pieces(ps: seq<seq<Byte>>): seq<Pair> {
    if ps == [] then [] else Piece(ps[0]) + Pieces(ps[1..])
  }

  /** Section 5.1 of the WHATWG URL Standard, before decoding. */
  function Read(s: seq<Byte>): seq<Pair> {
    Pieces(Split(s, AMPERSAND))
  }

  function Assignment(p: Pair): seq<Byte> {
    p.0 + [EQUALS] + p.1
  }

  /** A pair is written after an ampersand, unless it is the first. */
  function Appended(body: seq<Byte>, p: Pair): seq<Byte> {
    if body == [] then Assignment(p) else body + [AMPERSAND] + Assignment(p)
  }

  function Written(pairs: seq<Pair>): seq<Byte> {
    if pairs == [] then [] else Appended(Written(pairs[..|pairs| - 1]), pairs[|pairs| - 1])
  }

  predicate Separable(p: Pair) {
    AMPERSAND !in p.0 && AMPERSAND !in p.1 && EQUALS !in p.0
  }

  lemma {:induction false} PiecesConcat(a: seq<seq<Byte>>, b: seq<seq<Byte>>)
    ensures Pieces(a + b) == Pieces(a) + Pieces(b)
  {
    if a == [] {
      assert a + b == b;
    } else {
      assert (a + b)[1..] == a[1..] + b;
      PiecesConcat(a[1..], b);
    }
  }

  /** What follows an ampersand is read on its own. */
  lemma ReadConcat(a: seq<Byte>, b: seq<Byte>)
    ensures Read(a + [AMPERSAND] + b) == Read(a) + Read(b)
  {
    SplitConcat(a, AMPERSAND, b);
    PiecesConcat(Split(a, AMPERSAND), Split(b, AMPERSAND));
  }

  lemma ReadNothing()
    ensures Read([]) == []
  {
    var empty: seq<Byte> := [];
    var ps := Split(empty, AMPERSAND);
    assert Cut(empty, AMPERSAND) == (empty, None);
    assert ps == [empty] && ps[1..] == [];
    assert Pieces(ps) == Piece(empty) + Pieces(ps[1..]);
  }

  lemma ReadOne(p: Pair)
    requires Separable(p)
    ensures Read(Assignment(p)) == [p]
  {
    var s := Assignment(p);
    CutNowhere(s, AMPERSAND);
    assert Split(s, AMPERSAND) == [s];
    CutAt(p.0, EQUALS, p.1);
    assert Pieces([s][1..]) == [];
  }

  lemma ReadAppended(body: seq<Byte>, p: Pair)
    requires Separable(p)
    ensures Read(Appended(body, p)) == Read(body) + [p]
  {
    ReadNothing();
    ReadOne(p);
    ReadConcat(body, Assignment(p));
  }

  /** Whatever the writer wrote, the reader finds. */
  lemma {:induction false} ReadWritten(pairs: seq<Pair>)
    requires forall p :: p in pairs ==> Separable(p)
    ensures Read(Written(pairs)) == pairs
  {
    if pairs == [] {
      ReadNothing();
    } else {
      var init, last := pairs[..|pairs| - 1], pairs[|pairs| - 1];
      ReadWritten(init);
      ReadAppended(Written(init), last);
      assert init + [last] == pairs;
    }
  }

  // ----- Values by name -----

  /** The values given to one name, in order. */
  function Named(fields: seq<Pair>, name: seq<Byte>): seq<seq<Byte>> {
    if fields == [] then []
    else
      var last := fields[|fields| - 1];
      Named(fields[..|fields| - 1], name) + if last.0 == name then [last.1] else []
  }

  lemma {:induction false} NamedHolds(fields: seq<Pair>, k: nat)
    requires k < |fields|
    ensures fields[k].1 in Named(fields, fields[k].0)
  {
    if k < |fields| - 1 {
      NamedHolds(fields[..|fields| - 1], k);
    }
  }

  lemma {:induction false} NamedIsThere(fields: seq<Pair>, name: seq<Byte>, value: seq<Byte>)
    requires value in Named(fields, name)
    ensures (name, value) in fields
  {
    var init := fields[..|fields| - 1];
    if value in Named(init, name) {
      NamedIsThere(init, name, value);
    }
  }

  lemma {:induction false} NamedConcat(a: seq<Pair>, b: seq<Pair>, name: seq<Byte>)
    ensures Named(a + b, name) == Named(a, name) + Named(b, name)
  {
    if b == [] {
      assert a + b == a;
    } else {
      assert (a + b)[..|a + b| - 1] == a + b[..|b| - 1];
      NamedConcat(a, b[..|b| - 1], name);
    }
  }

  lemma {:induction false} NotNamed(pairs: seq<Pair>, name: seq<Byte>)
    requires forall p :: p in pairs ==> p.0 != name
    ensures Named(pairs, name) == []
  {
    if pairs != [] {
      NotNamed(pairs[..|pairs| - 1], name);
    }
  }
}
