/** Cutting and splitting sequences at a separator, for texts and byte strings. */
module Splitting {
  import opened Basics

  /** What precedes the first separator, and what follows it. */
  function Cut<T(==)>(s: seq<T>, sep: T): (r: (seq<T>, Option<seq<T>>))
    ensures r.1.Some? ==> |r.1.value| < |s|
  {
    if s == [] then ([], None)
    else if s[0] == sep then ([], Some(s[1..]))
    else var rest := Cut(s[1..], sep); ([s[0]] + rest.0, rest.1)
  }

  function Tail<T>(sep: T, rest: Option<seq<T>>): seq<T> {
    if rest.Some? then [sep] + rest.value else []
  }

  function Split<T(==)>(s: seq<T>, sep: T): seq<seq<T>>
    decreases |s|
  {
    var (head, rest) := Cut(s, sep);
    if rest.None? then [head] else [head] + Split(rest.value, sep)
  }

  lemma {:induction false} CutParts<T>(s: seq<T>, sep: T)
    ensures sep !in Cut(s, sep).0 && s == Cut(s, sep).0 + Tail(sep, Cut(s, sep).1)
  {
    if s != [] && s[0] != sep {
      CutParts(s[1..], sep);
    }
  }

  lemma FirstOff<T>(head: seq<T>, tail: seq<T>)
    requires head != []
    ensures (head + tail)[0] == head[0] && (head + tail)[1..] == head[1..] + tail && [head[0]] + head[1..] == head
  {
  }

  lemma {:induction false} CutUnique<T>(head: seq<T>, sep: T, rest: Option<seq<T>>)
    requires sep !in head
    ensures Cut(head + Tail(sep, rest), sep) == (head, rest)
  {
    var s := head + Tail(sep, rest);
    if head == [] {
      assert s == Tail(sep, rest);
      if rest.Some? {
        assert s[1..] == rest.value;
      }
    } else {
      CutUnique(head[1..], sep, rest);
      FirstOff(head, Tail(sep, rest));
    }
  }

  lemma CutAt<T>(head: seq<T>, sep: T, rest: seq<T>)
    requires sep !in head
    ensures Cut(head + [sep] + rest, sep) == (head, Some(rest))
  {
    CutUnique(head, sep, Some(rest));
    assert head + [sep] + rest == head + Tail(sep, Some(rest));
  }

  lemma CutNowhere<T>(s: seq<T>, sep: T)
    requires sep !in s
    ensures Cut(s, sep) == (s, None)
  {
    CutUnique(s, sep, None);
    assert s + Tail(sep, None) == s;
  }

  /** Pieces joined by separators. */
  function Join<T>(parts: seq<seq<T>>, sep: T): seq<T> {
    if parts == [] then []
    else if |parts| == 1 then parts[0]
    else parts[0] + [sep] + Join(parts[1..], sep)
  }

  lemma {:induction false} SplitJoin<T>(parts: seq<seq<T>>, sep: T)
    requires parts != [] && forall k :: 0 <= k < |parts| ==> sep !in parts[k]
    ensures Split(Join(parts, sep), sep) == parts
  {
    if |parts| == 1 {
      CutNowhere(parts[0], sep);
    } else {
      CutAt(parts[0], sep, Join(parts[1..], sep));
      SplitJoin(parts[1..], sep);
    }
  }

  lemma SplitStep<T>(head: seq<T>, sep: T, rest: seq<T>)
    requires sep !in head
    ensures Split(head + [sep] + rest, sep) == [head] + Split(rest, sep)
  {
    CutAt(head, sep, rest);
  }

  lemma SplitNowhere<T>(s: seq<T>, sep: T)
    requires sep !in s
    ensures Split(s, sep) == [s]
  {
    CutNowhere(s, sep);
  }

  lemma JoinStep<T>(head: seq<T>, parts: seq<seq<T>>, sep: T)
    requires parts != []
    ensures Join([head] + parts, sep) == head + [sep] + Join(parts, sep)
  {
    assert ([head] + parts)[1..] == parts;
  }

  lemma {:induction false} JoinSplit<T>(s: seq<T>, sep: T)
    ensures Join(Split(s, sep), sep) == s && Split(s, sep) != []
    ensures forall k :: 0 <= k < |Split(s, sep)| ==> sep !in Split(s, sep)[k]
    decreases |s|
  {
    var (head, rest) := Cut(s, sep);
    CutParts(s, sep);
    if rest.Some? {
      assert s == head + [sep] + rest.value;
      SplitStep(head, sep, rest.value);
      JoinSplit(rest.value, sep);
      JoinStep(head, Split(rest.value, sep), sep);
    } else {
      assert s == head;
      SplitNowhere(s, sep);
    }
  }

  lemma Regroup<T>(head: seq<T>, sep: T, tail: seq<T>, b: seq<T>)
    ensures (head + [sep] + tail) + [sep] + b == head + [sep] + (tail + [sep] + b)
  {
  }

  lemma Prepend<T>(x: T, y: seq<T>, z: seq<T>)
    ensures [x] + (y + z) == ([x] + y) + z
  {
  }

  lemma SplitConcatStep<T>(head: seq<T>, sep: T, tail: seq<T>, b: seq<T>)
    requires sep !in head && Split(tail + [sep] + b, sep) == Split(tail, sep) + Split(b, sep)
    ensures Split((head + [sep] + tail) + [sep] + b, sep) == Split(head + [sep] + tail, sep) + Split(b, sep)
  {
    Regroup(head, sep, tail, b);
    SplitStep(head, sep, tail + [sep] + b);
    SplitStep(head, sep, tail);
    Prepend(head, Split(tail, sep), Split(b, sep));
  }

  lemma {:induction false} SplitConcat<T>(a: seq<T>, sep: T, b: seq<T>)
    ensures Split(a + [sep] + b, sep) == Split(a, sep) + Split(b, sep)
    decreases |a|
  {
    var (head, rest) := Cut(a, sep);
    CutParts(a, sep);
    if rest.None? {
      assert a == head;
      SplitNowhere(a, sep);
      SplitStep(a, sep, b);
    } else {
      assert a == head + [sep] + rest.value;
      SplitConcat(rest.value, sep, b);
      SplitConcatStep(head, sep, rest.value, b);
    }
  }
}
