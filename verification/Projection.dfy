/** server/src/projection.rs: the public fields of a response. */
module Projection {
  import opened Basics
  import opened Bytes
  import opened Json

  type Name = seq<Byte>

  datatype Kind = Message(message: Name) | Plain

  /** A field is one value, a list or a map; the kind of a map is that of its values. */
  datatype Field = Singular(kind: Kind) | Repeated(kind: Kind) | Mapped(kind: Kind)

  /** The fields of every message by JSON name. Messages may contain each other. */
  type Graph = map<Name, map<Name, Field>>

  /** The public names of a message; none for a message that is not listed. */
  type Table = Name -> seq<Name>

  predicate Closed(g: Graph) {
    forall n, f :: n in g && f in g[n] && g[n][f].kind.Message? ==> g[n][f].kind.message in g
  }

  predicate Resolves(g: Graph, k: Kind) {
    k.Message? ==> k.message in g
  }

  // ----- The projection, told by what it holds -----

  function Public(allowed: Table, n: Name, members: map<Name, Json>): set<Name> {
    set name | name in allowed(n) && name in members
  }

  function OfKind(g: Graph, allowed: Table, k: Kind, v: Json): Option<Json>
    requires Closed(g) && Resolves(g, k)
    decreases v, 0
  {
    if k.Plain? then Some(v)
    else if !v.Object? then None
    else
      var public := Public(allowed, k.message, v.members);
      var fields := g[k.message];
      if forall name :: name in public ==> name in fields && OfField(g, allowed, fields[name], v.members[name]).Some?
      then Some(Object(map name | name in public :: OfField(g, allowed, fields[name], v.members[name]).value))
      else None
  }

  function OfField(g: Graph, allowed: Table, f: Field, v: Json): Option<Json>
    requires Closed(g) && Resolves(g, f.kind)
    decreases v, 1
  {
    match f
    case Singular(kind) => OfKind(g, allowed, kind, v)
    case Repeated(kind) =>
      if v.Array? && forall i :: 0 <= i < |v.items| ==> OfKind(g, allowed, kind, v.items[i]).Some?
      then Some(Array(seq(|v.items|, i requires 0 <= i < |v.items| => OfKind(g, allowed, kind, v.items[i]).value)))
      else None
    case Mapped(kind) =>
      if v.Object? && forall name :: name in v.members ==> OfKind(g, allowed, kind, v.members[name]).Some?
      then Some(Object(map name | name in v.members :: OfKind(g, allowed, kind, v.members[name]).value))
      else None
  }

  lemma MessageIs(g: Graph, allowed: Table, n: Name, v: Json, out: map<Name, Json>)
    requires Closed(g) && n in g && v.Object? && out.Keys == Public(allowed, n, v.members)
    requires forall name :: name in out ==>
      name in g[n] && OfField(g, allowed, g[n][name], v.members[name]) == Some(out[name])
    ensures OfKind(g, allowed, Message(n), v) == Some(Object(out))
  {
    assert OfKind(g, allowed, Message(n), v).value.members == out;
  }

  lemma MapIs(g: Graph, allowed: Table, kind: Kind, v: Json, out: map<Name, Json>)
    requires Closed(g) && Resolves(g, kind) && v.Object? && out.Keys == v.members.Keys
    requires forall name :: name in out ==> OfKind(g, allowed, kind, v.members[name]) == Some(out[name])
    ensures OfField(g, allowed, Mapped(kind), v) == Some(Object(out))
  {
    assert OfField(g, allowed, Mapped(kind), v).value.members == out;
  }

  lemma MapFails(g: Graph, allowed: Table, kind: Kind, v: Json, name: Name)
    requires Closed(g) && Resolves(g, kind) && v.Object? && name in v.members
    requires OfKind(g, allowed, kind, v.members[name]).None?
    ensures OfField(g, allowed, Mapped(kind), v) == None
  {
  }

  // ----- The loops that compute it -----

  method ProjectKind(g: Graph, allowed: Table, k: Kind, v: Json) returns (r: Option<Json>)
    requires Closed(g) && Resolves(g, k)
    ensures r == OfKind(g, allowed, k, v)
    decreases v, 2
  {
    if k.Plain? {
      return Some(v);
    }
    if !v.Object? {
      return None;
    }
    var names, fields := allowed(k.message), g[k.message];
    var out: map<Name, Json> := map[];
    for i := 0 to |names|
      invariant out.Keys == set name | name in names[..i] && name in v.members
      invariant forall name :: name in out ==>
        name in fields && OfField(g, allowed, fields[name], v.members[name]) == Some(out[name])
    {
      var name := names[i];
      assert names[..i + 1] == names[..i] + [name];
      if name in v.members {
        assert name in Public(allowed, k.message, v.members);
        if name !in fields {
          return None;
        }
        var projected := ProjectField(g, allowed, fields[name], v.members[name]);
        if projected.None? {
          return None;
        }
        out := out[name := projected.value];
      }
    }
    assert names[..|names|] == names;
    MessageIs(g, allowed, k.message, v, out);
    r := Some(Object(out));
  }

  method ProjectField(g: Graph, allowed: Table, f: Field, v: Json) returns (r: Option<Json>)
    requires Closed(g) && Resolves(g, f.kind)
    ensures r == OfField(g, allowed, f, v)
    decreases v, 3
  {
    match f {
      case Mapped(kind) => r := ProjectMap(g, allowed, kind, v);
      case Repeated(kind) => r := ProjectList(g, allowed, kind, v);
      case Singular(kind) => r := ProjectKind(g, allowed, kind, v);
    }
  }

  method ProjectMap(g: Graph, allowed: Table, kind: Kind, v: Json) returns (r: Option<Json>)
    requires Closed(g) && Resolves(g, kind)
    ensures r == OfField(g, allowed, Mapped(kind), v)
    decreases v, 2
  {
    if !v.Object? {
      return None;
    }
    var out: map<Name, Json> := map[];
    var left := v.members.Keys;
    while left != {}
      invariant left <= v.members.Keys
      invariant forall name :: name in out <==> name in v.members && name !in left
      invariant forall name :: name in out ==> OfKind(g, allowed, kind, v.members[name]) == Some(out[name])
      decreases |left|
    {
      var name :| name in left;
      var projected := ProjectKind(g, allowed, kind, v.members[name]);
      if projected.None? {
        MapFails(g, allowed, kind, v, name);
        return None;
      }
      out := out[name := projected.value];
      left := left - {name};
    }
    MapIs(g, allowed, kind, v, out);
    r := Some(Object(out));
  }

  method ProjectList(g: Graph, allowed: Table, kind: Kind, v: Json) returns (r: Option<Json>)
    requires Closed(g) && Resolves(g, kind)
    ensures r == OfField(g, allowed, Repeated(kind), v)
    decreases v, 2
  {
    if !v.Array? {
      return None;
    }
    var out: seq<Json> := [];
    for i := 0 to |v.items|
      invariant |out| == i
      invariant forall j :: 0 <= j < i ==> OfKind(g, allowed, kind, v.items[j]) == Some(out[j])
    {
      var projected := ProjectKind(g, allowed, kind, v.items[i]);
      if projected.None? {
        return None;
      }
      out := out + [projected.value];
    }
    assert out == OfField(g, allowed, Repeated(kind), v).value.items;
    r := Some(Array(out));
  }

  // ----- Projecting twice -----

  lemma {:induction false} KindTwice(g: Graph, allowed: Table, k: Kind, v: Json)
    requires Closed(g) && Resolves(g, k) && OfKind(g, allowed, k, v).Some?
    ensures OfKind(g, allowed, k, OfKind(g, allowed, k, v).value) == OfKind(g, allowed, k, v)
    decreases v, 0
  {
    if k.Message? {
      var w := OfKind(g, allowed, k, v).value;
      var public, fields := Public(allowed, k.message, v.members), g[k.message];
      assert Public(allowed, k.message, w.members) == public;
      forall name | name in public
        ensures OfField(g, allowed, fields[name], w.members[name]) == Some(w.members[name])
      {
        FieldTwice(g, allowed, fields[name], v.members[name]);
      }
      assert OfKind(g, allowed, k, w).value.members == w.members;
    }
  }

  lemma {:induction false} FieldTwice(g: Graph, allowed: Table, f: Field, v: Json)
    requires Closed(g) && Resolves(g, f.kind) && OfField(g, allowed, f, v).Some?
    ensures OfField(g, allowed, f, OfField(g, allowed, f, v).value) == OfField(g, allowed, f, v)
    decreases v, 1
  {
    var w := OfField(g, allowed, f, v).value;
    match f {
      case Singular(kind) =>
        KindTwice(g, allowed, kind, v);
      case Repeated(kind) =>
        forall i | 0 <= i < |v.items| ensures OfKind(g, allowed, kind, w.items[i]) == Some(w.items[i]) {
          KindTwice(g, allowed, kind, v.items[i]);
        }
        assert OfField(g, allowed, f, w).value.items == w.items;
      case Mapped(kind) =>
        forall name | name in v.members ensures OfKind(g, allowed, kind, w.members[name]) == Some(w.members[name]) {
          KindTwice(g, allowed, kind, v.members[name]);
        }
        assert OfField(g, allowed, f, w).value.members == w.members;
    }
  }

  /** A projected response is projected to itself. */
  lemma ProjectedTwice(g: Graph, allowed: Table, n: Name, v: Json)
    requires Closed(g) && n in g && OfKind(g, allowed, Message(n), v).Some?
    ensures OfKind(g, allowed, Message(n), OfKind(g, allowed, Message(n), v).value) == OfKind(g, allowed, Message(n), v)
  {
    KindTwice(g, allowed, Message(n), v);
  }

  // ----- What is kept -----

  datatype Step = Key(name: Name) | Item(index: nat)

  /** The value at a path. */
  function Get(v: Json, path: seq<Step>): Option<Json>
    decreases |path|
  {
    if path == [] then Some(v)
    else if path[0].Key? then
      if v.Object? && path[0].name in v.members then Get(v.members[path[0].name], path[1..]) else None
    else
      if v.Array? && path[0].index < |v.items| then Get(v.items[path[0].index], path[1..]) else None
  }

  /** The paths that lead through public names only; below a plain value all do. */
  predicate Listed(g: Graph, allowed: Table, k: Kind, path: seq<Step>)
    requires Closed(g) && Resolves(g, k)
    decreases |path|, 0
  {
    k.Plain? || path == [] ||
    (path[0].Key? && path[0].name in allowed(k.message) &&
     (path[0].name in g[k.message] ==> ListedField(g, allowed, g[k.message][path[0].name], path[1..])))
  }

  predicate ListedField(g: Graph, allowed: Table, f: Field, path: seq<Step>)
    requires Closed(g) && Resolves(g, f.kind)
    decreases |path|, 1
  {
    match f
    case Singular(kind) => Listed(g, allowed, kind, path)
    case Repeated(kind) => path == [] || (path[0].Item? && Listed(g, allowed, kind, path[1..]))
    case Mapped(kind) => path == [] || (path[0].Key? && Listed(g, allowed, kind, path[1..]))
  }

  /** The same leaf, lists of one length, or two objects. */
  predicate Alike(a: Json, b: Json) {
    match a
    case Object(_) => b.Object?
    case Array(items) => b.Array? && |b.items| == |items|
    case _ => a == b
  }

  predicate AlikeAt(v: Json, w: Json, listed: bool, path: seq<Step>) {
    if listed && Get(v, path).Some? then Get(w, path).Some? && Alike(Get(v, path).value, Get(w, path).value)
    else Get(w, path) == None
  }

  lemma {:induction false} KindKeeps(g: Graph, allowed: Table, k: Kind, v: Json, path: seq<Step>)
    requires Closed(g) && Resolves(g, k) && OfKind(g, allowed, k, v).Some?
    ensures AlikeAt(v, OfKind(g, allowed, k, v).value, Listed(g, allowed, k, path), path)
    decreases |path|, 0
  {
    if k.Message? && path != [] && path[0].Key? {
      var name := path[0].name;
      if name in Public(allowed, k.message, v.members) {
        FieldKeeps(g, allowed, g[k.message][name], v.members[name], path[1..]);
      }
    }
  }

  lemma {:induction false} FieldKeeps(g: Graph, allowed: Table, f: Field, v: Json, path: seq<Step>)
    requires Closed(g) && Resolves(g, f.kind) && OfField(g, allowed, f, v).Some?
    ensures AlikeAt(v, OfField(g, allowed, f, v).value, ListedField(g, allowed, f, path), path)
    decreases |path|, 1
  {
    match f {
      case Singular(kind) =>
        KindKeeps(g, allowed, kind, v, path);
      case Repeated(kind) =>
        if path != [] && path[0].Item? && path[0].index < |v.items| {
          KindKeeps(g, allowed, kind, v.items[path[0].index], path[1..]);
        }
      case Mapped(kind) =>
        if path != [] && path[0].Key? && path[0].name in v.members {
          KindKeeps(g, allowed, kind, v.members[path[0].name], path[1..]);
        }
    }
  }

  /** The projection holds a value at a path exactly if the path is public and the
      response has a value there; leaves are the response's own and lists keep their
      length. */
  lemma KeptExactly(g: Graph, allowed: Table, n: Name, v: Json, path: seq<Step>)
    requires Closed(g) && n in g && OfKind(g, allowed, Message(n), v).Some?
    ensures var w := OfKind(g, allowed, Message(n), v).value;
            (Get(w, path).Some? <==> Listed(g, allowed, Message(n), path) && Get(v, path).Some?) &&
            (Get(w, path).Some? ==> Alike(Get(v, path).value, Get(w, path).value))
  {
    KindKeeps(g, allowed, Message(n), v, path);
  }

  // ----- When a response can be projected -----

  /** What a public path of a kind demands of the value there. */
  datatype Demand = Nothing | AnObject | AList | Unknowable

  function Wanted(g: Graph, k: Kind, path: seq<Step>): Demand
    requires Closed(g) && Resolves(g, k)
    decreases |path|, 0
  {
    if k.Plain? then Nothing
    else if path == [] then AnObject
    else if !path[0].Key? then Nothing
    else if path[0].name !in g[k.message] then Unknowable
    else WantedField(g, g[k.message][path[0].name], path[1..])
  }

  function WantedField(g: Graph, f: Field, path: seq<Step>): Demand
    requires Closed(g) && Resolves(g, f.kind)
    decreases |path|, 1
  {
    match f
    case Singular(kind) => Wanted(g, kind, path)
    case Repeated(kind) => if path == [] then AList else Wanted(g, kind, path[1..])
    case Mapped(kind) => if path == [] then AnObject else Wanted(g, kind, path[1..])
  }

  predicate Meets(node: Option<Json>, demand: Demand) {
    node.Some? ==>
      match demand
      case Nothing => true
      case AnObject => node.value.Object?
      case AList => node.value.Array?
      case Unknowable => false
  }

  lemma {:induction false} KindMeets(g: Graph, allowed: Table, k: Kind, v: Json, path: seq<Step>)
    requires Closed(g) && Resolves(g, k) && OfKind(g, allowed, k, v).Some? && Listed(g, allowed, k, path)
    ensures Meets(Get(v, path), Wanted(g, k, path))
    decreases |path|, 0
  {
    if k.Message? && path != [] && path[0].Key? {
      var name := path[0].name;
      if name in v.members {
        assert name in Public(allowed, k.message, v.members);
        FieldMeets(g, allowed, g[k.message][name], v.members[name], path[1..]);
      }
    }
  }

  lemma {:induction false} FieldMeets(g: Graph, allowed: Table, f: Field, v: Json, path: seq<Step>)
    requires Closed(g) && Resolves(g, f.kind) && OfField(g, allowed, f, v).Some? && ListedField(g, allowed, f, path)
    ensures Meets(Get(v, path), WantedField(g, f, path))
    decreases |path|, 1
  {
    match f {
      case Singular(kind) => KindMeets(g, allowed, kind, v, path);
      case Repeated(kind) =>
        if path != [] && path[0].index < |v.items| {
          KindMeets(g, allowed, kind, v.items[path[0].index], path[1..]);
        }
      case Mapped(kind) =>
        if path != [] && path[0].name in v.members {
          KindMeets(g, allowed, kind, v.members[path[0].name], path[1..]);
        }
    }
  }

  /** A value that cannot be projected fails a demand at some public path. */
  lemma {:induction false} KindFails(g: Graph, allowed: Table, k: Kind, v: Json) returns (path: seq<Step>)
    requires Closed(g) && Resolves(g, k) && OfKind(g, allowed, k, v).None?
    ensures Listed(g, allowed, k, path) && !Meets(Get(v, path), Wanted(g, k, path))
    decreases v, 0
  {
    path := [];
    if v.Object? {
      var fields := g[k.message];
      var name :| name in Public(allowed, k.message, v.members)
        && !(name in fields && OfField(g, allowed, fields[name], v.members[name]).Some?);
      if name in fields {
        path := FieldFails(g, allowed, fields[name], v.members[name]);
      }
      PathDown(v, Key(name), path);
      path := [Key(name)] + path;
    }
  }

  lemma {:induction false} FieldFails(g: Graph, allowed: Table, f: Field, v: Json) returns (path: seq<Step>)
    requires Closed(g) && Resolves(g, f.kind) && OfField(g, allowed, f, v).None?
    ensures ListedField(g, allowed, f, path) && !Meets(Get(v, path), WantedField(g, f, path))
    decreases v, 1
  {
    path := [];
    match f {
      case Singular(kind) => path := KindFails(g, allowed, kind, v);
      case Repeated(kind) =>
        if v.Array? {
          var i :| 0 <= i < |v.items| && OfKind(g, allowed, kind, v.items[i]).None?;
          path := KindFails(g, allowed, kind, v.items[i]);
          PathDown(v, Item(i), path);
          path := [Item(i)] + path;
        }
      case Mapped(kind) =>
        if v.Object? {
          var name :| name in v.members && OfKind(g, allowed, kind, v.members[name]).None?;
          path := KindFails(g, allowed, kind, v.members[name]);
          PathDown(v, Key(name), path);
          path := [Key(name)] + path;
        }
    }
  }

  lemma PathDown(v: Json, step: Step, path: seq<Step>)
    ensures ([step] + path)[1..] == path
    ensures Get(v, [step] + path) == if Down(v, step).Some? then Get(Down(v, step).value, path) else None
  {
    GetDown(v, step, path);
  }

  /** A response is projected exactly if at every public path where it has a value, that
      value is an object, a list or anything, as the field there demands, and the field is
      one of the message. */
  lemma ProjectedExactly(g: Graph, allowed: Table, n: Name, v: Json)
    requires Closed(g) && n in g
    ensures OfKind(g, allowed, Message(n), v).Some? <==>
      forall path :: Listed(g, allowed, Message(n), path) ==> Meets(Get(v, path), Wanted(g, Message(n), path))
  {
    if OfKind(g, allowed, Message(n), v).Some? {
      forall path | Listed(g, allowed, Message(n), path) ensures Meets(Get(v, path), Wanted(g, Message(n), path)) {
        KindMeets(g, allowed, Message(n), v, path);
      }
    } else {
      var path := KindFails(g, allowed, Message(n), v);
    }
  }

  // ----- Private fields do not matter -----

  predicate SameNode(a: Option<Json>, b: Option<Json>) {
    if a.Some? && b.Some? then Alike(a.value, b.value) else a.None? && b.None?
  }

  /** Two values agree on every path of a kind of path. */
  ghost predicate Agree(a: Json, b: Json, listed: seq<Step> -> bool) {
    forall path :: listed(path) ==> SameNode(Get(a, path), Get(b, path))
  }

  function Below(listed: seq<Step> -> bool, step: Step): seq<Step> -> bool {
    path => listed([step] + path)
  }

  /** The value one step down. */
  function Down(v: Json, step: Step): Option<Json> {
    match step
    case Key(name) => if v.Object? && name in v.members then Some(v.members[name]) else None
    case Item(index) => if v.Array? && index < |v.items| then Some(v.items[index]) else None
  }

  lemma GetDown(v: Json, step: Step, path: seq<Step>)
    ensures Get(v, [step] + path) == if Down(v, step).Some? then Get(Down(v, step).value, path) else None
  {
    assert ([step] + path)[1..] == path;
  }

  lemma AgreeBelow(a: Json, b: Json, listed: seq<Step> -> bool, step: Step)
    requires Agree(a, b, listed) && Down(a, step).Some? && Down(b, step).Some?
    ensures Agree(Down(a, step).value, Down(b, step).value, Below(listed, step))
  {
    var x, y := Down(a, step).value, Down(b, step).value;
    forall path | Below(listed, step)(path) ensures SameNode(Get(x, path), Get(y, path)) {
      GetDown(a, step, path);
      GetDown(b, step, path);
      assert SameNode(Get(a, [step] + path), Get(b, [step] + path));
    }
  }

  lemma SameSteps(a: Json, b: Json, listed: seq<Step> -> bool, step: Step)
    requires Agree(a, b, listed) && listed([step])
    ensures Down(a, step).Some? == Down(b, step).Some?
  {
    GetDown(a, step, []);
    GetDown(b, step, []);
    assert [step] + [] == [step];
    assert SameNode(Get(a, [step]), Get(b, [step]));
  }

  /** Values that agree everywhere are equal. */
  lemma {:induction false} AgreeEverywhere(a: Json, b: Json, listed: seq<Step> -> bool)
    requires Agree(a, b, listed) && forall path :: listed(path)
    ensures a == b
    decreases a
  {
    assert SameNode(Get(a, []), Get(b, []));
    match a {
      case Object(members) =>
        forall name ensures name in members <==> name in b.members {
          SameSteps(a, b, listed, Key(name));
        }
        forall name | name in members ensures members[name] == b.members[name] {
          AgreeBelow(a, b, listed, Key(name));
          AgreeEverywhere(members[name], b.members[name], Below(listed, Key(name)));
        }
        assert members == b.members;
      case Array(items) =>
        forall i | 0 <= i < |items| ensures items[i] == b.items[i] {
          AgreeBelow(a, b, listed, Item(i));
          AgreeEverywhere(items[i], b.items[i], Below(listed, Item(i)));
        }
        assert items == b.items;
      case _ =>
    }
  }

  lemma {:induction false} KindAgrees(g: Graph, allowed: Table, k: Kind, a: Json, b: Json, listed: seq<Step> -> bool)
    requires Closed(g) && Resolves(g, k)
    requires Agree(a, b, listed) && forall path :: Listed(g, allowed, k, path) ==> listed(path)
    ensures OfKind(g, allowed, k, a) == OfKind(g, allowed, k, b)
    decreases a, 0
  {
    assert Listed(g, allowed, k, []);
    assert SameNode(Get(a, []), Get(b, []));
    if k.Plain? {
      AgreeEverywhere(a, b, listed);
    } else if a.Object? {
      var fields := g[k.message];
      forall name | name in allowed(k.message) ensures name in a.members <==> name in b.members {
        assert name in fields ==> ListedField(g, allowed, fields[name], []);
        assert Listed(g, allowed, k, [Key(name)]);
        SameSteps(a, b, listed, Key(name));
      }
      assert Public(allowed, k.message, a.members) == Public(allowed, k.message, b.members);
      forall name | name in Public(allowed, k.message, a.members) && name in fields
        ensures OfField(g, allowed, fields[name], a.members[name]) == OfField(g, allowed, fields[name], b.members[name])
      {
        AgreeBelow(a, b, listed, Key(name));
        forall path | ListedField(g, allowed, fields[name], path) ensures Below(listed, Key(name))(path) {
          assert ([Key(name)] + path)[1..] == path;
          assert Listed(g, allowed, k, [Key(name)] + path);
        }
        FieldAgrees(g, allowed, fields[name], a.members[name], b.members[name], Below(listed, Key(name)));
      }
      if OfKind(g, allowed, k, a).Some? {
        MessageIs(g, allowed, k.message, b, OfKind(g, allowed, k, a).value.members);
      }
    }
  }

  lemma {:induction false} FieldAgrees(g: Graph, allowed: Table, f: Field, a: Json, b: Json, listed: seq<Step> -> bool)
    requires Closed(g) && Resolves(g, f.kind)
    requires Agree(a, b, listed) && forall path :: ListedField(g, allowed, f, path) ==> listed(path)
    ensures OfField(g, allowed, f, a) == OfField(g, allowed, f, b)
    decreases a, 1
  {
    assert ListedField(g, allowed, f, []);
    assert SameNode(Get(a, []), Get(b, []));
    match f {
      case Singular(kind) =>
        KindAgrees(g, allowed, kind, a, b, listed);
      case Repeated(kind) =>
        if a.Array? {
          forall i | 0 <= i < |a.items|
            ensures OfKind(g, allowed, kind, a.items[i]) == OfKind(g, allowed, kind, b.items[i])
          {
            ElementAgrees(g, allowed, f, a, b, listed, Item(i));
          }
          if OfField(g, allowed, f, a).Some? {
            assert OfField(g, allowed, f, a).value.items == OfField(g, allowed, f, b).value.items;
          }
        }
      case Mapped(kind) =>
        if a.Object? {
          forall name ensures name in a.members <==> name in b.members {
            assert Listed(g, allowed, kind, []);
            assert ListedField(g, allowed, f, [Key(name)]);
            SameSteps(a, b, listed, Key(name));
          }
          assert a.members.Keys == b.members.Keys;
          forall name | name in a.members
            ensures OfKind(g, allowed, kind, a.members[name]) == OfKind(g, allowed, kind, b.members[name])
          {
            ElementAgrees(g, allowed, f, a, b, listed, Key(name));
          }
          if OfField(g, allowed, f, a).Some? {
            MapIs(g, allowed, kind, b, OfField(g, allowed, f, a).value.members);
          }
        }
    }
  }

  lemma {:induction false} ElementAgrees(g: Graph, allowed: Table, f: Field, a: Json, b: Json,
                                         listed: seq<Step> -> bool, step: Step)
    requires Closed(g) && Resolves(g, f.kind)
    requires (f.Repeated? && step.Item?) || (f.Mapped? && step.Key?)
    requires Agree(a, b, listed) && forall path :: ListedField(g, allowed, f, path) ==> listed(path)
    requires Down(a, step).Some? && Down(b, step).Some?
    ensures OfKind(g, allowed, f.kind, Down(a, step).value) == OfKind(g, allowed, f.kind, Down(b, step).value)
    decreases a, 0
  {
    AgreeBelow(a, b, listed, step);
    forall path | Listed(g, allowed, f.kind, path) ensures Below(listed, step)(path) {
      assert ([step] + path)[1..] == path;
      assert ListedField(g, allowed, f, [step] + path);
    }
    KindAgrees(g, allowed, f.kind, Down(a, step).value, Down(b, step).value, Below(listed, step));
  }

  /** Responses that agree on the public paths project alike: whatever else they hold
      neither shows nor makes the projection fail. */
  lemma PrivateFieldsDoNotMatter(g: Graph, allowed: Table, n: Name, a: Json, b: Json)
    requires Closed(g) && n in g
    requires forall path :: Listed(g, allowed, Message(n), path) ==> SameNode(Get(a, path), Get(b, path))
    ensures OfKind(g, allowed, Message(n), a) == OfKind(g, allowed, Message(n), b)
  {
    var listed := path => Closed(g) && n in g && Listed(g, allowed, Message(n), path);
    KindAgrees(g, allowed, Message(n), a, b, listed);
  }
}
