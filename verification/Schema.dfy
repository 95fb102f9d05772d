/** server/src/openapi.rs: the schemas of all messages that a set of routes needs. */
module Schema {
  import opened Json
  import Bytes

  type Name = seq<Bytes.Byte>

  /** Scalar kinds by the schema they get. */
  datatype Scalar = Int64 | Uint64 | Bool | Str | Bytes | Float | Integer | Enum(values: seq<string>)

  datatype Kind = Message(name: Name) | Plain(scalar: Scalar)

  /** The kind of a map field is that of its values. */
  datatype Field =
    | Singular(name: Name, kind: Kind)
    | Repeated(name: Name, kind: Kind)
    | Mapped(name: Name, kind: Kind)

  /** Messages by full name. They may refer to each other in any way, cycles included. */
  type Graph = map<Name, seq<Field>>

  predicate Closed(g: Graph) {
    forall n, f :: n in g && f in g[n] && f.kind.Message? ==> f.kind.name in g
  }

  /** A JSON schema; the empty one stands in for a message that is being visited. */
  datatype Schema =
    | Empty
    | Ref(name: Name)
    | Value(scalar: Scalar)
    | Items(items: Schema)
    | Additional(values: Schema)
    | Properties(properties: map<Name, Schema>)

  type Schemas = map<Name, Schema>

  function KindSchema(k: Kind): Schema {
    match k
    case Message(name) => Ref(name)
    case Plain(scalar) => Value(scalar)
  }

  function FieldSchema(f: Field): Schema {
    match f
    case Singular(_, kind) => KindSchema(kind)
    case Repeated(_, kind) => Items(KindSchema(kind))
    case Mapped(_, kind) => Additional(KindSchema(kind))
  }

  function FieldSchemas(fields: seq<Field>): map<Name, Schema> {
    if fields == [] then map[]
    else
      var last := fields[|fields| - 1];
      FieldSchemas(fields[..|fields| - 1])[last.name := FieldSchema(last)]
  }

  /** The schema of one message, told without walking the graph. */
  function Rendered(g: Graph, n: Name): Schema
    requires n in g
  {
    Properties(FieldSchemas(g[n]))
  }

  // ----- Reaching messages -----

  predicate Refers(g: Graph, a: Name, b: Name) {
    a in g && exists k :: 0 <= k < |g[a]| && g[a][k].kind == Message(b)
  }

  predicate Chain(g: Graph, path: seq<Name>) {
    path != [] && forall k :: 0 <= k < |path| - 1 ==> Refers(g, path[k], path[k + 1])
  }

  ghost predicate Reaches(g: Graph, a: Name, b: Name) {
    exists path :: Chain(g, path) && path[0] == a && path[|path| - 1] == b
  }

  ghost predicate Reachable(g: Graph, roots: set<Name>, n: Name) {
    exists root :: root in roots && Reaches(g, root, n)
  }

  lemma ReachesItself(g: Graph, a: Name)
    ensures Reaches(g, a, a)
  {
    assert Chain(g, [a]);
  }

  lemma ReachesThrough(g: Graph, a: Name, b: Name, c: Name)
    requires Refers(g, a, b) && Reaches(g, b, c)
    ensures Reaches(g, a, c)
  {
    var path :| Chain(g, path) && path[0] == b && path[|path| - 1] == c;
    assert Chain(g, [a] + path);
  }

  /** A set of messages is whole if it holds whatever its messages refer to. */
  predicate Whole(g: Graph, names: set<Name>) {
    forall n, f :: n in names && n in g && f in g[n] && f.kind.Message? ==> f.kind.name in names
  }

  lemma {:induction false} WholeHoldsChain(g: Graph, names: set<Name>, path: seq<Name>)
    requires Whole(g, names) && Chain(g, path) && path[0] in names
    ensures path[|path| - 1] in names
  {
    if |path| > 1 {
      assert Refers(g, path[0], path[1]);
      forall k | 0 <= k < |path[1..]| - 1 ensures Refers(g, path[1..][k], path[1..][k + 1]) {
        assert path[1..][k] == path[k + 1] && path[1..][k + 1] == path[k + 2];
      }
      WholeHoldsChain(g, names, path[1..]);
    }
  }

  function AsSet(names: seq<Name>): set<Name> {
    set n | n in names
  }

  // ----- The walk -----

  /** The messages that fields refer to have schemas. */
  predicate Present(fields: seq<Field>, schemas: Schemas) {
    forall f :: f in fields && f.kind.Message? ==> f.kind.name in schemas
  }

  predicate Kept(before: Schemas, after: Schemas) {
    forall n :: n in before ==> n in after && after[n] == before[n]
  }

  /** What a visit from one message may change: it adds finished schemas of messages
      reached from there, whose references are all present. */
  ghost predicate Grown(g: Graph, before: Schemas, after: Schemas, from: Name) {
    && Kept(before, after)
    && forall n :: n in after && n !in before ==>
         n in g && after[n] == Rendered(g, n) && Reaches(g, from, n) && Present(g[n], after)
  }

  lemma GrownThrough(g: Graph, start: Schemas, mid: Schemas, after: Schemas, from: Name, next: Name)
    requires Grown(g, start, mid, from) && Refers(g, from, next) && Grown(g, mid, after, next)
    ensures Grown(g, start, after, from)
  {
    forall n | n in after && n !in start
      ensures n in g && after[n] == Rendered(g, n) && Reaches(g, from, n) && Present(g[n], after)
    {
      if n !in mid {
        ReachesThrough(g, from, next, n);
      }
    }
  }

  lemma PresentLast(fields: seq<Field>, f: Field, before: Schemas, after: Schemas)
    requires Present(fields, before) && before.Keys <= after.Keys && (f.kind.Message? ==> f.kind.name in after)
    ensures Present(fields + [f], after)
  {}

  /** What one field's kind adds to the schemas. */
  ghost predicate Visited(g: Graph, k: Kind, before: Schemas, after: Schemas) {
    if k.Message? then Grown(g, before, after, k.name) && k.name in after else after == before
  }

  /** After a field has been visited, the walk has grown and one field more is present. */
  lemma GrownByField(g: Graph, n: Name, k: nat, start: Schemas, mid: Schemas, after: Schemas)
    requires n in g && k < |g[n]| && Visited(g, g[n][k].kind, mid, after)
    requires Grown(g, start, mid, n) && Present(g[n][..k], mid)
    ensures Grown(g, start, after, n) && Present(g[n][..k + 1], after)
  {
    var f := g[n][k];
    if f.kind.Message? {
      assert Refers(g, n, f.kind.name);
      GrownThrough(g, start, mid, after, n, f.kind.name);
    }
    PresentLast(g[n][..k], f, mid, after);
    assert g[n][..k + 1] == g[n][..k] + [f];
  }

  lemma FieldSchemasNext(fields: seq<Field>, k: nat)
    requires k < |fields|
    ensures FieldSchemas(fields[..k + 1]) == FieldSchemas(fields[..k])[fields[k].name := FieldSchema(fields[k])]
  {
    assert fields[..k + 1] == fields[..k] + [fields[k]];
    FieldSchemasLast(fields[..k], fields[k]);
  }

  lemma FieldSchemasLast(fields: seq<Field>, f: Field)
    ensures FieldSchemas(fields + [f]) == FieldSchemas(fields)[f.name := FieldSchema(f)]
  {
    assert (fields + [f])[..|fields|] == fields;
  }

  /** The placeholder is replaced when the fields have been visited. */
  lemma GrownAround(g: Graph, before: Schemas, mid: Schemas, n: Name)
    requires n in g && n !in before && Grown(g, before[n := Empty], mid, n) && Present(g[n], mid)
    ensures Grown(g, before, mid[n := Rendered(g, n)], n)
  {
    ReachesItself(g, n);
    var after := mid[n := Rendered(g, n)];
    forall m | m in before ensures m in after && after[m] == before[m] {
      assert m in before[n := Empty];
    }
    forall m | m in after && m !in before
      ensures m in g && after[m] == Rendered(g, m) && Reaches(g, n, m) && Present(g[m], after)
    {
      assert m == n || (m in mid && m !in before[n := Empty]);
    }
  }

  class Walk {
    const g: Graph
    var schemas: Schemas

    constructor (g: Graph)
      ensures this.g == g && schemas == map[]
    {
      this.g := g;
      schemas := map[];
    }

    ghost function Left(): nat
      reads this
    {
      |g.Keys - schemas.Keys|
    }

    method VisitMessage(n: Name)
      requires Closed(g) && n in g
      modifies this
      ensures Grown(g, old(schemas), schemas, n) && n in schemas
      decreases Left(), 0
    {
      if n in schemas {
        return;
      }
      ghost var before := schemas;
      schemas := schemas[n := Empty];
      assert g.Keys - before.Keys == (g.Keys - schemas.Keys) + {n};
      ghost var start := schemas;
      var properties := VisitFields(n);
      ghost var mid := schemas;
      schemas := schemas[n := Properties(properties)];
      GrownAround(g, before, mid, n);
    }

    method VisitFields(n: Name) returns (properties: map<Name, Schema>)
      requires Closed(g) && n in g && n in schemas
      modifies this
      ensures Grown(g, old(schemas), schemas, n) && Present(g[n], schemas)
      ensures properties == FieldSchemas(g[n])
      decreases Left(), 3
    {
      ghost var left := Left();
      properties := map[];
      for k := 0 to |g[n]|
        invariant Grown(g, old(schemas), schemas, n) && Present(g[n][..k], schemas)
        invariant properties == FieldSchemas(g[n][..k])
        invariant Left() <= left
      {
        ghost var mid := schemas;
        assert g[n][k] in g[n];
        var value := VisitField(g[n][k]);
        GrownByField(g, n, k, old(schemas), mid, schemas);
        FieldSchemasNext(g[n], k);
        properties := properties[g[n][k].name := value];
      }
      assert g[n][..|g[n]|] == g[n];
    }

    method VisitField(f: Field) returns (value: Schema)
      requires Closed(g) && (f.kind.Message? ==> f.kind.name in g)
      modifies this
      ensures value == FieldSchema(f)
      ensures Visited(g, f.kind, old(schemas), schemas)
      ensures Left() <= old(Left())
      decreases Left(), 2
    {
      value := VisitKind(f.kind);
      match f {
        case Mapped(_, _) => value := Additional(value);
        case Repeated(_, _) => value := Items(value);
        case Singular(_, _) =>
      }
    }

    method VisitKind(k: Kind) returns (value: Schema)
      requires Closed(g) && (k.Message? ==> k.name in g)
      modifies this
      ensures value == KindSchema(k)
      ensures Visited(g, k, old(schemas), schemas)
      ensures Left() <= old(Left())
      decreases Left(), 1
    {
      match k {
        case Message(name) =>
          ghost var before := g.Keys - schemas.Keys;
          VisitMessage(name);
          Fewer(before, g.Keys - schemas.Keys);
          value := Ref(name);
        case Plain(scalar) =>
          value := Value(scalar);
      }
    }

    /** The root loop: every message of every route. */
    method VisitRoots(roots: seq<Name>)
      requires Closed(g) && schemas == map[] && forall r :: r in roots ==> r in g
      modifies this
      ensures forall n :: n in schemas <==> Reachable(g, AsSet(roots), n)
      ensures forall n :: n in schemas ==> n in g && schemas[n] == Rendered(g, n)
    {
      for k := 0 to |roots|
        invariant forall j :: 0 <= j < k ==> roots[j] in schemas
        invariant Whole(g, schemas.Keys)
        invariant forall n :: n in schemas ==>
          n in g && schemas[n] == Rendered(g, n) && Reachable(g, AsSet(roots), n)
      {
        assert roots[k] in roots;
        VisitMessage(roots[k]);
      }
      ghost var all := AsSet(roots);
      forall n | Reachable(g, all, n) ensures n in schemas {
        var root :| root in all && Reaches(g, root, n);
        var path :| Chain(g, path) && path[0] == root && path[|path| - 1] == n;
        WholeHoldsChain(g, schemas.Keys, path);
      }
    }
  }

  lemma Fewer(a: set<Name>, b: set<Name>)
    requires b <= a
    ensures |b| <= |a|
  {
    assert a == b + (a - b);
  }

  // ----- What the document holds -----

  function Refs(s: Schema): set<Name> {
    match s
    case Empty | Value(_) => {}
    case Ref(name) => {name}
    case Items(items) => Refs(items)
    case Additional(values) => Refs(values)
    case Properties(properties) => set p, n | p in properties && n in Refs(properties[p]) :: n
  }

  predicate Finished(s: Schema) {
    match s
    case Empty => false
    case Value(_) | Ref(_) => true
    case Items(items) => Finished(items)
    case Additional(values) => Finished(values)
    case Properties(properties) => forall p :: p in properties ==> Finished(properties[p])
  }

  lemma {:induction false} FieldSchemasAreFields(fields: seq<Field>, p: Name)
    requires p in FieldSchemas(fields)
    ensures exists f :: f in fields && f.name == p && FieldSchemas(fields)[p] == FieldSchema(f)
  {
    var init, last := fields[..|fields| - 1], fields[|fields| - 1];
    if last.name == p {
      assert last in fields;
    } else {
      FieldSchemasAreFields(init, p);
      var f :| f in init && f.name == p && FieldSchemas(init)[p] == FieldSchema(f);
      assert f in fields;
    }
  }

  /** Every reference in the document names a schema of the document, and no schema is a
      placeholder. */
  lemma NoDanglingReference(g: Graph, roots: set<Name>, schemas: Schemas, n: Name)
    requires Closed(g)
    requires forall m :: m in schemas <==> Reachable(g, roots, m)
    requires forall m :: m in schemas ==> m in g && schemas[m] == Rendered(g, m)
    requires n in schemas
    ensures Refs(schemas[n]) <= schemas.Keys && Finished(schemas[n])
  {
    var properties := schemas[n].properties;
    forall p | p in properties ensures Refs(properties[p]) <= schemas.Keys && Finished(properties[p]) {
      FieldSchemasAreFields(g[n], p);
      var f :| f in g[n] && f.name == p && properties[p] == FieldSchema(f);
      if f.kind.Message? {
        var k :| 0 <= k < |g[n]| && g[n][k] == f;
        assert Refers(g, n, f.kind.name);
        ReachableStep(g, roots, n, f.kind.name);
      }
    }
  }

  lemma ReachableStep(g: Graph, roots: set<Name>, a: Name, b: Name)
    requires Reachable(g, roots, a) && Refers(g, a, b)
    ensures Reachable(g, roots, b)
  {
    var root :| root in roots && Reaches(g, root, a);
    var path :| Chain(g, path) && path[0] == root && path[|path| - 1] == a;
    var longer := path + [b];
    forall k | 0 <= k < |longer| - 1 ensures Refers(g, longer[k], longer[k + 1]) {
      if k < |path| - 1 {
        assert Refers(g, path[k], path[k + 1]);
      }
    }
    assert Chain(g, longer) && longer[0] == root && longer[|longer| - 1] == b;
  }

  /** Every field of a message is in its schema, as its own kind. */
  lemma {:induction false} FieldsAreListed(fields: seq<Field>, k: nat)
    requires k < |fields| && forall i, j :: 0 <= i < j < |fields| ==> fields[i].name != fields[j].name
    ensures fields[k].name in FieldSchemas(fields) && FieldSchemas(fields)[fields[k].name] == FieldSchema(fields[k])
  {
    if k < |fields| - 1 {
      FieldsAreListed(fields[..|fields| - 1], k);
    }
  }

  // ----- What the document means -----

  /** Which JSON values a scalar may have; the same question for a field and a schema. */
  type Fits = (Scalar, Json) -> bool

  /** A JSON value is one of a kind, by protobuf's JSON mapping. */
  predicate IsKind(g: Graph, k: Kind, v: Json, fits: Fits)
    decreases v, 0
  {
    match k
    case Plain(scalar) => fits(scalar, v)
    case Message(n) =>
      n in g && v.Object? &&
      forall name :: name in v.members ==>
        exists i :: 0 <= i < |g[n]| && g[n][i].name == name && IsField(g, g[n][i], v.members[name], fits)
  }

  /** ... of a field: a single value, a list of them, or a map to them. */
  predicate IsField(g: Graph, f: Field, v: Json, fits: Fits)
    decreases v, 1
  {
    match f
    case Singular(_, kind) => IsKind(g, kind, v, fits)
    case Repeated(_, kind) => v.Array? && forall i :: 0 <= i < |v.items| ==> IsKind(g, kind, v.items[i], fits)
    case Mapped(_, kind) => v.Object? && forall m :: m in v.members ==> IsKind(g, kind, v.members[m], fits)
  }

  /** What a schema accepts, as JSON Schema has it; objects take no other properties. */
  predicate Accepts(schemas: Schemas, s: Schema, v: Json, fits: Fits)
    decreases v, 1
  {
    match s
    case Empty => true
    case Value(scalar) => fits(scalar, v)
    case Items(items) => v.Array? && forall i :: 0 <= i < |v.items| ==> Accepts(schemas, items, v.items[i], fits)
    case Additional(values) =>
      v.Object? && forall m :: m in v.members ==> Accepts(schemas, values, v.members[m], fits)
    case Properties(properties) => AcceptsObject(schemas, properties, v, fits)
    case Ref(name) =>
      name in schemas && schemas[name].Properties? && AcceptsObject(schemas, schemas[name].properties, v, fits)
  }

  predicate AcceptsObject(schemas: Schemas, properties: map<Name, Schema>, v: Json, fits: Fits)
    decreases v, 0
  {
    v.Object? &&
    forall m :: m in v.members ==> m in properties && Accepts(schemas, properties[m], v.members[m], fits)
  }

  /** The schemas are those of the messages they name, each as rendered, and hold every
      message that they refer to. */
  ghost predicate Document(g: Graph, schemas: Schemas) {
    forall n :: n in schemas ==> n in g && schemas[n] == Rendered(g, n) && Present(g[n], schemas)
  }

  predicate DistinctNames(g: Graph) {
    forall n, i, j :: n in g && 0 <= i < j < |g[n]| ==> g[n][i].name != g[n][j].name
  }

  lemma {:induction false} KindAccepted(g: Graph, schemas: Schemas, k: Kind, v: Json, fits: Fits)
    requires Document(g, schemas) && DistinctNames(g) && (k.Message? ==> k.name in schemas)
    ensures Accepts(schemas, KindSchema(k), v, fits) <==> IsKind(g, k, v, fits)
    decreases v, 0
  {
    if k.Message? && v.Object? {
      var fields := g[k.name];
      forall m | m in v.members
        ensures (m in FieldSchemas(fields) && Accepts(schemas, FieldSchemas(fields)[m], v.members[m], fits)) <==>
          exists i :: 0 <= i < |fields| && fields[i].name == m && IsField(g, fields[i], v.members[m], fits)
      {
        MemberAccepted(g, schemas, k.name, m, v.members[m], fits);
      }
    }
  }

  lemma {:induction false} MemberAccepted(g: Graph, schemas: Schemas, n: Name, m: Name, v: Json, fits: Fits)
    requires Document(g, schemas) && DistinctNames(g) && n in schemas
    ensures (m in FieldSchemas(g[n]) && Accepts(schemas, FieldSchemas(g[n])[m], v, fits)) <==>
      exists i :: 0 <= i < |g[n]| && g[n][i].name == m && IsField(g, g[n][i], v, fits)
    decreases v, 2
  {
    if i :| 0 <= i < |g[n]| && g[n][i].name == m {
      FieldsAreListed(g[n], i);
      assert g[n][i] in g[n];
      FieldAccepted(g, schemas, g[n][i], v, fits);
    } else if m in FieldSchemas(g[n]) {
      FieldSchemasAreFields(g[n], m);
    }
  }

  lemma {:induction false} FieldAccepted(g: Graph, schemas: Schemas, f: Field, v: Json, fits: Fits)
    requires Document(g, schemas) && DistinctNames(g) && (f.kind.Message? ==> f.kind.name in schemas)
    ensures Accepts(schemas, FieldSchema(f), v, fits) <==> IsField(g, f, v, fits)
    decreases v, 1
  {
    match f {
      case Singular(_, kind) => KindAccepted(g, schemas, kind, v, fits);
      case Repeated(_, kind) =>
        if v.Array? {
          forall i | 0 <= i < |v.items|
            ensures Accepts(schemas, KindSchema(kind), v.items[i], fits) <==> IsKind(g, kind, v.items[i], fits)
          {
            KindAccepted(g, schemas, kind, v.items[i], fits);
          }
        }
      case Mapped(_, kind) =>
        if v.Object? {
          forall m | m in v.members
            ensures Accepts(schemas, KindSchema(kind), v.members[m], fits) <==> IsKind(g, kind, v.members[m], fits)
          {
            KindAccepted(g, schemas, kind, v.members[m], fits);
          }
        }
    }
  }

  lemma ReachableIsDocument(g: Graph, roots: set<Name>, schemas: Schemas)
    requires Closed(g)
    requires forall m :: m in schemas <==> Reachable(g, roots, m)
    requires forall m :: m in schemas ==> m in g && schemas[m] == Rendered(g, m)
    ensures Document(g, schemas)
  {
    forall n, f | n in schemas && f in g[n] && f.kind.Message? ensures f.kind.name in schemas {
      var k :| 0 <= k < |g[n]| && g[n][k] == f;
      assert Refers(g, n, f.kind.name);
      ReachableStep(g, roots, n, f.kind.name);
    }
  }

  /** The schema that the document holds for a reachable message accepts exactly the JSON
      values of that message: single, repeated and mapped fields, nested and recursive
      messages, and no other properties. */
  lemma DocumentAcceptsExactly(g: Graph, roots: set<Name>, schemas: Schemas, n: Name, v: Json, fits: Fits)
    requires Closed(g) && DistinctNames(g)
    requires forall m :: m in schemas <==> Reachable(g, roots, m)
    requires forall m :: m in schemas ==> m in g && schemas[m] == Rendered(g, m)
    requires n in schemas
    ensures Accepts(schemas, Ref(n), v, fits) <==> IsKind(g, Message(n), v, fits)
  {
    ReachableIsDocument(g, roots, schemas);
    KindAccepted(g, schemas, Message(n), v, fits);
  }
}
