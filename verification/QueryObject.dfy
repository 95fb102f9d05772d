/** server/src/query_params.rs: query parameters turned into a nested JSON object. */
module QueryObject {
  import opened Basics
  import opened Bytes
  import opened Json
  import opened Pairs
  import opened Query
  import opened Splitting
  import opened WebForm

  type Members = map<Name, Json>

  const MAX_QUERY: nat := 8192
  const MAX_PARAMETERS: nat := 256

  // ----- Inserting -----

  /** Adds a value at a path, creating the objects on the way. A repeated field grows an
      array; any other field is given once. */
  function Insert(target: Members, path: seq<Name>, value: Json, repeated: bool): Option<Members>
    requires path != []
    decreases |path|
  {
    var prior := if path[0] in target then Some(target[path[0]]) else None;
    if |path| > 1 then
      if prior.Some? && !prior.value.Object? then None
      else
        var nested := Insert(if prior.Some? then prior.value.members else map[], path[1..], value, repeated);
        if nested.Some? then Some(target[path[0] := Object(nested.value)]) else None
    else if repeated then
      if prior.Some? && !prior.value.Array? then None
      else Some(target[path[0] := Array((if prior.Some? then prior.value.items else []) + [value])])
    else if prior.Some? then None
    else Some(target[path[0] := value])
  }

  function Empties(always: set<Name>): Members {
    map f | f in always :: Object(map[])
  }

  /** One parameter added to the object. */
  function Added(root: Shape, target: Members, p: Pair): Option<Members> {
    var leaf := LeafAt(root, PathOf(p.0));
    if leaf.None? || !leaf.value.Leaf? || PathOf(p.0) == [] then None
    else
      var value := Scalar(leaf.value.kind, p.1);
      if value.None? then None else Insert(target, PathOf(p.0), value.value, leaf.value.repeated)
  }

  /** The object of a list of parameters; some fields are present from the start. */
  function Built(root: Shape, always: set<Name>, pairs: seq<Pair>): Option<Members> {
    if pairs == [] then Some(Empties(always))
    else if |pairs| > MAX_PARAMETERS then None
    else
      var before := Built(root, always, pairs[..|pairs| - 1]);
      if before.None? then None else Added(root, before.value, pairs[|pairs| - 1])
  }

  lemma {:induction false} LeafAtIsLeaf(shape: Shape, path: seq<Name>)
    ensures LeafAt(shape, path).Some? ==> LeafAt(shape, path).value.Leaf?
    decreases |path|
  {
    if shape.Message? && path != [] && Index(shape.fields, path[0]) < |shape.fields| {
      LeafAtIsLeaf(shape.fields[Index(shape.fields, path[0])].shape, path[1..]);
    }
  }

  lemma {:induction false} PrefixFails(root: Shape, always: set<Name>, pairs: seq<Pair>, k: nat)
    requires k <= |pairs| && Built(root, always, pairs[..k]).None?
    ensures Built(root, always, pairs).None?
  {
    if k < |pairs| {
      assert pairs[..|pairs| - 1][..k] == pairs[..k];
      PrefixFails(root, always, pairs[..|pairs| - 1], k);
    } else {
      assert pairs[..k] == pairs;
    }
  }

  lemma BuiltLast(root: Shape, always: set<Name>, pairs: seq<Pair>, p: Pair)
    ensures Built(root, always, pairs + [p]) ==
      if |pairs| >= MAX_PARAMETERS || Built(root, always, pairs).None? then None
      else Added(root, Built(root, always, pairs).value, p)
  {
    assert (pairs + [p])[..|pairs|] == pairs;
  }

  method Add(root: Shape, allowed: seq<(Name, Shape)>, target: Members, p: Pair) returns (r: Option<Members>)
    requires root.Message? && WellNamed(root) && allowed == Leaves(root.fields, [])
    ensures r == Added(root, target, p)
  {
    var (key, text) := p;
    FindIsLeafAt(root.fields, [], key);
    assert [] + key == key;
    LeafAtIsLeaf(root, PathOf(key));
    JoinSplit(key, DOT);
    var leaf := Find(allowed, key);
    if leaf.None? {
      return None;
    }
    var value := Scalar(leaf.value.kind, text);
    if value.None? {
      return None;
    }
    r := Insert(target, PathOf(key), value.value, leaf.value.repeated);
  }

  /** One turn of the loop: one more parameter, if that is not too many. */
  method Advance(root: Shape, ghost always: set<Name>, allowed: seq<(Name, Shape)>, pairs: seq<Pair>, k: nat,
                 target: Members) returns (next: Option<Members>)
    requires root.Message? && WellNamed(root) && allowed == Leaves(root.fields, [])
    requires k < |pairs| && Built(root, always, pairs[..k]) == Some(target)
    ensures next == Built(root, always, pairs[..k + 1])
  {
    assert pairs[..k + 1] == pairs[..k] + [pairs[k]];
    BuiltLast(root, always, pairs[..k], pairs[k]);
    if k >= MAX_PARAMETERS {
      return None;
    }
    next := Add(root, allowed, target, pairs[k]);
  }

  method BuildObject(root: Shape, always: set<Name>, pairs: seq<Pair>) returns (r: Option<Members>)
    requires root.Message? && WellNamed(root)
    ensures r == Built(root, always, pairs)
  {
    var allowed := Collect(root.fields, []);
    r := Some(Empties(always));
    for k := 0 to |pairs|
      invariant r.Some? && r == Built(root, always, pairs[..k])
    {
      r := Advance(root, always, allowed, pairs, k, r.value);
      if r.None? {
        PrefixFails(root, always, pairs, k + 1);
        return;
      }
    }
    assert pairs[..|pairs|] == pairs;
  }

  method WholeEscapes(raw: seq<Byte>) returns (ok: bool)
    ensures ok == WellEscaped(raw)
  {
    for k := 0 to |raw|
      invariant forall i :: 0 <= i < k && raw[i] == PERCENT ==> i + 2 < |raw| && Hex(raw[i + 1]) && Hex(raw[i + 2])
    {
      if raw[k] == PERCENT && !(k + 2 < |raw| && Hex(raw[k + 1]) && Hex(raw[k + 2])) {
        return false;
      }
    }
    ok := true;
  }

  method Parse(root: Shape, always: set<Name>, raw: seq<Byte>, lossy: seq<Byte> -> seq<Byte>)
    returns (r: Option<Members>)
    requires root.Message? && WellNamed(root)
    ensures r == if |raw| > 8192 || !Strict(raw) then None else Built(root, always, Parsed(raw, lossy))
  {
    if |raw| > MAX_QUERY {
      return None;
    }
    var whole := WholeEscapes(raw);
    if !whole || !Utf8(PercentDecode(raw)) {
      return None;
    }
    r := BuildObject(root, always, Parsed(raw, lossy));
  }

  // ----- What the object holds -----

  /** A value and the path it is put at. */
  datatype Item = Item(path: seq<Name>, value: Json)

  function Heads(items: seq<Item>): set<Name> {
    set k | 0 <= k < |items| && items[k].path != [] :: items[k].path[0]
  }

  /** The items below one name, seen from there. */
  function Under(items: seq<Item>, name: Name): seq<Item> {
    if items == [] then []
    else
      var last := items[|items| - 1];
      Under(items[..|items| - 1], name)
      + if last.path != [] && last.path[0] == name then [Item(last.path[1..], last.value)] else []
  }

  /** The values put at one path, in order. */
  function At(items: seq<Item>, path: seq<Name>): seq<Json> {
    if items == [] then []
    else
      var last := items[|items| - 1];
      At(items[..|items| - 1], path) + if last.path == path then [last.value] else []
  }

  /** The JSON value that a list of items amounts to, told without inserting: an object
      of what lies below each first name, an array of the values of a repeated field. */
  function Branch(shape: Shape, always: set<Name>, items: seq<Item>): Json
    decreases shape, 1
  {
    match shape
    case Leaf(_, repeated) =>
      if repeated then Array(At(items, [])) else if At(items, []) == [] then Null else At(items, [])[0]
    case Message(_) =>
      Object(map name | name in Heads(items) + always :: Twig(shape, items, name))
  }

  /** The part below one name. */
  function Twig(shape: Shape, items: seq<Item>, name: Name): Json
    requires shape.Message?
    decreases shape, 0
  {
    var i := Index(shape.fields, name);
    if i < |shape.fields| then Branch(shape.fields[i].shape, {}, Under(items, name)) else Null
  }

  function Child(shape: Shape, name: Name): Shape
    requires shape.Message? && Index(shape.fields, name) < |shape.fields|
  {
    shape.fields[Index(shape.fields, name)].shape
  }

  lemma TwigIs(shape: Shape, items: seq<Item>, name: Name)
    requires shape.Message?
    ensures Twig(shape, items, name) ==
      if Index(shape.fields, name) < |shape.fields| then Branch(Child(shape, name), {}, Under(items, name)) else Null
  {
  }

  /** The members of the object of a message. */
  function Tree(shape: Shape, always: set<Name>, items: seq<Item>): (m: Members)
    requires shape.Message?
    ensures Branch(shape, always, items) == Object(m)
    ensures m.Keys == Heads(items) + always
    ensures forall name :: name in m ==> m[name] == Twig(shape, items, name)
  {
    Branch(shape, always, items).members
  }

  lemma {:induction false} UnderHeads(items: seq<Item>, name: Name)
    ensures name in Heads(items) <==> Under(items, name) != []
  {
    if items != [] {
      var init := items[..|items| - 1];
      UnderHeads(init, name);
      HeadsLast(init, items[|items| - 1]);
      assert init + [items[|items| - 1]] == items;
    }
  }

  lemma HeadsLast(items: seq<Item>, item: Item)
    ensures Heads(items + [item]) == Heads(items) + if item.path == [] then {} else {item.path[0]}
  {
    var all := items + [item];
    forall name | name in Heads(items) ensures name in Heads(all) {
      var k :| 0 <= k < |items| && items[k].path != [] && items[k].path[0] == name;
      assert all[k] == items[k];
    }
    assert all[|items|] == item;
  }

  lemma AtLast(items: seq<Item>, item: Item, path: seq<Name>)
    ensures At(items + [item], path) == At(items, path) + if item.path == path then [item.value] else []
  {
    assert (items + [item])[..|items|] == items;
  }

  lemma UnderLast(items: seq<Item>, item: Item, name: Name)
    ensures Under(items + [item], name) ==
      Under(items, name) + if item.path != [] && item.path[0] == name then [Item(item.path[1..], item.value)] else []
  {
    assert (items + [item])[..|items|] == items;
  }

  lemma {:induction false} UnderAt(items: seq<Item>, name: Name, path: seq<Name>)
    ensures At(Under(items, name), path) == At(items, [name] + path)
  {
    if items != [] {
      var init, last := items[..|items| - 1], items[|items| - 1];
      UnderAt(init, name, path);
      assert init + [last] == items;
      UnderLast(init, last, name);
      AtLast(init, last, [name] + path);
      assert ([name] + path)[0] == name && ([name] + path)[1..] == path;
      if last.path != [] && last.path[0] == name {
        assert last.path == [name] + last.path[1..];
        AtLast(Under(init, name), Item(last.path[1..], last.value), path);
      } else {
        assert Under(items, name) == Under(init, name) && last.path != [name] + path;
      }
    }
  }

  /** Every item ends at a leaf of the shape. */
  ghost predicate Fit(shape: Shape, items: seq<Item>) {
    forall k :: 0 <= k < |items| ==> LeafAt(shape, items[k].path).Some?
  }

  lemma {:induction false} UnderFits(fields: seq<Field>, items: seq<Item>, name: Name)
    requires Fit(Message(fields), items) && Index(fields, name) < |fields|
    ensures Fit(fields[Index(fields, name)].shape, Under(items, name))
  {
    if items != [] {
      UnderFits(fields, items[..|items| - 1], name);
      assert LeafAt(Message(fields), items[|items| - 1].path).Some?;
    }
  }

  lemma {:induction false} LeafItems(shape: Shape, items: seq<Item>)
    requires shape.Leaf? && Fit(shape, items) && items != []
    ensures At(items, []) != []
  {
    assert items[|items| - 1].path == [];
  }

  predicate AlwaysMessages(shape: Shape, always: set<Name>) {
    shape.Message? && forall name :: name in always ==>
      Index(shape.fields, name) < |shape.fields| && shape.fields[Index(shape.fields, name)].shape.Message?
  }

  lemma TwigOther(shape: Shape, items: seq<Item>, item: Item, name: Name)
    requires shape.Message? && item.path != [] && name != item.path[0]
    ensures Twig(shape, items + [item], name) == Twig(shape, items, name)
  {
    UnderLast(items, item, name);
    assert Under(items + [item], name) == Under(items, name);
    TwigIs(shape, items, name);
    TwigIs(shape, items + [item], name);
  }

  /** One more item changes the object below its first name only. */
  lemma TreeLast(shape: Shape, always: set<Name>, items: seq<Item>, item: Item)
    requires shape.Message? && item.path != []
    ensures Tree(shape, always, items + [item]) ==
      Tree(shape, always, items)[item.path[0] := Twig(shape, items + [item], item.path[0])]
  {
    var name := item.path[0];
    var before, after := Tree(shape, always, items), Tree(shape, always, items + [item]);
    HeadsLast(items, item);
    assert after.Keys == before[name := Twig(shape, items + [item], name)].Keys;
    forall other | other in after && other != name ensures after[other] == before[other] {
      TwigOther(shape, items, item, other);
    }
  }

  lemma InsertLeaf(leaf: Shape, items: seq<Item>, value: Json)
    requires leaf.Leaf? && Fit(leaf, items)
    ensures items != [] ==> At(items, []) != []
    ensures Branch(leaf, {}, items + [Item([], value)]) ==
      if leaf.repeated then Array(At(items, []) + [value]) else (At(items, []) + [value])[0]
  {
    AtLast(items, Item([], value), []);
    if items != [] {
      LeafItems(leaf, items);
    }
  }

  /** Inserting at a longer path inserts below its first name. */
  lemma InsertInto(target: Members, path: seq<Name>, value: Json, repeated: bool, nested: Members)
    requires |path| > 1
    requires if path[0] in target then target[path[0]] == Object(nested) else nested == map[]
    ensures Insert(target, path, value, repeated) ==
      var below := Insert(nested, path[1..], value, repeated);
      if below.Some? then Some(target[path[0] := Object(below.value)]) else None
  {
  }

  /** What inserting does at the first name of a path, given the items below it. */
  lemma InsertAt(target: Members, child: Shape, below: seq<Item>, path: seq<Name>, value: Json)
    requires path != [] && LeafAt(child, path[1..]).Some? && LeafAt(child, path[1..]).value.Leaf? && Fit(child, below)
    requires path[0] in target <==> below != [] || (child.Message? && path[0] in target)
    requires path[0] in target ==> target[path[0]] == Branch(child, {}, below)
    requires |path| > 1 ==>
      Insert(Tree(child, {}, below), path[1..], value, LeafAt(child, path[1..]).value.repeated) ==
        if LeafAt(child, path[1..]).value.repeated || At(below, path[1..]) == []
        then Some(Tree(child, {}, below + [Item(path[1..], value)]))
        else None
    ensures Insert(target, path, value, LeafAt(child, path[1..]).value.repeated) ==
      if LeafAt(child, path[1..]).value.repeated || At(below, path[1..]) == []
      then Some(target[path[0] := Branch(child, {}, below + [Item(path[1..], value)])])
      else None
  {
    if |path| > 1 {
      InsertInto(target, path, value, LeafAt(child, path[1..]).value.repeated, Tree(child, {}, below));
    } else {
      assert path[1..] == [];
      InsertLeaf(child, below, value);
    }
  }

  /** Inserting an item keeps the object told by the items, and is refused exactly when a
      field that is not repeated already has a value. */
  lemma {:induction false} InsertTree(shape: Shape, always: set<Name>, items: seq<Item>, item: Item)
    requires AlwaysMessages(shape, always) && Fit(shape, items) && item.path != []
    requires LeafAt(shape, item.path).Some? && LeafAt(shape, item.path).value.Leaf?
    ensures Insert(Tree(shape, always, items), item.path, item.value, LeafAt(shape, item.path).value.repeated) ==
              if LeafAt(shape, item.path).value.repeated || At(items, item.path) == []
              then Some(Tree(shape, always, items + [item]))
              else None
    decreases |item.path|
  {
    var name, rest := item.path[0], item.path[1..];
    var child, below := Child(shape, name), Under(items, name);
    UnderHeads(items, name);
    UnderFits(shape.fields, items, name);
    TwigIs(shape, items, name);
    if rest != [] {
      InsertTree(child, {}, below, Item(rest, item.value));
    }
    InsertAt(Tree(shape, always, items), child, below, item.path, item.value);
    UnderAt(items, name, rest);
    assert [name] + rest == item.path;
    TreeLast(shape, always, items, item);
    UnderLast(items, item, name);
    TwigIs(shape, items + [item], name);
  }

  // ----- Which parameters are accepted, and what they give -----

  /** The item of a parameter, if its key is allowed and its value parses. */
  function ItemOf(root: Shape, p: Pair): Option<Item> {
    var leaf := LeafAt(root, PathOf(p.0));
    if leaf.None? || !leaf.value.Leaf? || PathOf(p.0) == [] then None
    else
      var value := Scalar(leaf.value.kind, p.1);
      if value.None? then None else Some(Item(PathOf(p.0), value.value))
  }

  predicate Readable(root: Shape, pairs: seq<Pair>) {
    forall k :: 0 <= k < |pairs| ==> ItemOf(root, pairs[k]).Some?
  }

  function Items(root: Shape, pairs: seq<Pair>): seq<Item> {
    if pairs == [] then []
    else
      var last := ItemOf(root, pairs[|pairs| - 1]);
      Items(root, pairs[..|pairs| - 1]) + if last.Some? then [last.value] else []
  }

  predicate MayRepeat(root: Shape, key: Name) {
    LeafAt(root, PathOf(key)).Some? && LeafAt(root, PathOf(key)).value.Leaf? && LeafAt(root, PathOf(key)).value.repeated
  }

  /** A key given more than once is that of a repeated field. */
  predicate UniqueScalars(root: Shape, pairs: seq<Pair>) {
    forall k :: 0 <= k < |pairs| ==> MayRepeat(root, pairs[k].0) || |Named(pairs, pairs[k].0)| == 1
  }

  predicate Accepted(root: Shape, pairs: seq<Pair>) {
    |pairs| <= 256 && Readable(root, pairs) && UniqueScalars(root, pairs)
  }

  lemma {:induction false} ItemsFit(root: Shape, pairs: seq<Pair>)
    ensures Fit(root, Items(root, pairs))
  {
    if pairs != [] {
      ItemsFit(root, pairs[..|pairs| - 1]);
    }
  }

  /** Keys and paths tell the same parameters apart. */
  lemma PathsAreKeys(a: Name, b: Name)
    ensures PathOf(a) == PathOf(b) <==> a == b
  {
    JoinSplit(a, DOT);
    JoinSplit(b, DOT);
  }

  /** The JSON values of the texts given to one key. */
  function Scalars(kind: Kind, texts: seq<seq<Byte>>): seq<Json> {
    if texts == [] then []
    else
      var last := Scalar(kind, texts[|texts| - 1]);
      Scalars(kind, texts[..|texts| - 1]) + if last.Some? then [last.value] else []
  }

  lemma {:induction false} ItemsAt(root: Shape, pairs: seq<Pair>, key: Name)
    requires Readable(root, pairs) && LeafAt(root, PathOf(key)).Some? && LeafAt(root, PathOf(key)).value.Leaf?
    ensures At(Items(root, pairs), PathOf(key)) == Scalars(LeafAt(root, PathOf(key)).value.kind, Named(pairs, key))
    ensures |At(Items(root, pairs), PathOf(key))| == |Named(pairs, key)|
  {
    if pairs != [] {
      var init, last := pairs[..|pairs| - 1], pairs[|pairs| - 1];
      ItemsAt(root, init, key);
      PathsAreKeys(last.0, key);
      AtLast(Items(root, init), ItemOf(root, last).value, PathOf(key));
      if last.0 == key {
        assert Named(pairs, key)[..|Named(pairs, key)| - 1] == Named(init, key);
      } else {
        assert Named(pairs, key) == Named(init, key);
      }
    }
  }

  lemma NamedLast(pairs: seq<Pair>, p: Pair, key: Name)
    ensures Named(pairs + [p], key) == Named(pairs, key) + if p.0 == key then [p.1] else []
  {
    assert (pairs + [p])[..|pairs|] == pairs;
  }

  lemma ReadableLast(root: Shape, pairs: seq<Pair>, p: Pair)
    ensures Readable(root, pairs + [p]) <==> Readable(root, pairs) && ItemOf(root, p).Some?
  {
    var all := pairs + [p];
    assert all[|pairs|] == p && forall k :: 0 <= k < |pairs| ==> all[k] == pairs[k];
    if Readable(root, all) {
      forall k | 0 <= k < |pairs| ensures ItemOf(root, pairs[k]).Some? {
        assert ItemOf(root, all[k]).Some?;
      }
    }
  }

  lemma UniqueBefore(root: Shape, pairs: seq<Pair>, p: Pair)
    requires UniqueScalars(root, pairs + [p])
    ensures UniqueScalars(root, pairs) && (MayRepeat(root, p.0) || Named(pairs, p.0) == [])
  {
    var all := pairs + [p];
    assert all[|pairs|] == p;
    NamedLast(pairs, p, p.0);
    forall k | 0 <= k < |pairs| ensures MayRepeat(root, pairs[k].0) || |Named(pairs, pairs[k].0)| == 1 {
      assert all[k] == pairs[k];
      NamedLast(pairs, p, pairs[k].0);
      NamedHolds(pairs, k);
    }
  }

  lemma UniqueAfter(root: Shape, pairs: seq<Pair>, p: Pair)
    requires UniqueScalars(root, pairs) && (MayRepeat(root, p.0) || Named(pairs, p.0) == [])
    ensures UniqueScalars(root, pairs + [p])
  {
    var all := pairs + [p];
    forall k | 0 <= k < |all| ensures MayRepeat(root, all[k].0) || |Named(all, all[k].0)| == 1 {
      NamedLast(pairs, p, all[k].0);
      if k < |pairs| {
        assert all[k] == pairs[k];
        NamedHolds(pairs, k);
      }
    }
  }

  lemma AcceptedLast(root: Shape, pairs: seq<Pair>, p: Pair)
    ensures Accepted(root, pairs + [p]) <==>
      |pairs| < MAX_PARAMETERS && Accepted(root, pairs) && ItemOf(root, p).Some? &&
      (MayRepeat(root, p.0) || Named(pairs, p.0) == [])
  {
    ReadableLast(root, pairs, p);
    if UniqueScalars(root, pairs + [p]) {
      UniqueBefore(root, pairs, p);
    } else if UniqueScalars(root, pairs) && (MayRepeat(root, p.0) || Named(pairs, p.0) == []) {
      UniqueAfter(root, pairs, p);
    }
  }

  lemma EmptyTree(shape: Shape, always: set<Name>)
    requires AlwaysMessages(shape, always)
    ensures Tree(shape, always, []) == Empties(always)
  {
    forall name | name in always ensures Twig(shape, [], name) == Object(map[]) {
      TwigIs(shape, [], name);
      assert Tree(Child(shape, name), {}, []) == map[];
    }
  }

  /** The object-building loop succeeds exactly on at most 256 parameters whose keys are
      allowed, whose values parse and whose scalar keys are unique, and gives the object
      that the parameters tell. */
  lemma {:induction false} BuiltObject(root: Shape, always: set<Name>, pairs: seq<Pair>)
    requires AlwaysMessages(root, always)
    ensures Built(root, always, pairs) ==
      if Accepted(root, pairs) then Some(Tree(root, always, Items(root, pairs))) else None
  {
    if pairs == [] {
      EmptyTree(root, always);
    } else {
      var init, last := pairs[..|pairs| - 1], pairs[|pairs| - 1];
      BuiltObject(root, always, init);
      assert init + [last] == pairs;
      AcceptedLast(root, init, last);
      if Accepted(root, init) && ItemOf(root, last).Some? {
        ItemsFit(root, init);
        ItemsAt(root, init, last.0);
        InsertTree(root, always, Items(root, init), ItemOf(root, last).value);
      }
    }
  }

  /** Reading an object along a path. */
  function Fetch(target: Members, path: seq<Name>): Option<Json>
    decreases |path|
  {
    if path == [] || path[0] !in target then None
    else if |path| == 1 then Some(target[path[0]])
    else if target[path[0]].Object? then Fetch(target[path[0]].members, path[1..])
    else None
  }

  lemma {:induction false} TreeAt(shape: Shape, always: set<Name>, items: seq<Item>, path: seq<Name>)
    requires AlwaysMessages(shape, always) && path != [] && LeafAt(shape, path).Some? && Fit(shape, items)
    requires LeafAt(shape, path).value.Leaf?
    ensures Fetch(Tree(shape, always, items), path) ==
      if At(items, path) == [] then None
      else if LeafAt(shape, path).value.repeated then Some(Array(At(items, path)))
      else Some(At(items, path)[0])
    decreases |path|
  {
    var name, rest := path[0], path[1..];
    var child, below := Child(shape, name), Under(items, name);
    UnderHeads(items, name);
    UnderFits(shape.fields, items, name);
    UnderAt(items, name, rest);
    TwigIs(shape, items, name);
    assert [name] + rest == path;
    if |path| > 1 {
      TreeAt(child, {}, below, rest);
      assert Branch(child, {}, below) == Object(Tree(child, {}, below));
    } else if below != [] {
      assert rest == [];
      LeafItems(child, below);
    }
  }

  /** An accepted list of parameters gives every allowed key exactly its own values: the
      array of them, in order and with duplicates, for a repeated field; the one value
      for any other; and nothing where the key was not given. */
  lemma ObjectHolds(root: Shape, always: set<Name>, pairs: seq<Pair>, key: Name)
    requires AlwaysMessages(root, always) && Accepted(root, pairs) && PathOf(key) != []
    requires LeafAt(root, PathOf(key)).Some? && LeafAt(root, PathOf(key)).value.Leaf?
    ensures Built(root, always, pairs).Some?
    ensures var leaf := LeafAt(root, PathOf(key)).value;
            var values := Scalars(leaf.kind, Named(pairs, key));
            |values| == |Named(pairs, key)| &&
            Fetch(Built(root, always, pairs).value, PathOf(key)) ==
              if values == [] then None else if leaf.repeated then Some(Array(values)) else Some(values[0])
  {
    BuiltObject(root, always, pairs);
    ItemsFit(root, pairs);
    ItemsAt(root, pairs, key);
    TreeAt(root, always, Items(root, pairs), PathOf(key));
  }

  lemma ScalarsLast(kind: Kind, texts: seq<seq<Byte>>)
    requires texts != [] && Scalar(kind, texts[|texts| - 1]).Some?
    ensures Scalars(kind, texts) == Scalars(kind, texts[..|texts| - 1]) + [Scalar(kind, texts[|texts| - 1]).value]
  {
  }

  lemma {:induction false} ScalarsAt(kind: Kind, texts: seq<seq<Byte>>, k: nat)
    requires forall i :: 0 <= i < |texts| ==> Scalar(kind, texts[i]).Some?
    requires k < |texts|
    ensures |Scalars(kind, texts)| == |texts| && Scalars(kind, texts)[k] == Scalar(kind, texts[k]).value
  {
    ScalarsLast(kind, texts);
    if |texts| > 1 {
      ScalarsAt(kind, texts[..|texts| - 1], if k < |texts| - 1 then k else 0);
    }
  }

  /** Each of these values says what the text given for it says. */
  lemma ObjectSays(root: Shape, pairs: seq<Pair>, key: Name, k: nat)
    requires Accepted(root, pairs) && LeafAt(root, PathOf(key)).Some? && LeafAt(root, PathOf(key)).value.Leaf?
    requires k < |Named(pairs, key)|
    ensures var kind := LeafAt(root, PathOf(key)).value.kind;
            var values := Scalars(kind, Named(pairs, key));
            k < |values| && Says(kind, Named(pairs, key)[k], values[k])
  {
    var kind, texts := LeafAt(root, PathOf(key)).value.kind, Named(pairs, key);
    forall i | 0 <= i < |texts| ensures Scalar(kind, texts[i]).Some? {
      NamedIsThere(pairs, key, texts[i]);
      var j :| 0 <= j < |pairs| && pairs[j] == (key, texts[i]);
      assert ItemOf(root, pairs[j]).Some?;
    }
    ScalarsAt(kind, texts, k);
    ScalarsSay(kind, texts[k]);
  }

  // ----- Order across keys does not matter -----

  lemma {:induction false} BranchSame(shape: Shape, always: set<Name>, a: seq<Item>, b: seq<Item>)
    requires forall path :: At(a, path) == At(b, path)
    ensures Branch(shape, always, a) == Branch(shape, always, b)
    decreases shape
  {
    assert At(a, []) == At(b, []);
    if shape.Message? {
      HeadsSame(a, b);
      forall name | Index(shape.fields, name) < |shape.fields|
        ensures Branch(Child(shape, name), {}, Under(a, name)) == Branch(Child(shape, name), {}, Under(b, name))
      {
        UnderSame(a, b, name);
        BranchSame(Child(shape, name), {}, Under(a, name), Under(b, name));
      }
    }
  }

  lemma UnderSame(a: seq<Item>, b: seq<Item>, name: Name)
    requires forall path :: At(a, path) == At(b, path)
    ensures forall path :: At(Under(a, name), path) == At(Under(b, name), path)
  {
    forall path ensures At(Under(a, name), path) == At(Under(b, name), path) {
      UnderAt(a, name, path);
      UnderAt(b, name, path);
    }
  }

  lemma HeadsSame(a: seq<Item>, b: seq<Item>)
    requires forall path :: At(a, path) == At(b, path)
    ensures Heads(a) == Heads(b)
  {
    forall name ensures name in Heads(a) <==> name in Heads(b) {
      if name in Heads(a) {
        SameHeads(a, b, name);
      } else if name in Heads(b) {
        SameHeads(b, a, name);
      }
    }
  }

  lemma {:induction false} AtHolds(items: seq<Item>, k: nat)
    requires k < |items|
    ensures At(items, items[k].path) != []
  {
    if k < |items| - 1 {
      AtHolds(items[..|items| - 1], k);
    }
  }

  lemma {:induction false} AtIsThere(items: seq<Item>, path: seq<Name>)
    requires At(items, path) != []
    ensures exists k :: 0 <= k < |items| && items[k].path == path
  {
    var init := items[..|items| - 1];
    if At(init, path) != [] {
      AtIsThere(init, path);
      var k :| 0 <= k < |init| && init[k].path == path;
      assert items[k].path == path;
    } else {
      assert items[|items| - 1].path == path;
    }
  }

  lemma SameHeads(a: seq<Item>, b: seq<Item>, name: Name)
    requires (forall path :: At(a, path) == At(b, path)) && name in Heads(a)
    ensures name in Heads(b)
  {
    var k :| 0 <= k < |a| && a[k].path != [] && a[k].path[0] == name;
    AtHolds(a, k);
    assert At(a, a[k].path) == At(b, a[k].path);
    AtIsThere(b, a[k].path);
  }

  lemma {:induction false} Counted(pairs: seq<Pair>, p: Pair)
    ensures multiset(pairs)[p] == multiset(Named(pairs, p.0))[p.1]
  {
    if pairs != [] {
      var init, last := pairs[..|pairs| - 1], pairs[|pairs| - 1];
      Counted(init, p);
      assert pairs == init + [last];
      NamedLast(init, last, p.0);
    }
  }

  lemma SameNamed(a: seq<Pair>, b: seq<Pair>)
    requires forall key :: Named(a, key) == Named(b, key)
    ensures multiset(a) == multiset(b) && |a| == |b|
  {
    forall p: Pair ensures multiset(a)[p] == multiset(b)[p] {
      Counted(a, p);
      Counted(b, p);
      assert Named(a, p.0) == Named(b, p.0);
    }
    assert multiset(a) == multiset(b);
    assert |a| == |multiset(a)| == |multiset(b)| == |b|;
  }

  lemma SameAccepted(root: Shape, a: seq<Pair>, b: seq<Pair>)
    requires (forall key :: Named(a, key) == Named(b, key)) && Accepted(root, a)
    ensures Accepted(root, b)
  {
    SameNamed(a, b);
    forall k | 0 <= k < |b|
      ensures ItemOf(root, b[k]).Some? && (MayRepeat(root, b[k].0) || |Named(b, b[k].0)| == 1)
    {
      assert b[k] in multiset(b);
      assert b[k] in a;
      var j :| 0 <= j < |a| && a[j] == b[k];
      assert Named(a, b[k].0) == Named(b, b[k].0);
    }
  }

  lemma {:induction false} ItemPathsAreKeys(root: Shape, pairs: seq<Pair>, path: seq<Name>)
    requires At(Items(root, pairs), path) != []
    ensures exists key :: PathOf(key) == path && LeafAt(root, path).Some? && LeafAt(root, path).value.Leaf?
  {
    var init, last := pairs[..|pairs| - 1], pairs[|pairs| - 1];
    if ItemOf(root, last).Some? {
      AtLast(Items(root, init), ItemOf(root, last).value, path);
    } else {
      assert Items(root, pairs) == Items(root, init);
    }
    if At(Items(root, init), path) != [] {
      ItemPathsAreKeys(root, init, path);
    } else {
      assert PathOf(last.0) == path;
    }
  }

  lemma SameAt(root: Shape, a: seq<Pair>, b: seq<Pair>, path: seq<Name>)
    requires (forall key :: Named(a, key) == Named(b, key)) && Readable(root, a) && Readable(root, b)
    ensures At(Items(root, a), path) == At(Items(root, b), path)
  {
    if At(Items(root, a), path) != [] || At(Items(root, b), path) != [] {
      ItemPathsAreKeys(root, if At(Items(root, a), path) != [] then a else b, path);
      var key :| PathOf(key) == path && LeafAt(root, path).Some? && LeafAt(root, path).value.Leaf?;
      ItemsAt(root, a, key);
      ItemsAt(root, b, key);
      assert Named(a, key) == Named(b, key);
    }
  }

  /** Two lists of parameters that give every key the same values in the same order build
      the same object, or are both refused. */
  lemma OrderAcrossKeys(root: Shape, always: set<Name>, a: seq<Pair>, b: seq<Pair>)
    requires AlwaysMessages(root, always) && forall key :: Named(a, key) == Named(b, key)
    ensures Built(root, always, a) == Built(root, always, b)
  {
    BuiltObject(root, always, a);
    BuiltObject(root, always, b);
    if Accepted(root, a) {
      SameAccepted(root, a, b);
      forall path ensures At(Items(root, a), path) == At(Items(root, b), path) {
        SameAt(root, a, b, path);
      }
      BranchSame(root, always, Items(root, a), Items(root, b));
    } else if Accepted(root, b) {
      SameAccepted(root, b, a);
      assert false;
    }
  }
}
