/** The generation-keyed query cache (server/src/cache.rs): TTL and oldest-touched
    eviction under a byte budget, and one upstream call per key at a time. */
module Cache {
  import opened Basics
  import opened Errors

  /** `request` is the encoded request; together with the rpc it determines the call. */
  datatype Key = Key(generation: Gen, rpc: nat, request: nat)

  /** A stored answer: the JSON, when it was fetched and its serialized size. */
  datatype Response = Response(json: nat, fetchedAt: nat, size: nat)

  datatype Entry = Entry(response: Response, expires: nat, touched: nat)

  datatype Options = Options(ttl: nat, capacity: nat, maxBytes: nat, maxInflight: nat)

  type Flight = nat

  datatype State = State(cache: map<Key, Entry>, flights: map<Key, Flight>, bytes: nat)

  const EMPTY := State(map[], map[], 0)

  // ----- sizes -----

  ghost function Pick(m: map<Key, Entry>): (k: Key)
    requires m != map[]
    ensures k in m
  {
    var k :| k in m;
    k
  }

  ghost function Sum(m: map<Key, Entry>): nat {
    if m == map[] then 0 else m[Pick(m)].response.size + Sum(m - {Pick(m)})
  }

  lemma {:induction false} SumWithout(m: map<Key, Entry>, k: Key)
    requires k in m
    ensures Sum(m) == m[k].response.size + Sum(m - {k})
    decreases |m|
  {
    var j := Pick(m);
    if j != k {
      SumWithout(m - {j}, k);
      SumWithout(m - {k}, j);
      assert m - {j} - {k} == m - {k} - {j};
    }
  }

  lemma SumWith(m: map<Key, Entry>, k: Key, e: Entry)
    requires k !in m
    ensures Sum(m[k := e]) == Sum(m) + e.response.size
  {
    SumWithout(m[k := e], k);
    assert m[k := e] - {k} == m;
  }

  // ----- oldest first -----

  predicate Oldest(m: map<Key, Entry>, k: Key) {
    k in m && forall j :: j in m ==> m[k].touched <= m[j].touched
  }

  lemma {:induction false} SomeOldest(m: map<Key, Entry>) returns (k: Key)
    requires m != map[]
    ensures Oldest(m, k)
    decreases |m|
  {
    k :| k in m;
    var rest := m - {k};
    assert forall i :: i in m ==> i == k || i in rest;
    if rest != map[] {
      var j := SomeOldest(rest);
      if m[j].touched <= m[k].touched { k := j; }
    }
  }

  // ----- the locked section of a call -----

  /** What remains of the cache for a caller of generation g at a given time. */
  function Retained(m: map<Key, Entry>, g: Gen, now: nat): map<Key, Entry> {
    map k | k in m && k.generation == g && now < m[k].expires :: m[k]
  }

  datatype Answer =
    | Hit(response: Response)
    | Failed(kind: Kind)
    | Wait(flight: Flight, miss: bool)

  /** `refused` and `current` are the client's answers inside the section. */
  function Lookup(o: Options, s: State, key: Key, now: nat, refused: Option<Kind>, current: Gen, next: Flight): Answer {
    var kept := Retained(s.cache, key.generation, now);
    if key in kept then
      if refused.Some? then Failed(refused.value)
      else if current != key.generation then Failed(SessionChanged)
      else Hit(kept[key].response)
    else if key in s.flights then Wait(s.flights[key], false)
    else if |s.flights| >= o.maxInflight then Failed(QueueFull)
    else Wait(next, true)
  }

  ghost function AfterLookup(o: Options, s: State, key: Key, now: nat, refused: Option<Kind>, current: Gen,
                             next: Flight): State {
    var kept := Retained(s.cache, key.generation, now);
    State(if key in kept && refused.None? then kept[key := kept[key].(touched := now)] else kept,
          if Lookup(o, s, key, now, refused, current, next) == Wait(next, true) then s.flights[key := next]
          else s.flights,
          Sum(kept))
  }

  // ----- the locked section of a worker -----

  /** An answer is stored unless storing is off, blocked, or it cannot fit at all. */
  predicate Storable(o: Options, r: Response, refused: Option<Kind>) {
    refused.None? && o.capacity > 0 && o.ttl != 0 && r.size <= o.maxBytes
  }

  predicate Crowded(o: Options, m: map<Key, Entry>, r: Response, bytes: nat) {
    m != map[] && (|m| >= o.capacity || bytes + r.size > o.maxBytes)
  }

  function Without(m: map<Key, Entry>, victims: seq<Key>): map<Key, Entry> {
    m - (set k | k in victims)
  }

  /** r makes its i-th victim leave: it does not fit, and the victim is an oldest entry
      of what the earlier ones left. */
  ghost predicate Leaves(o: Options, m: map<Key, Entry>, r: Response, victims: seq<Key>, i: nat)
    requires i < |victims|
  {
    var rest := Without(m, victims[..i]);
    Crowded(o, rest, r, Sum(rest)) && Oldest(rest, victims[i])
  }

  ghost predicate AllLeave(o: Options, m: map<Key, Entry>, r: Response, victims: seq<Key>) {
    forall i :: 0 <= i < |victims| ==> Leaves(o, m, r, victims, i)
  }

  /** `victims` is what r evicts from m: oldest first, and none once it fits. */
  ghost predicate Eviction(o: Options, m: map<Key, Entry>, r: Response, victims: seq<Key>) {
    && AllLeave(o, m, r, victims)
    && !Crowded(o, Without(m, victims), r, Sum(Without(m, victims)))
  }

  lemma LeavesNext(o: Options, m: map<Key, Entry>, r: Response, victims: seq<Key>, k: Key)
    requires AllLeave(o, m, r, victims)
    requires Crowded(o, Without(m, victims), r, Sum(Without(m, victims))) && Oldest(Without(m, victims), k)
    ensures AllLeave(o, m, r, victims + [k])
  {
    forall i | 0 <= i < |victims + [k]| ensures Leaves(o, m, r, victims + [k], i) {
      if i < |victims| {
        assert Leaves(o, m, r, victims, i);
        assert (victims + [k])[..i] == victims[..i];
      } else {
        assert (victims + [k])[..i] == victims;
      }
    }
  }

  lemma WithoutLast(m: map<Key, Entry>, victims: seq<Key>, k: Key)
    ensures Without(m, victims + [k]) == Without(m, victims) - {k}
  {
  }

  lemma EvictNext(o: Options, m: map<Key, Entry>, r: Response, victims: seq<Key>, rest: map<Key, Entry>, bytes: nat,
                  k: Key)
    requires AllLeave(o, m, r, victims) && rest == Without(m, victims) && bytes == Sum(rest)
    requires Crowded(o, rest, r, bytes) && Oldest(rest, k)
    ensures AllLeave(o, m, r, victims + [k])
    ensures rest - {k} == Without(m, victims + [k])
    ensures bytes == rest[k].response.size + Sum(rest - {k})
  {
    LeavesNext(o, m, r, victims, k);
    WithoutLast(m, victims, k);
    SumWithout(rest, k);
  }

  /** The section's outcome for the waiters. */
  function Published(result: Result<Response, Kind>, key: Key, current: Gen): Result<Response, Kind> {
    if current != key.generation then Err(SessionChanged) else result
  }

  /** The state after a worker's section, when `left` remains of the entries. */
  ghost function AfterStoring(o: Options, s: State, left: map<Key, Entry>, key: Key, result: Result<Response, Kind>,
                         refused: Option<Kind>, now: nat): State {
    if result.Ok? && Storable(o, result.value, refused) then
      State(left[key := Entry(result.value, now + o.ttl, now)], s.flights - {key}, Sum(left) + result.value.size)
    else s.(flights := s.flights - {key})
  }

  ghost function AfterPublish(o: Options, s: State, key: Key, result: Result<Response, Kind>, refused: Option<Kind>,
                              now: nat, victims: seq<Key>): State {
    AfterStoring(o, s, Without(s.cache, victims), key, result, refused, now)
  }

  ghost predicate Chosen(o: Options, s: State, result: Result<Response, Kind>, refused: Option<Kind>,
                         victims: seq<Key>) {
    if result.Ok? && Storable(o, result.value, refused) then Eviction(o, s.cache, result.value, victims)
    else victims == []
  }

  // ----- invariant -----

  /** The books are exact and within the budgets; no key is both stored and in flight. */
  ghost predicate Valid(o: Options, s: State) {
    && s.bytes == Sum(s.cache)
    && s.bytes <= o.maxBytes
    && |s.cache| <= o.capacity
    && |s.flights| <= o.maxInflight
    && (forall k :: k in s.cache ==> k !in s.flights)
  }

  lemma {:induction false} SumOfPart(m: map<Key, Entry>, part: map<Key, Entry>)
    requires forall k :: k in part ==> k in m && m[k] == part[k]
    ensures Sum(part) <= Sum(m) && |part| <= |m|
    decreases |m|
  {
    if part != map[] {
      var k :| k in part;
      SumWithout(m, k);
      SumWithout(part, k);
      SumOfPart(m - {k}, part - {k});
      assert |m - {k}| == |m| - 1 && |part - {k}| == |part| - 1;
    }
  }

  lemma SumReplaced(m: map<Key, Entry>, k: Key, e: Entry)
    requires k in m && e.response == m[k].response
    ensures Sum(m[k := e]) == Sum(m)
  {
    SumWithout(m, k);
    SumWithout(m[k := e], k);
    assert m[k := e] - {k} == m - {k};
  }

  lemma RetainedFits(m: map<Key, Entry>, g: Gen, now: nat)
    ensures Sum(Retained(m, g, now)) <= Sum(m) && |Retained(m, g, now)| <= |m|
  {
    SumOfPart(m, Retained(m, g, now));
  }

  lemma LookupKeepsValid(o: Options, s: State, key: Key, now: nat, refused: Option<Kind>, current: Gen, next: Flight)
    requires Valid(o, s)
    ensures Valid(o, AfterLookup(o, s, key, now, refused, current, next))
  {
    var kept := Retained(s.cache, key.generation, now);
    RetainedFits(s.cache, key.generation, now);
    if key in kept {
      SumReplaced(kept, key, kept[key].(touched := now));
    }
  }

  lemma InsertedFits(o: Options, left: map<Key, Entry>, key: Key, e: Entry)
    requires key !in left && |left| < o.capacity && Sum(left) + e.response.size <= o.maxBytes
    ensures Sum(left[key := e]) == Sum(left) + e.response.size <= o.maxBytes && |left[key := e]| <= o.capacity
  {
    SumWith(left, key, e);
    assert |left[key := e]| == |left| + 1;
  }

  lemma FewerFlights(flights: map<Key, Flight>, key: Key)
    ensures |flights - {key}| <= |flights|
  {
    if key in flights {
      assert |flights - {key}| == |flights| - 1;
    } else {
      assert flights - {key} == flights;
    }
  }

  lemma RestFits(o: Options, m: map<Key, Entry>, r: Response, victims: seq<Key>)
    requires !Crowded(o, Without(m, victims), r, Sum(Without(m, victims))) && r.size <= o.maxBytes && o.capacity > 0
    ensures |Without(m, victims)| < o.capacity && Sum(Without(m, victims)) + r.size <= o.maxBytes
  {
  }

  lemma WithoutIsPart(m: map<Key, Entry>, victims: seq<Key>)
    ensures Without(m, victims).Keys <= m.Keys
  {
  }

  lemma ForgetKeepsValid(o: Options, s: State, key: Key)
    requires Valid(o, s)
    ensures Valid(o, s.(flights := s.flights - {key}))
  {
    FewerFlights(s.flights, key);
  }

  lemma BooksWith(o: Options, left: map<Key, Entry>, key: Key, e: Entry, cache: map<Key, Entry>, bytes: nat)
    requires key !in left && |left| < o.capacity && Sum(left) + e.response.size <= o.maxBytes
    requires cache == left[key := e] && bytes == Sum(left) + e.response.size
    ensures bytes == Sum(cache) <= o.maxBytes && |cache| <= o.capacity
  {
    InsertedFits(o, left, key, e);
  }

  lemma StoreKeepsBooks(o: Options, s: State, left: map<Key, Entry>, key: Key, result: Result<Response, Kind>,
                        refused: Option<Kind>, now: nat)
    requires result.Ok? && Storable(o, result.value, refused)
    requires key !in left && |left| < o.capacity && Sum(left) + result.value.size <= o.maxBytes
    ensures AfterStoring(o, s, left, key, result, refused, now).bytes ==
              Sum(AfterStoring(o, s, left, key, result, refused, now).cache) <= o.maxBytes
    ensures |AfterStoring(o, s, left, key, result, refused, now).cache| <= o.capacity
  {
    var t := AfterStoring(o, s, left, key, result, refused, now);
    BooksWith(o, left, key, Entry(result.value, now + o.ttl, now), t.cache, t.bytes);
  }

  /** The budget survives because a key in flight is not stored: otherwise inserting
      its answer would count the replaced one twice. */
  lemma StoreKeepsValid(o: Options, s: State, left: map<Key, Entry>, key: Key, result: Result<Response, Kind>,
                        refused: Option<Kind>, now: nat)
    requires Valid(o, s) && key in s.flights && left.Keys <= s.cache.Keys
    requires result.Ok? && Storable(o, result.value, refused)
    requires |left| < o.capacity && Sum(left) + result.value.size <= o.maxBytes
    ensures Valid(o, AfterStoring(o, s, left, key, result, refused, now))
  {
    FewerFlights(s.flights, key);
    StoreKeepsBooks(o, s, left, key, result, refused, now);
  }

  lemma ChosenFits(o: Options, s: State, result: Result<Response, Kind>, refused: Option<Kind>, victims: seq<Key>)
    requires Chosen(o, s, result, refused, victims) && result.Ok? && Storable(o, result.value, refused)
    ensures |Without(s.cache, victims)| < o.capacity
    ensures Sum(Without(s.cache, victims)) + result.value.size <= o.maxBytes
  {
    RestFits(o, s.cache, result.value, victims);
  }

  lemma PublishKeepsValid(o: Options, s: State, key: Key, result: Result<Response, Kind>, refused: Option<Kind>,
                          now: nat, victims: seq<Key>)
    requires Valid(o, s) && key in s.flights && Chosen(o, s, result, refused, victims)
    ensures Valid(o, AfterPublish(o, s, key, result, refused, now, victims))
  {
    if result.Ok? && Storable(o, result.value, refused) {
      WithoutIsPart(s.cache, victims);
      ChosenFits(o, s, result, refused, victims);
      StoreKeepsValid(o, s, Without(s.cache, victims), key, result, refused, now);
    } else {
      ForgetKeepsValid(o, s, key);
    }
  }

  lemma PartWithout(m: map<Key, Entry>, victims: seq<Key>, i: nat, k: Key)
    requires i <= |victims| && k in Without(m, victims)
    ensures k in Without(m, victims[..i])
  {
    assert forall j :: j in victims[..i] ==> j in victims;
  }

  /** A victim is at most as recently touched as anything that outlives it. */
  lemma VictimIsOldest(o: Options, m: map<Key, Entry>, r: Response, victims: seq<Key>, i: nat, j: nat, k: Key)
    requires Eviction(o, m, r, victims) && i < j <= |victims| && k in Without(m, victims[..j])
    ensures victims[i] in m && k != victims[i] && m[victims[i]].touched <= m[k].touched
  {
    assert Leaves(o, m, r, victims, i);
    PartWithout(m, victims[..j], i, k);
    assert victims[..j][..i] == victims[..i];
    assert victims[i] == victims[..j][i];
  }

  /** Least recently touched first: no survivor is older than a victim, and victims
      are distinct and go in the order of their age. */
  lemma OldestLeaveFirst(o: Options, m: map<Key, Entry>, r: Response, victims: seq<Key>)
    requires Eviction(o, m, r, victims)
    ensures forall i :: 0 <= i < |victims| ==> victims[i] in m
    ensures forall i, j :: 0 <= i < j < |victims| ==>
              victims[i] != victims[j] && m[victims[i]].touched <= m[victims[j]].touched
    ensures forall i, k :: 0 <= i < |victims| && k in Without(m, victims) ==> m[victims[i]].touched <= m[k].touched
  {
    forall i | 0 <= i < |victims| ensures victims[i] in m {
      assert Leaves(o, m, r, victims, i);
    }
    forall i, j | 0 <= i < j < |victims|
      ensures victims[i] != victims[j] && m[victims[i]].touched <= m[victims[j]].touched
    {
      assert Leaves(o, m, r, victims, j);
      VictimIsOldest(o, m, r, victims, i, j, victims[j]);
    }
    forall i, k | 0 <= i < |victims| && k in Without(m, victims)
      ensures m[victims[i]].touched <= m[k].touched
    {
      assert victims[..|victims|] == victims;
      VictimIsOldest(o, m, r, victims, i, |victims|, k);
    }
  }

  /** Evictions stop as soon as the answer fits, and it does fit then: with one victim
      fewer it would not have. */
  lemma EvictionsSuffice(o: Options, m: map<Key, Entry>, r: Response, victims: seq<Key>)
    requires Eviction(o, m, r, victims) && r.size <= o.maxBytes && o.capacity > 0
    ensures |Without(m, victims)| < o.capacity && Sum(Without(m, victims)) + r.size <= o.maxBytes
    ensures victims != [] ==>
              var more := Without(m, victims[..|victims| - 1]);
              |more| >= o.capacity || Sum(more) + r.size > o.maxBytes
  {
    if victims != [] {
      assert Leaves(o, m, r, victims, |victims| - 1);
    }
  }

  class QueryCache {
    const options: Options
    var cache: map<Key, Entry>
    var flights: map<Key, Flight>
    var bytes: nat

    ghost function Abs(): State
      reads this
    {
      State(cache, flights, bytes)
    }

    constructor (options: Options)
      ensures this.options == options && Abs() == EMPTY && Valid(options, Abs())
    {
      this.options := options;
      cache, flights, bytes := map[], map[], 0;
    }

    method Call(key: Key, now: nat, refused: Option<Kind>, current: Gen, next: Flight) returns (answer: Answer)
      modifies this
      ensures answer == Lookup(options, old(Abs()), key, now, refused, current, next)
      ensures Abs() == AfterLookup(options, old(Abs()), key, now, refused, current, next)
    {
      cache := Retained(cache, key.generation, now);
      bytes := SumOf(cache);
      if key in cache {
        if refused.Some? { return Failed(refused.value); }
        cache := cache[key := cache[key].(touched := now)];
        if current != key.generation { return Failed(SessionChanged); }
        return Hit(cache[key].response);
      }
      if key in flights {
        return Wait(flights[key], false);
      }
      if |flights| >= options.maxInflight { return Failed(QueueFull); }
      flights := flights[key := next];
      answer := Wait(next, true);
    }

    method SumOf(m: map<Key, Entry>) returns (total: nat)
      ensures total == Sum(m)
    {
      total := 0;
      var rest := m;
      while rest != map[]
        invariant total + Sum(rest) == Sum(m)
        decreases |rest|
      {
        var k :| k in rest;
        SumWithout(rest, k);
        total := total + rest[k].response.size;
        rest := rest - {k};
      }
    }

    method OldestKey(m: map<Key, Entry>) returns (k: Key)
      requires m != map[]
      ensures Oldest(m, k)
    {
      ghost var some := SomeOldest(m);
      k :| k in m && Oldest(m, k);
    }

    method Evict(r: Response) returns (ghost victims: seq<Key>)
      requires bytes == Sum(cache)
      modifies this`cache, this`bytes
      ensures Eviction(options, old(cache), r, victims)
      ensures cache == Without(old(cache), victims) && bytes == Sum(cache)
    {
      victims := [];
      ghost var m := cache;
      while Crowded(options, cache, r, bytes)
        invariant cache == Without(m, victims) && bytes == Sum(cache)
        invariant AllLeave(options, m, r, victims)
        decreases |cache|
      {
        var oldest := OldestKey(cache);
        EvictNext(options, m, r, victims, cache, bytes, oldest);
        bytes := bytes - cache[oldest].response.size;
        cache := cache - {oldest};
        victims := victims + [oldest];
      }
    }

    /** `now` is the time after the evictions. */
    method Publish(key: Key, answered: Result<Response, Kind>, current: Gen, refused: Option<Kind>, now: nat)
      returns (result: Result<Response, Kind>, ghost victims: seq<Key>)
      requires bytes == Sum(cache)
      modifies this
      ensures result == Published(answered, key, current)
      ensures Chosen(options, old(Abs()), result, refused, victims)
      ensures Abs() == AfterPublish(options, old(Abs()), key, result, refused, now, victims)
    {
      result := if current != key.generation then Err(SessionChanged) else answered;
      victims := [];
      if result.Ok? && refused.None? && options.capacity > 0 && options.ttl != 0
         && result.value.size <= options.maxBytes {
        victims := Evict(result.value);
        bytes := bytes + result.value.size;
        cache := cache[key := Entry(result.value, now + options.ttl, now)];
      }
      flights := flights - {key};
    }
  }
}
