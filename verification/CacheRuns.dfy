/** Runs of the query cache: callers, workers and session changes interleaved freely
    (server/src/cache.rs). Each locked section is one step. */
module CacheRuns {
  import opened Basics
  import opened Errors
  import opened Cache

  /** A worker executes its key's query, then carries the outcome to the cache. */
  datatype Worker = Worker(key: Key, outcome: Option<Result<Response, Kind>>)

  datatype Waiter = Waiter(key: Key, flight: Flight)

  datatype World = World(
    s: State,
    current: Gen,                           // the client's current generation
    now: nat,
    nextFlight: Flight,
    calls: map<nat, Key>,                   // callers on their way to the lock
    waiters: map<nat, Waiter>,
    workers: map<Flight, Worker>,
    results: map<Flight, Result<Response, Kind>>,  // published to the receivers
    // history
    executed: set<(Key, Response)>,         // successful upstream answers, by the query executed
    keyOf: map<Flight, Key>,
    born: map<Key, nat>,                    // when the stored answer was inserted
    used: map<Key, nat>)                    // ... or last found for a caller not refused

  /** `refused` is what the client's local admission check says in that section. */
  datatype Event =
    | Begin(call: nat, rpc: nat, request: nat)
    | Enter(call: nat, refused: Option<Kind>)
    | Execute(flight: Flight, tag: Gen, answer: Result<Response, Kind>)
    | Publish(flight: Flight, refused: Option<Kind>, victims: seq<Key>)
    | Wake(call: nat, refused: Option<Kind>)
    | Abandon(call: nat)
    | Rotate(gen: Gen)
    | Tick

  ghost predicate Enabled(o: Options, w: World, e: Event) {
    match e
    case Begin(call, _, _) => call !in w.calls && call !in w.waiters
    case Enter(call, _) => call in w.calls
    case Execute(f, _, _) => f in w.workers && w.workers[f].outcome.None?
    case Publish(f, refused, victims) =>
      && f in w.workers && w.workers[f].outcome.Some?
      && Chosen(o, w.s, Published(w.workers[f].outcome.value, w.workers[f].key, w.current), refused, victims)
    case Wake(call, _) => call in w.waiters && w.waiters[call].flight in w.results
    case Abandon(call) => call in w.calls || call in w.waiters
    case Rotate(_) => true
    case Tick => true
  }

  /** The worker's own check of an upstream answer: labelled with, and arriving in, the
      generation it asked for. */
  function Accepted(key: Key, tag: Gen, answer: Result<Response, Kind>, current: Gen): Result<Response, Kind> {
    if answer.Ok? && (tag != key.generation || current != key.generation) then Err(SessionChanged) else answer
  }

  function Looked(o: Options, w: World, call: nat, refused: Option<Kind>): Answer
    requires call in w.calls
  {
    Lookup(o, w.s, w.calls[call], w.now, refused, w.current, w.nextFlight)
  }

  /** The caller leaves with its reply, or waits; a miss also starts a worker. */
  function Answered(w: World, call: nat, key: Key, s: State, answer: Answer): World {
    if answer.Wait? then
      var f, miss := answer.flight, answer.miss;
      w.(s := s, calls := w.calls - {call}, waiters := w.waiters[call := Waiter(key, f)],
         workers := if miss then w.workers[f := Worker(key, None)] else w.workers,
         keyOf := if miss then w.keyOf[f := key] else w.keyOf,
         nextFlight := if miss then w.nextFlight + 1 else w.nextFlight)
    else w.(s := s, calls := w.calls - {call})
  }

  /** The call's key has an answer in store that has not expired. */
  predicate Stored(w: World, call: nat)
    requires call in w.calls
  {
    w.calls[call] in w.s.cache && w.now < w.s.cache[w.calls[call]].expires
  }

  function UsedBy(w: World, call: nat, refused: Option<Kind>): map<Key, nat>
    requires call in w.calls
  {
    if Stored(w, call) && refused.None? then w.used[w.calls[call] := w.now] else w.used
  }

  ghost function Entered(o: Options, w: World, call: nat, refused: Option<Kind>): World
    requires call in w.calls
  {
    var key := w.calls[call];
    var t := AfterLookup(o, w.s, key, w.now, refused, w.current, w.nextFlight);
    Answered(w, call, key, t, Looked(o, w, call, refused)).(used := UsedBy(w, call, refused))
  }

  ghost function Settled(o: Options, w: World, f: Flight, refused: Option<Kind>, victims: seq<Key>): World
    requires f in w.workers && w.workers[f].outcome.Some?
  {
    var key := w.workers[f].key;
    var result := Published(w.workers[f].outcome.value, key, w.current);
    w.(s := AfterPublish(o, w.s, key, result, refused, w.now, victims),
       results := w.results[f := result], workers := w.workers - {f},
       born := if result.Ok? && Storable(o, result.value, refused) then w.born[key := w.now] else w.born,
       used := if result.Ok? && Storable(o, result.value, refused) then w.used[key := w.now] else w.used)
  }

  ghost function Step(o: Options, w: World, e: Event): World
    requires Enabled(o, w, e)
  {
    match e
    case Begin(call, rpc, request) => w.(calls := w.calls[call := Key(w.current, rpc, request)])
    case Enter(call, refused) => Entered(o, w, call, refused)
    case Execute(f, tag, answer) =>
      var key := w.workers[f].key;
      w.(workers := w.workers[f := Worker(key, Some(Accepted(key, tag, answer, w.current)))],
         executed := if answer.Ok? && tag == key.generation then w.executed + {(key, answer.value)} else w.executed)
    case Publish(f, refused, victims) => Settled(o, w, f, refused, victims)
    case Wake(call, _) => w.(waiters := w.waiters - {call})
    case Abandon(call) => w.(calls := w.calls - {call}, waiters := w.waiters - {call})
    case Rotate(g) => w.(current := g)
    case Tick => w.(now := w.now + 1)
  }

  /** What the caller gets when the event completes its call. */
  ghost function Reply(o: Options, w: World, e: Event): Option<Result<Response, Kind>>
    requires Enabled(o, w, e)
  {
    match e
    case Enter(call, refused) =>
      (match Looked(o, w, call, refused)
       case Hit(r) => Some(Ok(r))
       case Failed(k) => Some(Err(k))
       case Wait(_, _) => None)
    case Wake(call, refused) =>
      if refused.Some? then Some(Err(refused.value))
      else if w.current != w.waiters[call].key.generation then Some(Err(SessionChanged))
      else Some(w.results[w.waiters[call].flight])
    case _ => None
  }

  ghost predicate Initial(w: World) {
    && w.s == EMPTY && w.nextFlight == 0 && w.calls == map[] && w.waiters == map[] && w.workers == map[]
    && w.results == map[] && w.executed == {} && w.keyOf == map[] && w.born == map[]
    && w.used == map[]
  }

  ghost predicate Run(o: Options, ws: seq<World>, es: seq<Event>) {
    && |ws| == |es| + 1 && Initial(ws[0])
    && forall k {:trigger es[k]} :: 0 <= k < |es| ==> Enabled(o, ws[k], es[k]) && ws[k + 1] == Step(o, ws[k], es[k])
  }

  // ----- invariants -----

  ghost predicate Matched(flights: map<Key, Flight>, workers: map<Flight, Worker>) {
    && (forall k :: k in flights ==> flights[k] in workers && workers[flights[k]].key == k)
    && (forall f :: f in workers ==> workers[f].key in flights && flights[workers[f].key] == f)
  }

  /** Every flight has one key for good, and a worker or a result, never both. */
  ghost predicate Known(w: World) {
    && (forall f :: f in w.workers ==> f in w.keyOf && w.keyOf[f] == w.workers[f].key && f !in w.results)
    && (forall f :: f in w.results ==> f in w.keyOf)
    && (forall f :: f in w.keyOf ==> f < w.nextFlight)
  }

  ghost predicate Attended(w: World) {
    && w.calls.Keys !! w.waiters.Keys
    && (forall c :: c in w.waiters ==>
          var f := w.waiters[c].flight;
          f in w.keyOf && w.keyOf[f] == w.waiters[c].key && (f in w.workers || f in w.results))
  }

  /** Flights and workers correspond one to one, and no receiver waits in vain. */
  ghost predicate OneWorkerPerFlight(w: World) {
    Matched(w.s.flights, w.workers) && Known(w) && Attended(w)
  }

  ghost predicate StoredGenuine(o: Options, cache: map<Key, Entry>, executed: set<(Key, Response)>,
                                born: map<Key, nat>, now: nat) {
    forall k :: k in cache ==>
      && (k, cache[k].response) in executed
      && k in born && born[k] <= now && cache[k].expires == born[k] + o.ttl
  }

  ghost predicate CarriedGenuine(workers: map<Flight, Worker>, executed: set<(Key, Response)>) {
    forall f :: f in workers && workers[f].outcome.Some? && workers[f].outcome.value.Ok? ==>
      (workers[f].key, workers[f].outcome.value.value) in executed
  }

  ghost predicate PublishedGenuine(results: map<Flight, Result<Response, Kind>>, keyOf: map<Flight, Key>,
                                   executed: set<(Key, Response)>) {
    forall f :: f in results && results[f].Ok? ==> f in keyOf && (keyOf[f], results[f].value) in executed
  }

  /** Everything stored, carried or published is an upstream answer to its key's query,
      and leaves the store ttl after it entered. */
  ghost predicate Genuine(o: Options, w: World) {
    && StoredGenuine(o, w.s.cache, w.executed, w.born, w.now)
    && CarriedGenuine(w.workers, w.executed)
    && PublishedGenuine(w.results, w.keyOf, w.executed)
  }

  ghost predicate Inv(o: Options, w: World) {
    Valid(o, w.s) && OneWorkerPerFlight(w) && Genuine(o, w)
  }

  lemma LaunchKeepsMatched(flights: map<Key, Flight>, workers: map<Flight, Worker>, key: Key, f: Flight)
    requires Matched(flights, workers) && key !in flights && f !in workers
    ensures Matched(flights[key := f], workers[f := Worker(key, None)])
  {
  }

  lemma LaunchKeepsKnown(w: World, call: nat, key: Key, s: State)
    requires Known(w) && Attended(w) && call in w.calls
    ensures Known(Answered(w, call, key, s, Wait(w.nextFlight, true)))
    ensures Attended(Answered(w, call, key, s, Wait(w.nextFlight, true)))
  {
  }

  lemma MissKeepsWorkers(w: World, call: nat, key: Key, s: State)
    requires OneWorkerPerFlight(w) && call in w.calls
    requires key !in w.s.flights && s.flights == w.s.flights[key := w.nextFlight]
    ensures OneWorkerPerFlight(Answered(w, call, key, s, Wait(w.nextFlight, true)))
  {
    LaunchKeepsMatched(w.s.flights, w.workers, key, w.nextFlight);
    LaunchKeepsKnown(w, call, key, s);
  }

  lemma JoinKeepsAttended(w: World, call: nat, key: Key, f: Flight)
    requires Attended(w) && call in w.calls
    requires f in w.keyOf && w.keyOf[f] == key && (f in w.workers || f in w.results)
    ensures Attended(w.(calls := w.calls - {call}, waiters := w.waiters[call := Waiter(key, f)]))
  {
  }

  lemma LeaveKeepsAttended(w: World, call: nat)
    requires Attended(w)
    ensures Attended(w.(calls := w.calls - {call}))
  {
  }

  /** A caller that does not start a worker leaves flights and workers alone. */
  lemma AnswerKeepsWorkers(w: World, call: nat, key: Key, s: State, answer: Answer)
    requires OneWorkerPerFlight(w) && call in w.calls && s.flights == w.s.flights
    requires answer.Wait? ==> !answer.miss && key in w.s.flights && w.s.flights[key] == answer.flight
    ensures OneWorkerPerFlight(Answered(w, call, key, s, answer))
  {
    if answer.Wait? {
      JoinKeepsAttended(w, call, key, answer.flight);
    } else {
      LeaveKeepsAttended(w, call);
    }
  }

  lemma LookupKeepsGenuine(o: Options, s: State, key: Key, now: nat, refused: Option<Kind>, current: Gen, next: Flight,
                           executed: set<(Key, Response)>, born: map<Key, nat>)
    requires StoredGenuine(o, s.cache, executed, born, now)
    ensures StoredGenuine(o, AfterLookup(o, s, key, now, refused, current, next).cache, executed, born, now)
  {
  }

  lemma LaunchKeepsGenuine(w: World, f: Flight, key: Key)
    requires CarriedGenuine(w.workers, w.executed) && PublishedGenuine(w.results, w.keyOf, w.executed)
    requires f !in w.results
    ensures CarriedGenuine(w.workers[f := Worker(key, None)], w.executed)
    ensures PublishedGenuine(w.results, w.keyOf[f := key], w.executed)
  {
  }

  lemma AnswerKeepsGenuine(o: Options, w: World, call: nat, key: Key, s: State, answer: Answer)
    requires Genuine(o, w) && StoredGenuine(o, s.cache, w.executed, w.born, w.now)
    requires answer.Wait? ==> answer.flight !in w.results || !answer.miss
    ensures Genuine(o, Answered(w, call, key, s, answer))
  {
    if answer.Wait? && answer.miss {
      LaunchKeepsGenuine(w, answer.flight, key);
    }
  }

  lemma PublishKeepsWorkers(o: Options, w: World, f: Flight, refused: Option<Kind>, victims: seq<Key>)
    requires OneWorkerPerFlight(w) && f in w.workers && w.workers[f].outcome.Some?
    ensures OneWorkerPerFlight(Settled(o, w, f, refused, victims))
  {
  }

  lemma PublishKeepsGenuine(o: Options, w: World, f: Flight, refused: Option<Kind>, victims: seq<Key>)
    requires Genuine(o, w) && OneWorkerPerFlight(w) && f in w.workers && w.workers[f].outcome.Some?
    ensures Genuine(o, Settled(o, w, f, refused, victims))
  {
  }

  /** What a lookup may answer, and what it does to the flights. */
  predicate Answers(s: State, key: Key, next: Flight, t: State, answer: Answer) {
    if answer.Wait? && answer.miss then
      answer.flight == next && key !in s.flights && t.flights == s.flights[key := next]
    else
      t.flights == s.flights && (answer.Wait? ==> key in s.flights && s.flights[key] == answer.flight)
  }

  lemma LookupAnswers(o: Options, s: State, key: Key, now: nat, refused: Option<Kind>, current: Gen, next: Flight)
    requires forall k :: k in s.flights ==> s.flights[k] != next
    ensures Answers(s, key, next, AfterLookup(o, s, key, now, refused, current, next),
                    Lookup(o, s, key, now, refused, current, next))
  {
  }

  lemma AnswerKeeps(o: Options, w: World, call: nat, key: Key, t: State, answer: Answer)
    requires Inv(o, w) && call in w.calls && Answers(w.s, key, w.nextFlight, t, answer)
    requires Valid(o, t) && StoredGenuine(o, t.cache, w.executed, w.born, w.now)
    ensures Inv(o, Answered(w, call, key, t, answer))
  {
    if answer.Wait? && answer.miss {
      MissKeepsWorkers(w, call, key, t);
    } else {
      AnswerKeepsWorkers(w, call, key, t, answer);
    }
    AnswerKeepsGenuine(o, w, call, key, t, answer);
  }

  lemma NextFlightIsNew(w: World)
    requires OneWorkerPerFlight(w)
    ensures forall k :: k in w.s.flights ==> w.s.flights[k] != w.nextFlight
  {
  }

  lemma UseKeeps(o: Options, w: World, used: map<Key, nat>)
    requires Inv(o, w)
    ensures Inv(o, w.(used := used))
  {
  }

  lemma EnterKeeps(o: Options, w: World, call: nat, refused: Option<Kind>)
    requires Inv(o, w) && call in w.calls
    ensures Inv(o, Entered(o, w, call, refused))
  {
    var key := w.calls[call];
    NextFlightIsNew(w);
    LookupAnswers(o, w.s, key, w.now, refused, w.current, w.nextFlight);
    LookupKeepsValid(o, w.s, key, w.now, refused, w.current, w.nextFlight);
    LookupKeepsGenuine(o, w.s, key, w.now, refused, w.current, w.nextFlight, w.executed, w.born);
    var t, answer := AfterLookup(o, w.s, key, w.now, refused, w.current, w.nextFlight), Looked(o, w, call, refused);
    AnswerKeeps(o, w, call, key, t, answer);
    UseKeeps(o, Answered(w, call, key, t, answer), UsedBy(w, call, refused));
  }

  lemma PublishKeeps(o: Options, w: World, f: Flight, refused: Option<Kind>, victims: seq<Key>)
    requires Inv(o, w) && f in w.workers && w.workers[f].outcome.Some?
    requires Chosen(o, w.s, Published(w.workers[f].outcome.value, w.workers[f].key, w.current), refused, victims)
    ensures Inv(o, Settled(o, w, f, refused, victims))
  {
    var key := w.workers[f].key;
    PublishKeepsValid(o, w.s, key, Published(w.workers[f].outcome.value, key, w.current), refused, w.now, victims);
    PublishKeepsWorkers(o, w, f, refused, victims);
    PublishKeepsGenuine(o, w, f, refused, victims);
  }

  lemma ExecuteKeepsWorkers(w: World, f: Flight, outcome: Result<Response, Kind>)
    requires OneWorkerPerFlight(w) && f in w.workers
    ensures OneWorkerPerFlight(w.(workers := w.workers[f := Worker(w.workers[f].key, Some(outcome))]))
  {
  }

  lemma ExecuteKeepsGenuine(o: Options, w: World, w': World, f: Flight, outcome: Result<Response, Kind>)
    requires Genuine(o, w) && f in w.workers
    requires w' == w.(workers := w.workers[f := Worker(w.workers[f].key, Some(outcome))], executed := w'.executed)
    requires w.executed <= w'.executed && (outcome.Ok? ==> (w.workers[f].key, outcome.value) in w'.executed)
    ensures Genuine(o, w')
  {
  }

  lemma ExecuteKeeps(o: Options, w: World, w': World, f: Flight, outcome: Result<Response, Kind>)
    requires Inv(o, w) && f in w.workers
    requires w' == w.(workers := w.workers[f := Worker(w.workers[f].key, Some(outcome))], executed := w'.executed)
    requires w.executed <= w'.executed && (outcome.Ok? ==> (w.workers[f].key, outcome.value) in w'.executed)
    ensures Inv(o, w')
  {
    ExecuteKeepsWorkers(w, f, outcome);
    ExecuteKeepsGenuine(o, w, w', f, outcome);
  }

  /** The other steps only touch callers, the client and the clock. */
  lemma CallersKeep(o: Options, w: World, w': World)
    requires Inv(o, w) && w.now <= w'.now
    requires w' == w.(calls := w'.calls, waiters := w'.waiters, current := w'.current, now := w'.now)
    requires w'.calls.Keys !! w'.waiters.Keys
    requires forall c :: c in w'.waiters ==> c in w.waiters && w'.waiters[c] == w.waiters[c]
    ensures Inv(o, w')
  {
  }

  lemma StepKeeps(o: Options, w: World, e: Event)
    requires Inv(o, w) && Enabled(o, w, e)
    ensures Inv(o, Step(o, w, e))
  {
    match e
    case Enter(call, refused) => EnterKeeps(o, w, call, refused);
    case Publish(f, refused, victims) => PublishKeeps(o, w, f, refused, victims);
    case Execute(f, tag, answer) =>
      ExecuteKeeps(o, w, Step(o, w, e), f, Accepted(w.workers[f].key, tag, answer, w.current));
    case _ => CallersKeep(o, w, Step(o, w, e));
  }

  /** The invariant as a function: where it is only passed on, it is not unfolded. */
  ghost function InvIn(o: Options): World -> bool {
    (w: World) => Inv(o, w)
  }

  lemma Link(o: Options, ws: seq<World>, es: seq<Event>, k: nat)
    requires Run(o, ws, es) && k < |es|
    ensures Enabled(o, ws[k], es[k]) && ws[k + 1] == Step(o, ws[k], es[k])
  {
    var e := es[k];
  }

  lemma InvNext(o: Options, ws: seq<World>, es: seq<Event>, k: nat)
    requires Run(o, ws, es) && k < |es| && InvIn(o)(ws[k])
    ensures InvIn(o)(ws[k + 1])
  {
    Link(o, ws, es, k);
    StepKeeps(o, ws[k], es[k]);
  }

  lemma Always(o: Options, ws: seq<World>, es: seq<Event>, k: nat)
    requires Run(o, ws, es) && k <= |es|
    ensures Inv(o, ws[k])
  {
    assert Inv(o, ws[0]);
    forall i {:trigger ws[i]} | 0 <= i < |ws| - 1 && InvIn(o)(ws[i]) ensures InvIn(o)(ws[i + 1]) {
      InvNext(o, ws, es, i);
    }
    AllAlong(ws, InvIn(o), k);
    assert InvIn(o)(ws[k]);
  }

  // ----- what callers can rely on -----

  /** In every reachable state the byte count is the sum of the stored sizes and within
      its bound, and entries and calls in flight are within theirs. */
  lemma BudgetsHold(o: Options, ws: seq<World>, es: seq<Event>, k: nat)
    requires Run(o, ws, es) && k <= |es|
    ensures ws[k].s.bytes == Sum(ws[k].s.cache) <= o.maxBytes
    ensures |ws[k].s.cache| <= o.capacity && |ws[k].s.flights| <= o.maxInflight
    ensures ws[k].s.cache.Keys !! ws[k].s.flights.Keys
  {
    Always(o, ws, es, k);
  }

  /** At most one execution per key is under way, and a waiter without a result still
      has the worker that will provide it. */
  lemma SingleFlight(o: Options, ws: seq<World>, es: seq<Event>, k: nat)
    requires Run(o, ws, es) && k <= |es|
    ensures var w := ws[k];
            && (forall f, g :: f in w.workers && g in w.workers && w.workers[f].key == w.workers[g].key ==> f == g)
            && (forall c :: c in w.waiters && w.waiters[c].flight !in w.results ==>
                  w.waiters[c].flight in w.workers && w.workers[w.waiters[c].flight].key == w.waiters[c].key)
  {
    Always(o, ws, es, k);
  }

  function CallerKey(w: World, c: nat): Option<Key> {
    if c in w.calls then Some(w.calls[c]) else if c in w.waiters then Some(w.waiters[c].key) else None
  }

  /** The key of a pending call was formed at its begin, from the generation current then. */
  lemma {:induction false} KeyFromBegin(o: Options, ws: seq<World>, es: seq<Event>, k: nat, c: nat) returns (i: nat)
    requires Run(o, ws, es) && k <= |es| && CallerKey(ws[k], c).Some?
    ensures i < k && es[i].Begin? && es[i].call == c
    ensures CallerKey(ws[k], c) == Some(Key(ws[i].current, es[i].rpc, es[i].request))
  {
    i := k - 1;
    var w, e := ws[k - 1], es[k - 1];
    if !(e.Begin? && e.call == c) {
      Always(o, ws, es, k - 1);
      Link(o, ws, es, k - 1);
      KeyKept(o, w, e, c);
      i := KeyFromBegin(o, ws, es, k - 1, c);
    }
  }

  lemma AnswerKeepsKey(w: World, call: nat, s: State, answer: Answer, c: nat)
    requires call in w.calls && w.calls.Keys !! w.waiters.Keys
    requires CallerKey(Answered(w, call, w.calls[call], s, answer), c).Some?
    ensures CallerKey(w, c) == CallerKey(Answered(w, call, w.calls[call], s, answer), c)
  {
  }

  lemma EnterKeepsKey(o: Options, w: World, call: nat, refused: Option<Kind>, c: nat)
    requires w.calls.Keys !! w.waiters.Keys && call in w.calls && CallerKey(Entered(o, w, call, refused), c).Some?
    ensures CallerKey(w, c) == CallerKey(Entered(o, w, call, refused), c)
  {
    var key := w.calls[call];
    AnswerKeepsKey(w, call, AfterLookup(o, w.s, key, w.now, refused, w.current, w.nextFlight),
                   Looked(o, w, call, refused), c);
  }

  lemma OthersKeepKey(o: Options, w: World, e: Event, c: nat)
    requires w.calls.Keys !! w.waiters.Keys && Enabled(o, w, e) && !e.Enter? && !(e.Begin? && e.call == c)
    requires CallerKey(Step(o, w, e), c).Some?
    ensures CallerKey(w, c) == CallerKey(Step(o, w, e), c)
  {
  }

  lemma KeyKept(o: Options, w: World, e: Event, c: nat)
    requires w.calls.Keys !! w.waiters.Keys && Enabled(o, w, e) && !(e.Begin? && e.call == c)
    requires CallerKey(Step(o, w, e), c).Some?
    ensures CallerKey(w, c) == CallerKey(Step(o, w, e), c)
  {
    if e.Enter? {
      EnterKeepsKey(o, w, e.call, e.refused, c);
    } else {
      OthersKeepKey(o, w, e, c);
    }
  }

  function Caller(e: Event): nat
    requires e.Enter? || e.Wake?
  {
    e.call
  }

  lemma ReplyIsGenuine(o: Options, w: World, e: Event, r: Response)
    requires Inv(o, w) && Enabled(o, w, e) && Reply(o, w, e) == Some(Ok(r))
    ensures (e.Enter? || e.Wake?) && CallerKey(w, Caller(e)).Some?
    ensures var key := CallerKey(w, Caller(e)).value;
            && (key, r) in w.executed && key.generation == w.current
            && (e.Enter? ==> key in w.born && w.born[key] <= w.now < w.born[key] + o.ttl)
  {
  }

  /** Every successful reply is an upstream answer to exactly the query asked, labelled
      with the generation that was current both when the call began and now; and a
      stored one was inserted less than ttl ago. */
  lemma RepliesAreGenuine(o: Options, ws: seq<World>, es: seq<Event>, k: nat, r: Response) returns (i: nat)
    requires Run(o, ws, es) && k < |es| && Reply(o, ws[k], es[k]) == Some(Ok(r))
    ensures i < k && es[i].Begin? && es[i].call == Caller(es[k])
    ensures (Key(ws[i].current, es[i].rpc, es[i].request), r) in ws[k].executed
    ensures ws[i].current == ws[k].current
    ensures es[k].Enter? ==>
              var key := Key(ws[i].current, es[i].rpc, es[i].request);
              key in ws[k].born && ws[k].born[key] <= ws[k].now < ws[k].born[key] + o.ttl
  {
    Always(o, ws, es, k);
    Link(o, ws, es, k);
    ReplyIsGenuine(o, ws[k], es[k], r);
    i := KeyFromBegin(o, ws, es, k, Caller(es[k]));
  }

  lemma AnswerExecutesNothing(w: World, call: nat, key: Key, s: State, answer: Answer)
    ensures Answered(w, call, key, s, answer).executed == w.executed
  {
  }

  lemma OthersExecuteNothing(o: Options, w: World, e: Event)
    requires Enabled(o, w, e)
    ensures e.Execute? || Step(o, w, e).executed == w.executed
  {
    if e.Enter? {
      var key := w.calls[e.call];
      AnswerExecutesNothing(w, e.call, key, AfterLookup(o, w.s, key, w.now, e.refused, w.current, w.nextFlight),
                            Looked(o, w, e.call, e.refused));
    }
  }

  /** An answer counts as executed only by an upstream success for that key's query. */
  lemma ExecutedByUpstream(o: Options, w: World, e: Event, key: Key, r: Response)
    requires Enabled(o, w, e) && (key, r) !in w.executed && (key, r) in Step(o, w, e).executed
    ensures e.Execute? && w.workers[e.flight].key == key && e.tag == key.generation && e.answer == Ok(r)
  {
    OthersExecuteNothing(o, w, e);
  }
}
