/** What callers of the query cache get (server/src/cache.rs): when a call is answered from
    the store, joins an execution under way, starts one or is turned away, and how an
    upstream answer reaches everyone who waits for it. */
module CacheReplies {
  import opened Basics
  import opened Errors
  import opened Cache
  import opened CacheRuns

  // ----- entering -----

  /** How a call for a key may be answered: from the store, by joining, by starting an
      execution, or not at all. */
  datatype Way = FromStore | Joins | Executes | TurnedAway

  ghost function WayOf(o: Options, w: World, call: nat): Way
    requires call in w.calls
  {
    var key := w.calls[call];
    if Stored(w, call) then FromStore
    else if key in w.s.flights then Joins
    else if |w.s.flights| < o.maxInflight then Executes
    else TurnedAway
  }

  lemma EnterReplies(o: Options, w: World, call: nat, refused: Option<Kind>)
    requires call in w.calls
    ensures Enabled(o, w, Enter(call, refused))
    ensures Reply(o, w, Enter(call, refused)) ==
      match WayOf(o, w, call)
      case FromStore =>
        if refused.Some? then Some(Err(refused.value))
        else if w.current != w.calls[call].generation then Some(Err(SessionChanged))
        else Some(Ok(w.s.cache[w.calls[call]].response))
      case TurnedAway => Some(Err(QueueFull))
      case _ => None
  {
  }

  lemma WayAnswers(o: Options, w: World, call: nat, refused: Option<Kind>)
    requires call in w.calls
    ensures match WayOf(o, w, call)
            case Joins => Looked(o, w, call, refused) == Wait(w.s.flights[w.calls[call]], false)
            case Executes => Looked(o, w, call, refused) == Wait(w.nextFlight, true)
            case _ => !Looked(o, w, call, refused).Wait?
  {
  }

  lemma AnsweredChanges(w: World, call: nat, key: Key, t: State, answer: Answer)
    ensures var w' := Answered(w, call, key, t, answer);
            && w'.calls == w.calls - {call}
            && w'.waiters == (if answer.Wait? then w.waiters[call := Waiter(key, answer.flight)] else w.waiters)
            && w'.workers == (if answer.Wait? && answer.miss then w.workers[answer.flight := Worker(key, None)]
                              else w.workers)
  {
  }

  lemma EnterChanges(o: Options, w: World, call: nat, refused: Option<Kind>)
    requires call in w.calls
    ensures var w', key := Entered(o, w, call, refused), w.calls[call];
            && w'.calls == w.calls - {call}
            && match WayOf(o, w, call)
               case Joins =>
                 && w'.waiters == w.waiters[call := Waiter(key, w.s.flights[key])]
                 && w'.workers == w.workers
               case Executes =>
                 && w'.waiters == w.waiters[call := Waiter(key, w.nextFlight)]
                 && w'.workers == w.workers[w.nextFlight := Worker(key, None)]
               case _ => w'.waiters == w.waiters && w'.workers == w.workers
  {
    var key := w.calls[call];
    WayAnswers(o, w, call, refused);
    AnsweredChanges(w, call, key, AfterLookup(o, w.s, key, w.now, refused, w.current, w.nextFlight),
                    Looked(o, w, call, refused));
  }

  lemma LookupFlights(o: Options, s: State, key: Key, now: nat, refused: Option<Kind>, current: Gen, next: Flight)
    requires forall k :: k in s.flights ==> s.flights[k] != next
    ensures AfterLookup(o, s, key, now, refused, current, next).flights ==
      if (key in s.cache && now < s.cache[key].expires) || key in s.flights || |s.flights| >= o.maxInflight
      then s.flights else s.flights[key := next]
  {
  }

  lemma AnsweredState(w: World, call: nat, key: Key, t: State, answer: Answer)
    ensures Answered(w, call, key, t, answer).s == t && Answered(w, call, key, t, answer).results == w.results
  {
  }

  lemma EnterState(o: Options, w: World, call: nat, refused: Option<Kind>)
    requires call in w.calls
    ensures Entered(o, w, call, refused).s ==
      AfterLookup(o, w.s, w.calls[call], w.now, refused, w.current, w.nextFlight)
    ensures Entered(o, w, call, refused).results == w.results
  {
    var key := w.calls[call];
    AnsweredState(w, call, key, AfterLookup(o, w.s, key, w.now, refused, w.current, w.nextFlight),
                  Looked(o, w, call, refused));
  }

  lemma EnterFlights(o: Options, w: World, call: nat, refused: Option<Kind>)
    requires call in w.calls && forall k :: k in w.s.flights ==> w.s.flights[k] != w.nextFlight
    ensures Entered(o, w, call, refused).s.flights ==
      if WayOf(o, w, call).Executes? then w.s.flights[w.calls[call] := w.nextFlight] else w.s.flights
  {
    EnterState(o, w, call, refused);
    LookupFlights(o, w.s, w.calls[call], w.now, refused, w.current, w.nextFlight);
  }

  lemma Now(o: Options, ws: seq<World>, es: seq<Event>, k: nat)
    requires Run(o, ws, es) && k < |es|
    ensures Inv(o, ws[k]) && Enabled(o, ws[k], es[k]) && ws[k + 1] == Step(o, ws[k], es[k])
  {
    Always(o, ws, es, k);
    Link(o, ws, es, k);
  }

  /** A call whose key is being executed waits for exactly that execution and starts none. */
  lemma CallsCoalesce(o: Options, ws: seq<World>, es: seq<Event>, k: nat)
    requires Run(o, ws, es) && k < |es| && es[k].Enter? && es[k].call in ws[k].calls
    requires ws[k].calls[es[k].call] in ws[k].s.flights
    ensures var w, w', key := ws[k], ws[k + 1], ws[k].calls[es[k].call];
            && Reply(o, w, es[k]) == None
            && w'.waiters == w.waiters[es[k].call := Waiter(key, w.s.flights[key])]
            && w'.workers == w.workers && w'.s.flights == w.s.flights
  {
    Now(o, ws, es, k);
    var w, call := ws[k], es[k].call;
    assert w.calls[call] !in w.s.cache;
    EnterReplies(o, w, call, es[k].refused);
    EnterChanges(o, w, call, es[k].refused);
    NextFlightIsNew(w);
    EnterFlights(o, w, call, es[k].refused);
  }

  /** A call is turned away for a full queue exactly when its answer is neither in store
      nor being executed and as many keys as allowed are. */
  lemma QueueIsFull(o: Options, ws: seq<World>, es: seq<Event>, k: nat)
    requires Run(o, ws, es) && k < |es| && es[k].Enter? && es[k].refused != Some(QueueFull)
    ensures es[k].call in ws[k].calls
    ensures Reply(o, ws[k], es[k]) == Some(Err(QueueFull)) <==>
      !Stored(ws[k], es[k].call) && ws[k].calls[es[k].call] !in ws[k].s.flights && |ws[k].s.flights| >= o.maxInflight
  {
    Now(o, ws, es, k);
    EnterReplies(o, ws[k], es[k].call, es[k].refused);
  }

  /** Any other call for a key that is not in store starts exactly one execution. */
  lemma MissesExecute(o: Options, ws: seq<World>, es: seq<Event>, k: nat)
    requires Run(o, ws, es) && k < |es| && es[k].Enter? && es[k].call in ws[k].calls && !Stored(ws[k], es[k].call)
    requires ws[k].calls[es[k].call] !in ws[k].s.flights && |ws[k].s.flights| < o.maxInflight
    ensures var w, w', key := ws[k], ws[k + 1], ws[k].calls[es[k].call];
            && Reply(o, w, es[k]) == None
            && w'.waiters == w.waiters[es[k].call := Waiter(key, w.nextFlight)]
            && w.nextFlight !in w.workers && w'.workers == w.workers[w.nextFlight := Worker(key, None)]
            && w'.s.flights == w.s.flights[key := w.nextFlight]
  {
    Now(o, ws, es, k);
    var w, call := ws[k], es[k].call;
    EnterReplies(o, w, call, es[k].refused);
    EnterChanges(o, w, call, es[k].refused);
    NextFlightIsNew(w);
    EnterFlights(o, w, call, es[k].refused);
  }

  /** What is in store is served to a caller of the current session that is not refused. */
  lemma HitsAreServed(o: Options, ws: seq<World>, es: seq<Event>, k: nat, r: Response)
    requires Run(o, ws, es) && k < |es| && es[k].Enter?
    ensures es[k].call in ws[k].calls
    ensures var w, key := ws[k], ws[k].calls[es[k].call];
            Reply(o, w, es[k]) == Some(Ok(r)) <==>
              && key in w.s.cache && key in w.born && w.now < w.born[key] + o.ttl && w.s.cache[key].response == r
              && es[k].refused.None? && w.current == key.generation
  {
    Now(o, ws, es, k);
    EnterReplies(o, ws[k], es[k].call, es[k].refused);
  }

  // ----- the store -----

  /** What a call leaves in store: the entries of its own generation that have not
      expired, none of them changed but for the time of its last use. */
  lemma CallsKeepStore(o: Options, ws: seq<World>, es: seq<Event>, k: nat, key: Key)
    requires Run(o, ws, es) && k < |es| && es[k].Enter? && es[k].call in ws[k].calls
    ensures var w, w' := ws[k], ws[k + 1];
            && (key in w'.s.cache <==>
                  key in w.s.cache && key.generation == w.calls[es[k].call].generation
                  && key in w.born && w.now < w.born[key] + o.ttl)
            && (key in w'.s.cache ==> SameAnswer(w.s.cache, w'.s.cache, key))
  {
    Now(o, ws, es, k);
    EnterStore(o, ws[k], es[k].call, es[k].refused, key);
  }

  /** The answer under a key is the same, whenever it was last used. */
  predicate SameAnswer(m: map<Key, Entry>, n: map<Key, Entry>, key: Key) {
    key in m && key in n && n[key].response == m[key].response && n[key].expires == m[key].expires
  }

  lemma LookupStore(o: Options, s: State, key: Key, now: nat, refused: Option<Kind>, current: Gen, next: Flight, k: Key)
    ensures var cache := AfterLookup(o, s, key, now, refused, current, next).cache;
            && (k in cache <==> k in s.cache && k.generation == key.generation && now < s.cache[k].expires)
            && (k in cache ==> SameAnswer(s.cache, cache, k))
  {
  }

  lemma EnterStore(o: Options, w: World, call: nat, refused: Option<Kind>, key: Key)
    requires call in w.calls
    ensures var cache := Entered(o, w, call, refused).s.cache;
            && (key in cache <==>
                  key in w.s.cache && key.generation == w.calls[call].generation && w.now < w.s.cache[key].expires)
            && (key in cache ==> SameAnswer(w.s.cache, cache, key))
  {
    EnterState(o, w, call, refused);
    LookupStore(o, w.s, w.calls[call], w.now, refused, w.current, w.nextFlight, key);
  }

  /** What the section that publishes a flight's outcome gives its waiters. */
  ghost function Told(w: World, f: Flight): Result<Response, Kind>
    requires f in w.workers && w.workers[f].outcome.Some?
  {
    if w.current != w.workers[f].key.generation then Err(SessionChanged) else w.workers[f].outcome.value
  }

  predicate Kept(o: Options, told: Result<Response, Kind>, refused: Option<Kind>) {
    told.Ok? && refused.None? && o.capacity > 0 && o.ttl > 0 && told.value.size <= o.maxBytes
  }

  lemma SettledStores(o: Options, w: World, f: Flight, refused: Option<Kind>, victims: seq<Key>)
    requires f in w.workers && w.workers[f].outcome.Some?
    ensures var w', told, key := Settled(o, w, f, refused, victims), Told(w, f), w.workers[f].key;
            && w'.results == w.results[f := told] && w'.workers == w.workers - {f}
            && w'.s.flights == w.s.flights - {key}
            && w'.s.cache == if Kept(o, told, refused)
                             then Without(w.s.cache, victims)[key := Entry(told.value, w.now + o.ttl, w.now)]
                             else w.s.cache
  {
  }

  /** An outcome is stored exactly if it is an answer for the current session, the client
      does not refuse the query, storing is on and the answer can fit; then it evicts its
      victims and nothing else changes. */
  lemma AnswersAreStored(o: Options, ws: seq<World>, es: seq<Event>, k: nat)
    requires Run(o, ws, es) && k < |es| && es[k].Publish?
    ensures es[k].flight in ws[k].workers && ws[k].workers[es[k].flight].outcome.Some?
    ensures var w, w', f, told := ws[k], ws[k + 1], es[k].flight, Told(ws[k], es[k].flight);
            && w'.results == w.results[f := told] && w'.workers == w.workers - {f}
            && w'.s.flights == w.s.flights - {w.workers[f].key}
            && w'.s.cache == if Kept(o, told, es[k].refused)
                             then Without(w.s.cache, es[k].victims)
                                  [w.workers[f].key := Entry(told.value, w.now + o.ttl, w.now)]
                             else w.s.cache
  {
    Link(o, ws, es, k);
    SettledStores(o, ws[k], es[k].flight, es[k].refused, es[k].victims);
  }

  /** The event may take the key's answer out of store. */
  predicate MayRemove(w: World, e: Event, key: Key)
    requires key in w.s.cache
  {
    || (e.Enter? && e.call in w.calls
        && (w.calls[e.call].generation != key.generation || w.s.cache[key].expires <= w.now))
    || (e.Publish? && (key in e.victims || (e.flight in w.workers && w.workers[e.flight].key == key)))
  }

  lemma OthersKeepStore(o: Options, w: World, e: Event)
    requires Enabled(o, w, e) && !e.Enter? && !e.Publish?
    ensures Step(o, w, e).s == w.s
  {
  }

  lemma StoreStep(o: Options, w: World, e: Event, key: Key)
    requires Enabled(o, w, e) && key in w.s.cache
    ensures SameAnswer(w.s.cache, Step(o, w, e).s.cache, key) || MayRemove(w, e, key)
  {
    if e.Enter? {
      EnterStore(o, w, e.call, e.refused, key);
    } else if e.Publish? {
      SettledStores(o, w, e.flight, e.refused, e.victims);
    } else {
      OthersKeepStore(o, w, e);
    }
  }

  /** What is in store leaves it only when it has expired, when a session of another
      generation calls, as a victim, or for a newer answer to the same query. */
  lemma LeavesStore(o: Options, ws: seq<World>, es: seq<Event>, k: nat, key: Key)
    requires Run(o, ws, es) && k < |es| && key in ws[k].s.cache
    ensures SameAnswer(ws[k].s.cache, ws[k + 1].s.cache, key) || MayRemove(ws[k], es[k], key)
  {
    Link(o, ws, es, k);
    StoreStep(o, ws[k], es[k], key);
  }

  // ----- least recently used -----

  /** The time that orders evictions is that of the last use. */
  ghost predicate TouchedAsUsed(w: World) {
    forall k :: k in w.s.cache ==> k in w.used && w.s.cache[k].touched == w.used[k]
  }

  lemma LookupTouches(o: Options, s: State, key: Key, now: nat, refused: Option<Kind>, current: Gen, next: Flight,
                      k: Key)
    requires k in AfterLookup(o, s, key, now, refused, current, next).cache
    ensures k in s.cache
    ensures AfterLookup(o, s, key, now, refused, current, next).cache[k].touched ==
      if k == key && now < s.cache[key].expires && refused.None? then now else s.cache[k].touched
  {
  }

  lemma EnterTouches(o: Options, w: World, call: nat, refused: Option<Kind>)
    requires TouchedAsUsed(w) && call in w.calls
    ensures TouchedAsUsed(Entered(o, w, call, refused))
  {
    var key := w.calls[call];
    var t := AfterLookup(o, w.s, key, w.now, refused, w.current, w.nextFlight);
    forall k | k in t.cache ensures k in UsedBy(w, call, refused) && t.cache[k].touched == UsedBy(w, call, refused)[k] {
      LookupTouches(o, w.s, key, w.now, refused, w.current, w.nextFlight, k);
    }
    EnterState(o, w, call, refused);
  }

  lemma TouchedNext(o: Options, ws: seq<World>, es: seq<Event>, k: nat)
    requires Run(o, ws, es) && k < |es| && TouchedAsUsed(ws[k])
    ensures TouchedAsUsed(ws[k + 1])
  {
    Link(o, ws, es, k);
    if es[k].Enter? {
      EnterTouches(o, ws[k], es[k].call, es[k].refused);
    }
  }

  /** Evictions go by the time of last use: when an answer was stored, or later found for
      a caller that was not refused. */
  lemma {:induction false} LastUseDecides(o: Options, ws: seq<World>, es: seq<Event>, k: nat)
    requires Run(o, ws, es) && k <= |es|
    ensures TouchedAsUsed(ws[k])
  {
    if k > 0 {
      LastUseDecides(o, ws, es, k - 1);
      TouchedNext(o, ws, es, k - 1);
    }
  }

  /** No survivor of an eviction was used less recently than a victim. */
  lemma LeastRecentlyUsedLeave(o: Options, ws: seq<World>, es: seq<Event>, k: nat, i: nat, key: Key)
    requires Run(o, ws, es) && k < |es| && es[k].Publish? && i < |es[k].victims|
    requires key in ws[k].s.cache && key !in es[k].victims
    ensures var w, victim := ws[k], es[k].victims[i];
            victim in w.s.cache && victim in w.used && key in w.used && w.used[victim] <= w.used[key]
  {
    Now(o, ws, es, k);
    LastUseDecides(o, ws, es, k);
    var w, f := ws[k], es[k].flight;
    OldestLeaveFirst(o, w.s.cache, Told(w, f).value, es[k].victims);
    assert key in Without(w.s.cache, es[k].victims);
  }

  // ----- from upstream to the waiters -----

  /** What is known of a flight's outcome: what its worker carries, or what is published. */
  function Outcome(w: World, f: Flight): Option<Result<Response, Kind>> {
    if f in w.results then Some(w.results[f]) else if f in w.workers then w.workers[f].outcome else None
  }

  lemma ExecutedOutcome(o: Options, w: World, e: Event)
    requires Inv(o, w) && Enabled(o, w, e) && e.Execute?
    ensures var key := w.workers[e.flight].key;
            Outcome(Step(o, w, e), e.flight) ==
              Some(if e.answer.Ok? && (e.tag != key.generation || w.current != key.generation) then Err(SessionChanged)
                   else e.answer)
  {
  }

  lemma EnterKeepsOutcome(o: Options, w: World, call: nat, refused: Option<Kind>, f: Flight)
    requires OneWorkerPerFlight(w) && call in w.calls && Outcome(w, f).Some?
    ensures Outcome(Entered(o, w, call, refused), f) == Outcome(w, f)
  {
    EnterChanges(o, w, call, refused);
    EnterState(o, w, call, refused);
    assert f in w.workers ==> f < w.nextFlight;
  }

  lemma PublishKeepsOutcome(o: Options, w: World, g: Flight, refused: Option<Kind>, victims: seq<Key>, f: Flight)
    requires OneWorkerPerFlight(w) && Outcome(w, f).Some? && g in w.workers && w.workers[g].outcome.Some?
    ensures Outcome(Settled(o, w, g, refused, victims), f) ==
      if g == f && w.current != w.workers[g].key.generation then Some(Err(SessionChanged)) else Outcome(w, f)
  {
    SettledStores(o, w, g, refused, victims);
  }

  /** Once known, a flight's outcome stays, unless the session changes before it is published. */
  lemma OutcomeStays(o: Options, w: World, e: Event, f: Flight)
    requires OneWorkerPerFlight(w) && Enabled(o, w, e) && Outcome(w, f).Some?
    ensures Outcome(Step(o, w, e), f) ==
      if e.Publish? && e.flight == f && w.current != w.workers[f].key.generation then Some(Err(SessionChanged))
      else Outcome(w, f)
  {
    if e.Enter? {
      EnterKeepsOutcome(o, w, e.call, e.refused, f);
    } else if e.Publish? {
      PublishKeepsOutcome(o, w, e.flight, e.refused, e.victims, f);
    } else {
      var w' := Step(o, w, e);
      assert w'.results == w.results;
      assert e.Execute? || w'.workers == w.workers;
    }
  }

  lemma OutcomeNext(o: Options, ws: seq<World>, es: seq<Event>, k: nat, f: Flight)
    requires Run(o, ws, es) && k < |es| && Outcome(ws[k], f).Some?
    requires es[k].Publish? && es[k].flight == f && f in ws[k].workers ==>
      ws[k].current == ws[k].workers[f].key.generation
    ensures Outcome(ws[k + 1], f) == Outcome(ws[k], f)
  {
    Now(o, ws, es, k);
    OutcomeStays(o, ws[k], es[k], f);
  }

  /** The session is the one of the flight's key whenever its outcome is published. */
  ghost predicate PublishedInTime(ws: seq<World>, es: seq<Event>, f: Flight, k: nat)
    requires k < |es| && |ws| == |es| + 1
  {
    es[k].Publish? && es[k].flight == f && f in ws[k].workers ==> ws[k].current == ws[k].workers[f].key.generation
  }

  lemma {:induction false} OutcomeLasts(o: Options, ws: seq<World>, es: seq<Event>, i: nat, k: nat, f: Flight)
    requires Run(o, ws, es) && i <= k <= |es| && Outcome(ws[i], f).Some?
    requires forall j :: i <= j < k ==> PublishedInTime(ws, es, f, j)
    ensures Outcome(ws[k], f) == Outcome(ws[i], f)
  {
    if i < k {
      OutcomeLasts(o, ws, es, i, k - 1, f);
      assert PublishedInTime(ws, es, f, k - 1);
      OutcomeNext(o, ws, es, k - 1, f);
    }
  }

  lemma ExecutedNext(o: Options, ws: seq<World>, es: seq<Event>, k: nat)
    requires Run(o, ws, es) && k < |es| && es[k].Execute?
    ensures es[k].flight in ws[k].workers
    ensures var key := ws[k].workers[es[k].flight].key;
            Outcome(ws[k + 1], es[k].flight) ==
              Some(if es[k].answer.Ok? && (es[k].tag != key.generation || ws[k].current != key.generation)
                   then Err(SessionChanged) else es[k].answer)
  {
    Now(o, ws, es, k);
    ExecutedOutcome(o, ws[k], es[k]);
  }

  lemma WakeReplies(o: Options, ws: seq<World>, es: seq<Event>, k: nat)
    requires Run(o, ws, es) && k < |es| && es[k].Wake?
    ensures es[k].call in ws[k].waiters && Outcome(ws[k], ws[k].waiters[es[k].call].flight).Some?
    ensures var w, waiter := ws[k], ws[k].waiters[es[k].call];
            Reply(o, w, es[k]) ==
              if es[k].refused.Some? then Some(Err(es[k].refused.value))
              else if w.current != waiter.key.generation then Some(Err(SessionChanged))
              else Outcome(w, waiter.flight)
  {
    Now(o, ws, es, k);
  }

  /** An upstream answer, or its error, reaches everyone who waits for it: if the session
      did not change between the query and the reply and the client does not refuse the
      query by then, the reply is what upstream said. */
  lemma AnswersReachWaiters(o: Options, ws: seq<World>, es: seq<Event>, i: nat, k: nat)
    requires Run(o, ws, es) && i < k < |es| && es[i].Execute? && es[k].Wake? && es[k].refused.None?
    requires es[k].call in ws[k].waiters && ws[k].waiters[es[k].call].flight == es[i].flight
    requires forall j :: i <= j <= k ==> ws[j].current == ws[k].waiters[es[k].call].key.generation
    requires es[i].tag == ws[k].waiters[es[k].call].key.generation
    ensures Reply(o, ws[k], es[k]) == Some(es[i].answer)
  {
    var f, key := es[i].flight, ws[k].waiters[es[k].call].key;
    FlightKeeps(o, ws, es, i, k, es[k].call);
    forall j | i + 1 <= j < k ensures PublishedInTime(ws, es, f, j) {
      if f in ws[j].workers {
        FlightKeeps(o, ws, es, j, k, es[k].call);
      }
    }
    ExecutedNext(o, ws, es, i);
    OutcomeLasts(o, ws, es, i + 1, k, f);
    WakeReplies(o, ws, es, k);
  }

  lemma KeyOfStays(o: Options, w: World, e: Event, f: Flight)
    requires Inv(o, w) && Enabled(o, w, e) && f in w.keyOf
    ensures f in Step(o, w, e).keyOf && Step(o, w, e).keyOf[f] == w.keyOf[f]
  {
    if e.Enter? {
      var key := w.calls[e.call];
      WayAnswers(o, w, e.call, e.refused);
    }
  }

  lemma KeyOfNext(o: Options, ws: seq<World>, es: seq<Event>, k: nat, f: Flight)
    requires Run(o, ws, es) && k < |es| && f in ws[k].keyOf
    ensures f in ws[k + 1].keyOf && ws[k + 1].keyOf[f] == ws[k].keyOf[f]
  {
    Now(o, ws, es, k);
    KeyOfStays(o, ws[k], es[k], f);
  }

  lemma {:induction false} KeyOfLasts(o: Options, ws: seq<World>, es: seq<Event>, i: nat, k: nat, f: Flight)
    requires Run(o, ws, es) && i <= k <= |es| && f in ws[i].keyOf
    ensures f in ws[k].keyOf && ws[k].keyOf[f] == ws[i].keyOf[f]
  {
    if i < k {
      KeyOfLasts(o, ws, es, i, k - 1, f);
      KeyOfNext(o, ws, es, k - 1, f);
    }
  }

  /** A flight's worker has the key of whoever waits for the flight later. */
  lemma FlightKeeps(o: Options, ws: seq<World>, es: seq<Event>, i: nat, k: nat, c: nat)
    requires Run(o, ws, es) && i <= k <= |es| && c in ws[k].waiters && ws[k].waiters[c].flight in ws[i].workers
    ensures ws[i].workers[ws[k].waiters[c].flight].key == ws[k].waiters[c].key
  {
    Always(o, ws, es, i);
    Always(o, ws, es, k);
    KeyOfLasts(o, ws, es, i, k, ws[k].waiters[c].flight);
  }
}
