/** Runs of the client: calls queue for one slot, wait for the rate limit, reach the
    transport and finish, while sessions are replaced around them
    (client/src/lib.rs). A poll of a call is one step; a call whose session was
    cancelled is never polled again except to be dropped. */
module ClientRuns {
  import opened Basics
  import opened Errors
  import opened Client
  import opened Versions

  datatype Options = Options(parse: Parse, capacity: nat, interval: nat)

  datatype Stage = Queued | Slotted | Sent(override: bool)

  datatype Op = Op(gen: Gen, call: Call, stage: Stage)

  /** A transport call as it left. */
  datatype Departure = Departure(time: nat, gen: Gen, call: Call, override: bool)

  datatype World = World(
    sessions: map<Gen, Session>,
    cancelled: set<Gen>,
    current: Gen,
    next: Gen,
    slot: Option<nat>,         // the call holding the serial slot
    nextStart: nat,
    now: nat,
    ops: map<nat, Op>,         // admitted calls
    // history
    starts: seq<Departure>,
    root: map<Gen, Gen>,       // first session of the chain of version updates
    registered: set<Gen>,      // chains that began with a registration
    settled: set<Gen>)         // ... on which an authenticated call has returned Ok

  datatype Event =
    | Admit(id: nat, gen: Gen, call: Call)
    | TakeSlot(id: nat)
    | Start(id: nat)
    | Finish(id: nat, outcome: Result<Answer, ClientError>, cancel: bool)
    | Drop(id: nat)
    | Replace(config: Config, credentials: Option<Credentials>)
    | Import(gen: Gen, provided: Credentials)
    | Tick

  predicate Live(w: World, id: nat) {
    id in w.ops && w.ops[id].gen in w.sessions && w.ops[id].gen !in w.cancelled
  }

  ghost predicate Enabled(o: Options, w: World, e: Event) {
    match e
    case Admit(id, g, m) =>
      id !in w.ops && |w.ops| < o.capacity + 1 && g == w.current && g in w.sessions && Admissible(w.sessions[g], m)
    case TakeSlot(id) => Live(w, id) && w.ops[id].stage.Queued? && w.slot.None?
    case Start(id) => Live(w, id) && w.ops[id].stage.Slotted? && w.slot == Some(id) && w.nextStart <= w.now
    case Finish(id, outcome, _) =>
      Live(w, id) && w.ops[id].stage.Sent? && w.slot == Some(id) && (outcome.Err? ==> Constructed(outcome.error))
    case Drop(id) => id in w.ops
    case Replace(c, a) => ValidConfig(o.parse, c) && Presentable(c, a)
    case Import(g, a) =>
      && g == w.current && g in w.sessions
      && ValidConfig(o.parse, w.sessions[g].config) && Presentable(w.sessions[g].config, Some(a))
    case Tick => true
  }

  /** A new current session; the old one is cancelled. */
  function Swap(w: World, s: Session, root: Gen): World {
    w.(sessions := w.sessions[w.next := s], cancelled := w.cancelled + {w.current},
       current := w.next, next := w.next + 1, root := w.root[w.next := root])
  }

  function Taken(w: World, id: nat): World
    requires id in w.ops
  {
    w.(ops := w.ops[id := w.ops[id].(stage := Slotted)], slot := Some(id))
  }

  function Leave(w: World, id: nat): World {
    w.(ops := w.ops - {id}, slot := if w.slot == Some(id) then None else w.slot)
  }

  function Root(w: World, g: Gen): Gen {
    if g in w.root then w.root[g] else g
  }

  function Departed(o: Options, w: World, id: nat): World
    requires Live(w, id)
  {
    var op := w.ops[id];
    var override := SendsOverride(w.sessions[op.gen], op.call);
    w.(ops := w.ops[id := op.(stage := Sent(override))], nextStart := w.now + o.interval,
       starts := w.starts + [Departure(w.now, op.gen, op.call, override)])
  }

  /** A transport call that returned Ok uses up the override it carried. */
  function Used(w: World, op: Op): World
    requires op.gen in w.sessions
  {
    var s, r := w.sessions[op.gen], Root(w, op.gen);
    w.(sessions := w.sessions[op.gen := if op.stage == Sent(true) then s.(override := false) else s],
       settled := if !Anonymous(op.call) && r in w.registered then w.settled + {r} else w.settled)
  }

  function Adopted(w: World, op: Op, s: Session): World {
    var u := Swap(w, s, if op.call.Discover? then Root(w, op.gen) else w.next);
    if op.call.Register? then u.(registered := u.registered + {w.next}) else u
  }

  /** The session that an answer installs, if it does. */
  function Accepted(v: World, op: Op, install: Option<Session>): World {
    if install.None? then v else Adopted(v, op, install.value)
  }

  /** What an outcome leaves behind, once its call has given up slot and admission. */
  function Judged(w: World, op: Op, outcome: Result<Answer, ClientError>, cancel: bool): World
    requires op.gen in w.sessions
  {
    match outcome
    case Err(e) => w.(sessions := w.sessions[op.gen := Recorded(w.sessions[op.gen], op.call, e)])
    case Ok(a) =>
      var v := Used(w, op);
      Accepted(v, op, if cancel || w.current != op.gen then None else Installed(v.sessions[op.gen], op.call, a))
  }

  /** Every event but the return of a call. */
  ghost function Moved(o: Options, w: World, e: Event): World
    requires Enabled(o, w, e) && !e.Finish?
  {
    match e
    case Admit(id, g, m) => w.(ops := w.ops[id := Op(g, m, Queued)])
    case TakeSlot(id) =>
      if Refuses(w.sessions[w.ops[id].gen].blocked, w.ops[id].call) then Leave(w, id)
      else Taken(w, id)
    case Start(id) => Departed(o, w, id)
    case Drop(id) => Leave(w, id)
    case Replace(c, a) => Swap(w, Fresh(c, a, false), w.next)
    case Import(g, a) => Swap(w, Fresh(w.sessions[g].config, Some(a), false), w.next)
    case Tick => w.(now := w.now + 1)
  }

  ghost function Step(o: Options, w: World, e: Event): World
    requires Enabled(o, w, e)
  {
    if e.Finish? then Judged(Leave(w, e.id), w.ops[e.id], e.outcome, e.cancel) else Moved(o, w, e)
  }

  ghost predicate Initial(o: Options, w: World) {
    && w.sessions.Keys == {w.current} && w.cancelled == {} && w.current < w.next
    && Sound(o.parse, w.sessions[w.current]) && !w.sessions[w.current].override
    && w.slot.None? && w.ops == map[] && w.starts == [] && w.nextStart == w.now
    && w.root == map[w.current := w.current] && w.registered == {} && w.settled == {}
  }

  /** The k-th event can happen and leads to the next state. */
  ghost predicate Linked(o: Options, ws: seq<World>, es: seq<Event>, k: nat)
    requires |ws| == |es| + 1 && k < |es|
  {
    Enabled(o, ws[k], es[k]) && ws[k + 1] == Step(o, ws[k], es[k])
  }

  ghost predicate Run(o: Options, ws: seq<World>, es: seq<Event>) {
    && |ws| == |es| + 1 && Initial(o, ws[0])
    && forall k: nat :: k < |es| ==> Linked(o, ws, es, k)
  }

  // ----- one chain of sessions -----

  ghost predicate Chain(w: World) {
    && w.current in w.sessions && w.cancelled == w.sessions.Keys - {w.current}
    && (forall g :: g in w.sessions ==> g < w.next)
    && w.root.Keys == w.sessions.Keys
    && (forall g :: g in w.root ==> w.root[g] <= g)
    && (forall id :: id in w.ops ==> w.ops[id].gen in w.sessions)
    && (forall r :: r in w.registered || r in w.settled ==> r < w.next)
  }

  // ----- the slot -----

  /** Only the holder of the slot has passed the queue, and its call is still allowed. */
  ghost predicate Slot(w: World) {
    && (forall id :: id in w.ops && !w.ops[id].stage.Queued? ==> w.slot == Some(id))
    && (w.slot.Some? ==>
          && w.slot.value in w.ops && !w.ops[w.slot.value].stage.Queued?
          && w.ops[w.slot.value].gen in w.sessions
          && !Refuses(w.sessions[w.ops[w.slot.value].gen].blocked, w.ops[w.slot.value].call))
  }

  // ----- rate and admission -----

  ghost predicate Paced(o: Options, w: World) {
    && |w.ops| <= o.capacity + 1
    && (w.starts != [] ==> w.starts[|w.starts| - 1].time + o.interval == w.nextStart)
    && (forall k :: 0 <= k < |w.starts| ==> w.starts[k].time <= w.now)
    && (forall k {:trigger w.starts[k]} :: 0 < k < |w.starts| ==> w.starts[k - 1].time + o.interval <= w.starts[k].time)
  }

  // ----- the one-shot override -----

  /** The flag of the current session says that its chain began with a registration
      and no authenticated call has succeeded on it; a call in the transport carries
      what the flag said. */
  ghost predicate OneShot(w: World)
    requires Chain(w)
  {
    && (forall g :: g in w.sessions && w.root[g] in w.registered ==> w.sessions[g].config.region.Jp?)
    && (w.sessions[w.current].override <==> w.root[w.current] in w.registered && w.root[w.current] !in w.settled)
    && (w.slot.Some? && w.slot.value in w.ops && w.ops[w.slot.value].stage.Sent?
        && w.ops[w.slot.value].gen == w.current ==>
          w.ops[w.slot.value].stage.override == SendsOverride(w.sessions[w.current], w.ops[w.slot.value].call))
  }

  ghost predicate Orderly(o: Options, w: World) {
    Chain(w) && Slot(w) && Paced(o, w) && OneShot(w)
  }

  // Orderly is kept by each change to the world, part by part.

  lemma AdmitKeeps(o: Options, w: World, id: nat, g: Gen, m: Call)
    requires Orderly(o, w) && id !in w.ops && |w.ops| < o.capacity + 1 && g in w.sessions
    ensures Orderly(o, w.(ops := w.ops[id := Op(g, m, Queued)]))
  {
    AdmitKeepsSlot(w, id, g, m);
    assert |w.ops[id := Op(g, m, Queued)]| == |w.ops| + 1;
  }

  lemma AdmitKeepsSlot(w: World, id: nat, g: Gen, m: Call)
    requires Chain(w) && Slot(w) && id !in w.ops && g in w.sessions
    ensures Chain(w.(ops := w.ops[id := Op(g, m, Queued)])) && Slot(w.(ops := w.ops[id := Op(g, m, Queued)]))
    ensures w.slot != Some(id)
  {
  }

  lemma TakeKeepsSlot(w: World, id: nat)
    requires Chain(w) && Slot(w) && Live(w, id) && w.ops[id].stage.Queued? && w.slot.None?
    requires !Refuses(w.sessions[w.ops[id].gen].blocked, w.ops[id].call)
    ensures Chain(Taken(w, id)) && Slot(Taken(w, id))
  {
  }

  lemma TakeKeeps(o: Options, w: World, id: nat)
    requires Orderly(o, w) && Live(w, id) && w.ops[id].stage.Queued? && w.slot.None?
    requires !Refuses(w.sessions[w.ops[id].gen].blocked, w.ops[id].call)
    ensures Orderly(o, Taken(w, id))
  {
    TakeKeepsSlot(w, id);
    assert Taken(w, id).ops.Keys == w.ops.Keys;
  }

  lemma StartKeepsSlot(o: Options, w: World, id: nat)
    requires Chain(w) && Slot(w) && Live(w, id) && w.slot == Some(id)
    ensures Chain(Departed(o, w, id)) && Slot(Departed(o, w, id))
  {
  }

  lemma StartKeepsPace(o: Options, w: World, id: nat)
    requires Paced(o, w) && Live(w, id) && w.nextStart <= w.now
    ensures Paced(o, Departed(o, w, id))
  {
    assert Departed(o, w, id).ops.Keys == w.ops.Keys;
  }

  lemma StartKeeps(o: Options, w: World, id: nat)
    requires Orderly(o, w) && Live(w, id) && w.slot == Some(id) && w.nextStart <= w.now
    ensures Orderly(o, Departed(o, w, id))
  {
    StartKeepsSlot(o, w, id);
    StartKeepsPace(o, w, id);
  }

  lemma LeaveKeeps(o: Options, w: World, id: nat)
    requires Orderly(o, w)
    ensures Orderly(o, Leave(w, id))
  {
    FewerOps(w.ops, id);
  }

  lemma FewerOps(ops: map<nat, Op>, id: nat)
    ensures |ops - {id}| <= |ops|
  {
    if id in ops {
      assert |ops - {id}| == |ops| - 1;
    } else {
      assert ops - {id} == ops;
    }
  }

  lemma SwapKeepsChain(w: World, s: Session, root: Gen)
    requires Chain(w) && root <= w.next
    ensures Chain(Swap(w, s, root))
  {
  }

  lemma SwapKeepsSlot(w: World, s: Session, root: Gen)
    requires Chain(w) && Slot(w)
    ensures Slot(Swap(w, s, root))
  {
  }

  /** A session that starts a chain of its own carries no override. */
  lemma SwapKeepsOneShot(w: World, s: Session)
    requires Chain(w) && OneShot(w) && !s.override
    ensures Chain(Swap(w, s, w.next)) && OneShot(Swap(w, s, w.next))
  {
    SwapKeepsChain(w, s, w.next);
  }

  lemma SwapKeeps(o: Options, w: World, s: Session)
    requires Orderly(o, w) && !s.override
    ensures Orderly(o, Swap(w, s, w.next))
  {
    SwapKeepsSlot(w, s, w.next);
    SwapKeepsOneShot(w, s);
  }

  lemma ChangeKeepsChain(w: World, s: Session)
    requires Chain(w) && Slot(w) && w.slot.None?
    ensures Chain(w.(sessions := w.sessions[w.current := s])) && Slot(w.(sessions := w.sessions[w.current := s]))
  {
    assert w.sessions[w.current := s].Keys == w.sessions.Keys;
  }

  lemma ChangeKeepsOneShot(w: World, s: Session)
    requires Chain(w) && OneShot(w) && w.slot.None? && Chain(w.(sessions := w.sessions[w.current := s]))
    requires s.config.region == w.sessions[w.current].config.region && s.override == w.sessions[w.current].override
    ensures OneShot(w.(sessions := w.sessions[w.current := s]))
  {
  }

  /** A change of the current session that keeps its region and its override flag. */
  lemma ChangeKeeps(o: Options, w: World, s: Session)
    requires Orderly(o, w) && w.slot.None?
    requires s.config.region == w.sessions[w.current].config.region && s.override == w.sessions[w.current].override
    ensures Orderly(o, w.(sessions := w.sessions[w.current := s]))
  {
    ChangeKeepsChain(w, s);
    ChangeKeepsOneShot(w, s);
  }

  lemma RecordKeeps(o: Options, w: World, m: Call, e: ClientError)
    requires Orderly(o, w) && w.slot.None?
    ensures Orderly(o, w.(sessions := w.sessions[w.current := Recorded(w.sessions[w.current], m, e)]))
  {
    ChangeKeeps(o, w, Recorded(w.sessions[w.current], m, e));
  }

  lemma UsedKeepsChain(w: World, op: Op)
    requires Chain(w) && Slot(w) && w.slot.None? && op.gen == w.current
    ensures Chain(Used(w, op)) && Slot(Used(w, op))
  {
  }

  lemma UsedKeepsOneShot(w: World, op: Op)
    requires Chain(w) && OneShot(w) && w.slot.None? && op.gen == w.current
    requires op.stage == Sent(SendsOverride(w.sessions[w.current], op.call))
    requires Chain(Used(w, op))
    ensures OneShot(Used(w, op))
  {
    assert Root(w, w.current) == w.root[w.current];
  }

  lemma UsedKeeps(o: Options, w: World, op: Op)
    requires Orderly(o, w) && w.slot.None? && op.gen == w.current
    requires op.stage == Sent(SendsOverride(w.sessions[w.current], op.call))
    ensures Orderly(o, Used(w, op))
  {
    UsedKeepsChain(w, op);
    UsedKeepsOneShot(w, op);
  }

  lemma UpdateKeepsOneShot(w: World, op: Op, s: Session)
    requires Chain(w) && OneShot(w) && w.slot.None? && op.gen == w.current && op.call.Discover?
    requires s.override == w.sessions[w.current].override && s.config.region == w.sessions[w.current].config.region
    ensures Chain(Adopted(w, op, s)) && OneShot(Adopted(w, op, s))
  {
    assert Root(w, w.current) == w.root[w.current];
    SwapKeepsChain(w, s, w.root[w.current]);
  }

  lemma RegistrationKeepsOneShot(w: World, op: Op, s: Session)
    requires Chain(w) && OneShot(w) && w.slot.None? && op.call.Register? && s.override && s.config.region.Jp?
    ensures Chain(Adopted(w, op, s)) && OneShot(Adopted(w, op, s))
  {
    SwapKeepsChain(w, s, w.next);
  }

  lemma AdoptedKeepsOneShot(w: World, op: Op, s: Session)
    requires Chain(w) && OneShot(w) && w.slot.None? && op.gen == w.current
    requires s.override == if op.call.Discover? then w.sessions[w.current].override else op.call.Register?
    requires s.config.region == w.sessions[w.current].config.region && (op.call.Register? ==> s.config.region.Jp?)
    ensures Chain(Adopted(w, op, s)) && OneShot(Adopted(w, op, s))
  {
    if op.call.Discover? {
      UpdateKeepsOneShot(w, op, s);
    } else if op.call.Register? {
      RegistrationKeepsOneShot(w, op, s);
    } else {
      SwapKeepsOneShot(w, s);
    }
  }

  lemma AdoptedKeeps(o: Options, w: World, op: Op, s: Session)
    requires Orderly(o, w) && w.slot.None? && op.gen == w.current
    requires s.override == if op.call.Discover? then w.sessions[w.current].override else op.call.Register?
    requires s.config.region == w.sessions[w.current].config.region && (op.call.Register? ==> s.config.region.Jp?)
    ensures Orderly(o, Adopted(w, op, s))
  {
    AdoptedKeepsOneShot(w, op, s);
    SwapKeepsSlot(w, s, if op.call.Discover? then Root(w, op.gen) else w.next);
  }

  // ----- sound sessions, admissible calls -----

  ghost predicate AllSessions(p: Session -> bool, w: World) {
    forall g :: g in w.sessions ==> p(w.sessions[g])
  }

  ghost predicate AllOps(q: (Session, Call) -> bool, w: World) {
    forall id :: id in w.ops && w.ops[id].gen in w.sessions ==> q(w.sessions[w.ops[id].gen], w.ops[id].call)
  }

  lemma SwapKeepsAll(p: Session -> bool, q: (Session, Call) -> bool, w: World, s: Session, root: Gen)
    requires Chain(w) && AllSessions(p, w) && AllOps(q, w) && p(s)
    ensures AllSessions(p, Swap(w, s, root)) && AllOps(q, Swap(w, s, root))
  {
  }

  lemma ChangeKeepsAll(p: Session -> bool, q: (Session, Call) -> bool, w: World, t: Session)
    requires Chain(w) && AllSessions(p, w) && AllOps(q, w) && p(t)
    requires forall m :: q(w.sessions[w.current], m) ==> q(t, m)
    ensures AllSessions(p, w.(sessions := w.sessions[w.current := t]))
    ensures AllOps(q, w.(sessions := w.sessions[w.current := t]))
  {
  }

  function SoundIn(parse: Parse): Session -> bool {
    (s: Session) => Sound(parse, s)
  }

  /** Every session ever installed has a valid configuration and presentable
      credentials, and every admitted call may still be made on its session, whose
      configuration and credentials never change. */
  ghost predicate AllSound(o: Options, w: World) {
    AllSessions(SoundIn(o.parse), w) && AllOps(Admissible, w)
  }

  lemma SameAdmission(s: Session, t: Session)
    requires t.config == s.config && t.credentials == s.credentials
    ensures forall m :: Admissible(s, m) ==> Admissible(t, m)
  {
  }

  lemma RecordKeepsAll(o: Options, w: World, m: Call, e: ClientError)
    requires Chain(w) && AllSound(o, w) && Constructed(e)
    ensures AllSound(o, w.(sessions := w.sessions[w.current := Recorded(w.sessions[w.current], m, e)]))
  {
    var s := w.sessions[w.current];
    assert SoundIn(o.parse)(s);
    RecordKeepsSound(o.parse, s, m, e);
    SameAdmission(s, Recorded(s, m, e));
    ChangeKeepsAll(SoundIn(o.parse), Admissible, w, Recorded(s, m, e));
  }

  lemma UsedKeepsAll(o: Options, w: World, op: Op)
    requires Chain(w) && AllSound(o, w) && op.gen == w.current
    ensures AllSound(o, Used(w, op))
  {
    var s := w.sessions[w.current];
    var t := if op.stage == Sent(true) then s.(override := false) else s;
    assert SoundIn(o.parse)(s);
    assert Sound(o.parse, t);
    SameAdmission(s, t);
    ChangeKeepsAll(SoundIn(o.parse), Admissible, w, t);
  }

  lemma AdoptedKeepsAll(o: Options, w: World, op: Op, a: Answer)
    requires Chain(w) && AllSound(o, w) && op.gen == w.current && Admissible(w.sessions[w.current], op.call)
    requires Installed(w.sessions[w.current], op.call, a).Some?
    ensures AllSound(o, Adopted(w, op, Installed(w.sessions[w.current], op.call, a).value))
  {
    var s := w.sessions[w.current];
    assert SoundIn(o.parse)(s);
    InstallKeepsSound(o.parse, s, op.call, a);
    SwapKeepsAll(SoundIn(o.parse), Admissible, w, Installed(s, op.call, a).value,
                 if op.call.Discover? then Root(w, op.gen) else w.next);
  }

  /** The calls changed, the sessions did not. */
  lemma OpsKeepAll(o: Options, w: World, v: World)
    requires AllSound(o, w) && v.sessions == w.sessions
    requires forall id :: id in v.ops && v.ops[id].gen in v.sessions ==>
               || (id in w.ops && v.ops[id].gen == w.ops[id].gen && v.ops[id].call == w.ops[id].call)
               || Admissible(v.sessions[v.ops[id].gen], v.ops[id].call)
    ensures AllSound(o, v)
  {
  }

  // ----- every step -----

  ghost predicate Inv(o: Options, w: World) {
    Orderly(o, w) && AllSound(o, w)
  }

  lemma InstallShape(s: Session, m: Call, a: Answer)
    requires Installed(s, m, a).Some?
    ensures var t := Installed(s, m, a).value;
            && t.config.region == s.config.region
            && t.override == if m.Discover? then s.override else m.Register?
  {
  }

  /** The session after its call was used. */
  lemma UsedSession(w: World, op: Op)
    requires op.gen in w.sessions
    ensures op.gen in Used(w, op).sessions && Used(w, op).current == w.current
    ensures var t := Used(w, op).sessions[op.gen];
            t.config == w.sessions[op.gen].config && t.credentials == w.sessions[op.gen].credentials
  {
  }

  lemma AcceptedIsOrderly(o: Options, v: World, op: Op, install: Option<Session>)
    requires Orderly(o, v) && v.slot.None? && op.gen == v.current
    requires install.Some? ==>
      && install.value.override == (if op.call.Discover? then v.sessions[v.current].override else op.call.Register?)
      && install.value.config.region == v.sessions[v.current].config.region
      && (op.call.Register? ==> install.value.config.region.Jp?)
    ensures Orderly(o, Accepted(v, op, install))
  {
    if install.Some? {
      AdoptedKeeps(o, v, op, install.value);
    }
  }

  lemma AnswerIsOrderly(o: Options, l: World, op: Op, a: Answer, cancel: bool)
    requires Orderly(o, l) && l.slot.None? && op.gen == l.current && Admissible(l.sessions[l.current], op.call)
    requires op.stage == Sent(SendsOverride(l.sessions[l.current], op.call))
    ensures Orderly(o, Judged(l, op, Ok(a), cancel))
  {
    var v := Used(l, op);
    UsedKeeps(o, l, op);
    UsedSession(l, op);
    var install := if cancel then None else Installed(v.sessions[l.current], op.call, a);
    if install.Some? {
      InstallShape(v.sessions[l.current], op.call, a);
    }
    AcceptedIsOrderly(o, v, op, install);
    assert Judged(l, op, Ok(a), cancel) == Accepted(v, op, install);
  }

  lemma AcceptedIsSound(o: Options, v: World, op: Op, a: Answer, cancel: bool)
    requires Chain(v) && AllSound(o, v) && op.gen == v.current && Admissible(v.sessions[v.current], op.call)
    ensures AllSound(o, Accepted(v, op, if cancel then None else Installed(v.sessions[v.current], op.call, a)))
  {
    if !cancel && Installed(v.sessions[v.current], op.call, a).Some? {
      AdoptedKeepsAll(o, v, op, a);
    }
  }

  lemma AnswerIsSound(o: Options, l: World, op: Op, a: Answer, cancel: bool)
    requires Chain(l) && Slot(l) && l.slot.None? && AllSound(o, l)
    requires op.gen == l.current && Admissible(l.sessions[l.current], op.call)
    ensures AllSound(o, Judged(l, op, Ok(a), cancel))
  {
    var v := Used(l, op);
    UsedKeepsChain(l, op);
    UsedKeepsAll(o, l, op);
    UsedSession(l, op);
    SameAdmission(l.sessions[l.current], v.sessions[l.current]);
    AcceptedIsSound(o, v, op, a, cancel);
  }

  /** The outcome of a call that has just left the slot. */
  lemma JudgedIsOrderly(o: Options, l: World, op: Op, outcome: Result<Answer, ClientError>, cancel: bool)
    requires Orderly(o, l) && l.slot.None? && op.gen == l.current && Admissible(l.sessions[l.current], op.call)
    requires op.stage == Sent(SendsOverride(l.sessions[l.current], op.call))
    ensures Orderly(o, Judged(l, op, outcome, cancel))
  {
    match outcome
    case Err(e) => RecordKeeps(o, l, op.call, e);
    case Ok(a) => AnswerIsOrderly(o, l, op, a, cancel);
  }

  lemma JudgedIsSound(o: Options, l: World, op: Op, outcome: Result<Answer, ClientError>, cancel: bool)
    requires Chain(l) && Slot(l) && l.slot.None? && AllSound(o, l)
    requires op.gen == l.current && Admissible(l.sessions[l.current], op.call)
    requires outcome.Err? ==> Constructed(outcome.error)
    ensures AllSound(o, Judged(l, op, outcome, cancel))
  {
    match outcome
    case Err(e) => RecordKeepsAll(o, l, op.call, e);
    case Ok(a) => AnswerIsSound(o, l, op, a, cancel);
  }

  /** What is known of a call that returns. */
  lemma Returns(o: Options, w: World, id: nat)
    requires Inv(o, w) && Live(w, id) && w.ops[id].stage.Sent? && w.slot == Some(id)
    ensures w.ops[id].gen == w.current && w.current in w.sessions
    ensures Admissible(w.sessions[w.current], w.ops[id].call)
    ensures w.ops[id].stage == Sent(SendsOverride(w.sessions[w.current], w.ops[id].call))
  {
  }

  lemma FinishIsOrderly(o: Options, w: World, id: nat, outcome: Result<Answer, ClientError>, cancel: bool)
    requires Inv(o, w) && Live(w, id) && w.ops[id].stage.Sent? && w.slot == Some(id)
    ensures Orderly(o, Judged(Leave(w, id), w.ops[id], outcome, cancel))
  {
    Returns(o, w, id);
    LeaveKeeps(o, w, id);
    JudgedIsOrderly(o, Leave(w, id), w.ops[id], outcome, cancel);
  }

  lemma MovedIsOrderly(o: Options, w: World, e: Event)
    requires Orderly(o, w) && Enabled(o, w, e) && !e.Finish?
    ensures Orderly(o, Moved(o, w, e))
  {
    match e
    case Drop(id) => LeaveKeeps(o, w, id);
    case Replace(c, a) => SwapKeeps(o, w, Fresh(c, a, false));
    case Import(g, a) => SwapKeeps(o, w, Fresh(w.sessions[g].config, Some(a), false));
    case Admit(id, g, m) => AdmitKeeps(o, w, id, g, m);
    case TakeSlot(id) =>
      if Refuses(w.sessions[w.ops[id].gen].blocked, w.ops[id].call) {
        LeaveKeeps(o, w, id);
      } else {
        TakeKeeps(o, w, id);
      }
    case Start(id) => StartKeeps(o, w, id);
    case Tick =>
  }

  lemma ReplacedIsSound(o: Options, w: World, s: Session)
    requires Chain(w) && AllSound(o, w) && Sound(o.parse, s)
    ensures AllSound(o, Swap(w, s, w.next))
  {
    SwapKeepsAll(SoundIn(o.parse), Admissible, w, s, w.next);
  }

  lemma FinishIsSound(o: Options, w: World, id: nat, outcome: Result<Answer, ClientError>, cancel: bool)
    requires Inv(o, w) && Live(w, id) && w.ops[id].stage.Sent? && w.slot == Some(id)
    requires outcome.Err? ==> Constructed(outcome.error)
    ensures AllSound(o, Judged(Leave(w, id), w.ops[id], outcome, cancel))
  {
    Returns(o, w, id);
    LeaveKeeps(o, w, id);
    OpsKeepAll(o, w, Leave(w, id));
    JudgedIsSound(o, Leave(w, id), w.ops[id], outcome, cancel);
  }

  lemma AdmitIsSound(o: Options, w: World, id: nat, g: Gen, m: Call)
    requires AllSound(o, w) && g in w.sessions && Admissible(w.sessions[g], m)
    ensures AllSound(o, w.(ops := w.ops[id := Op(g, m, Queued)]))
  {
    OpsKeepAll(o, w, w.(ops := w.ops[id := Op(g, m, Queued)]));
  }

  lemma TakeIsSound(o: Options, w: World, id: nat)
    requires AllSound(o, w) && id in w.ops
    ensures AllSound(o, Taken(w, id)) && AllSound(o, Leave(w, id))
  {
    OpsKeepAll(o, w, Taken(w, id));
    OpsKeepAll(o, w, Leave(w, id));
  }

  lemma StartIsSound(o: Options, w: World, id: nat)
    requires AllSound(o, w) && Live(w, id)
    ensures AllSound(o, Departed(o, w, id))
  {
    OpsKeepAll(o, w, Departed(o, w, id));
  }

  lemma TickIsSound(o: Options, w: World)
    requires AllSound(o, w)
    ensures AllSound(o, w.(now := w.now + 1))
  {
    OpsKeepAll(o, w, w.(now := w.now + 1));
  }

  lemma QuietIsSound(o: Options, w: World, e: Event)
    requires AllSound(o, w) && Enabled(o, w, e) && !e.Finish? && !e.Replace? && !e.Import?
    ensures AllSound(o, Moved(o, w, e))
  {
    match e
    case Admit(id, g, m) => AdmitIsSound(o, w, id, g, m);
    case Drop(id) => OpsKeepAll(o, w, Leave(w, id));
    case TakeSlot(id) => TakeIsSound(o, w, id);
    case Start(id) => StartIsSound(o, w, id);
    case Tick => TickIsSound(o, w);
  }

  lemma SwapIsSound(o: Options, w: World, e: Event)
    requires Chain(w) && AllSound(o, w) && Enabled(o, w, e) && (e.Replace? || e.Import?)
    ensures AllSound(o, Moved(o, w, e))
  {
    if e.Replace? {
      ReplacedIsSound(o, w, Fresh(e.config, e.credentials, false));
    } else {
      ReplacedIsSound(o, w, Fresh(w.sessions[e.gen].config, Some(e.provided), false));
    }
  }

  lemma StepKeeps(o: Options, w: World, e: Event)
    requires Inv(o, w) && Enabled(o, w, e)
    ensures Inv(o, Step(o, w, e))
  {
    if e.Finish? {
      FinishIsOrderly(o, w, e.id, e.outcome, e.cancel);
      FinishIsSound(o, w, e.id, e.outcome, e.cancel);
    } else {
      MovedIsOrderly(o, w, e);
      if e.Replace? || e.Import? {
        SwapIsSound(o, w, e);
      } else {
        QuietIsSound(o, w, e);
      }
    }
  }

  lemma InitialInv(o: Options, w: World)
    requires Initial(o, w)
    ensures Inv(o, w)
  {
  }

  lemma Link(o: Options, ws: seq<World>, es: seq<Event>, k: nat)
    requires Run(o, ws, es) && k < |es|
    ensures Enabled(o, ws[k], es[k]) && ws[k + 1] == Step(o, ws[k], es[k])
  {
    assert Linked(o, ws, es, k);
  }

  /** The invariant as a function: where it is only passed on, it is not unfolded. */
  ghost function InvIn(o: Options): World -> bool {
    (w: World) => Inv(o, w)
  }

  lemma InvNext(o: Options, ws: seq<World>, es: seq<Event>, k: nat)
    requires Run(o, ws, es) && k < |es| && InvIn(o)(ws[k])
    ensures InvIn(o)(ws[k + 1])
  {
    Link(o, ws, es, k);
    StepKeeps(o, ws[k], es[k]);
  }

  lemma Always(o: Options, ws: seq<World>, es: seq<Event>, k: nat)
    requires Run(o, ws, es) && k <= |es|
    ensures Inv(o, ws[k])
  {
    InitialInv(o, ws[0]);
    forall i {:trigger ws[i]} | 0 <= i < |ws| - 1 && InvIn(o)(ws[i]) ensures InvIn(o)(ws[i + 1]) {
      InvNext(o, ws, es, i);
    }
    AllAlong(ws, InvIn(o), k);
    assert InvIn(o)(ws[k]);
  }

  // ----- what holds in every run -----

  /** Sessions form one chain: exactly the superseded ones are cancelled, and every one
      ever installed has a valid configuration. */
  lemma OneChain(o: Options, ws: seq<World>, es: seq<Event>, k: nat)
    requires Run(o, ws, es) && k <= |es|
    ensures ws[k].current in ws[k].sessions && ws[k].cancelled == ws[k].sessions.Keys - {ws[k].current}
    ensures forall g :: g in ws[k].sessions ==> ValidConfig(o.parse, ws[k].sessions[g].config)
    ensures forall g :: g in ws[k].sessions ==> Presentable(ws[k].sessions[g].config, ws[k].sessions[g].credentials)
    ensures forall g :: g in ws[k].sessions && ws[k].sessions[g].mismatch ==> ws[k].sessions[g].blocked == Some(Version)
  {
    Always(o, ws, es, k);
    forall g | g in ws[k].sessions ensures Sound(o.parse, ws[k].sessions[g]) {
      assert SoundIn(o.parse)(ws[k].sessions[g]);
    }
  }

  /** The event is a login, registration, import, refresh or adoption that started on g. */
  predicate InstallsFrom(w: World, e: Event, g: Gen) {
    || (e.Finish? && e.id in w.ops && w.ops[e.id].gen == g && !w.ops[e.id].call.Query? && !w.ops[e.id].call.PreLogin?)
    || (e.Import? && e.gen == g)
  }

  /** Apart from replacement, sessions are installed only over the one they started
      from; logins and registrations never over a lasting block. */
  lemma InstallsCompareAndSwap(o: Options, w: World, e: Event)
    requires Chain(w) && Slot(w) && Enabled(o, w, e) && Step(o, w, e).current != w.current && !e.Replace?
    ensures InstallsFrom(w, e, w.current)
    ensures e.Finish? && !w.ops[e.id].call.Discover? ==> !Lasting(w.sessions[w.current].blocked)
  {
    if e.Finish? {
      FinishSwaps(o, w, e);
    }
  }

  lemma FinishSwaps(o: Options, w: World, e: Event)
    requires Chain(w) && Slot(w) && Enabled(o, w, e) && e.Finish? && Step(o, w, e).current != w.current
    ensures e.id in w.ops && w.ops[e.id].gen == w.current && w.current in w.sessions
    ensures !w.ops[e.id].call.Query? && !w.ops[e.id].call.PreLogin?
    ensures !w.ops[e.id].call.Discover? ==> !Lasting(w.sessions[w.current].blocked)
  {
  }

  /** Updates keep identity, origin and override and lift only a version block, for
      cause. */
  lemma UpdateKeepsIdentity(o: Options, w: World, e: Event)
    requires Inv(o, w) && Enabled(o, w, e) && e.Finish? && Step(o, w, e).current != w.current
    requires w.ops[e.id].call.Discover?
    ensures w.ops[e.id].gen == w.current && Step(o, w, e).current == w.next && w.next in Step(o, w, e).sessions
    ensures KeepsIdentity(w.sessions[w.current], Step(o, w, e).sessions[w.next])
  {
    var op := w.ops[e.id];
    UpdateInstalls(o, w, e);
    assert SoundIn(o.parse)(w.sessions[w.current]);
    InstallKeepsSound(o.parse, w.sessions[w.current], op.call, e.outcome.value);
  }

  /** Which session an update that takes effect leads to. */
  lemma UpdateInstalls(o: Options, w: World, e: Event)
    requires Chain(w) && Slot(w) && OneShot(w)
    requires Enabled(o, w, e) && e.Finish? && Step(o, w, e).current != w.current && w.ops[e.id].call.Discover?
    ensures w.ops[e.id].gen == w.current && e.outcome.Ok? && Step(o, w, e).current == w.next
    ensures var t := Installed(w.sessions[w.current], w.ops[e.id].call, e.outcome.value);
            t.Some? && w.next in Step(o, w, e).sessions && Step(o, w, e).sessions[w.next] == t.value
  {
    assert Used(Leave(w, e.id), w.ops[e.id]).sessions[w.current] == w.sessions[w.current];
  }

  /** In every run: what replaces the current session started from it, unless the
      operator replaced it; a login or registration finds no lasting block, and an
      update keeps identity. */
  lemma EveryInstall(o: Options, ws: seq<World>, es: seq<Event>, k: nat)
    requires Run(o, ws, es) && k < |es| && ws[k + 1].current != ws[k].current
    ensures es[k].Replace? || InstallsFrom(ws[k], es[k], ws[k].current)
    ensures es[k].Finish? ==> es[k].id in ws[k].ops && ws[k].current in ws[k].sessions
    ensures es[k].Finish? && !ws[k].ops[es[k].id].call.Discover? ==> !Lasting(ws[k].sessions[ws[k].current].blocked)
    ensures es[k].Finish? && ws[k].ops[es[k].id].call.Discover? ==>
      ws[k + 1].current in ws[k + 1].sessions &&
      KeepsIdentity(ws[k].sessions[ws[k].current], ws[k + 1].sessions[ws[k + 1].current])
  {
    Always(o, ws, es, k);
    Link(o, ws, es, k);
    if es[k].Finish? {
      FinishSwaps(o, ws[k], es[k]);
      if ws[k].ops[es[k].id].call.Discover? {
        UpdateKeepsIdentity(o, ws[k], es[k]);
      }
    }
    if !es[k].Replace? {
      InstallsCompareAndSwap(o, ws[k], es[k]);
    }
  }

  /** The later state of the session of generation g: same configuration and
      credentials; a lasting block unchanged, another one at most replaced. */
  predicate Continues(s: Session, t: Session) {
    && t.config == s.config && t.credentials == s.credentials
    && (Lasting(s.blocked) ==> t.blocked == s.blocked)
    && (s.blocked.Some? ==> t.blocked.Some?)
  }

  lemma RecordedContinues(s: Session, m: Call, e: ClientError)
    ensures Continues(s, Recorded(s, m, e))
  {
  }

  lemma JudgedContinues(w: World, op: Op, outcome: Result<Answer, ClientError>, cancel: bool, g: Gen)
    requires g in w.sessions && g < w.next && op.gen in w.sessions
    ensures g in Judged(w, op, outcome, cancel).sessions
    ensures Continues(w.sessions[g], Judged(w, op, outcome, cancel).sessions[g])
  {
    if outcome.Err? {
      RecordedContinues(w.sessions[op.gen], op.call, outcome.error);
    }
  }

  lemma BlocksAreAbsorbing(o: Options, w: World, e: Event, g: Gen)
    requires Chain(w) && Enabled(o, w, e) && g in w.sessions
    ensures g in Step(o, w, e).sessions && Continues(w.sessions[g], Step(o, w, e).sessions[g])
  {
    if e.Finish? {
      JudgedContinues(Leave(w, e.id), w.ops[e.id], e.outcome, e.cancel, g);
    } else if !e.Replace? && !e.Import? {
      assert Step(o, w, e).sessions == w.sessions;
    }
  }

  lemma ContinuesNext(o: Options, ws: seq<World>, es: seq<Event>, k: nat, g: Gen)
    requires Run(o, ws, es) && k < |es| && g in ws[k].sessions
    ensures g in ws[k + 1].sessions && Continues(ws[k].sessions[g], ws[k + 1].sessions[g])
  {
    Always(o, ws, es, k);
    Link(o, ws, es, k);
    BlocksAreAbsorbing(o, ws[k], es[k], g);
  }

  lemma ContinuesOn(s: Session, t: Session, u: Session)
    requires Continues(s, t) && Continues(t, u)
    ensures Continues(s, u)
  {
  }

  /** In every run a session, current or superseded, keeps its configuration and
      credentials, and a version or device block stays what it is. */
  lemma {:induction false} BlocksLast(o: Options, ws: seq<World>, es: seq<Event>, i: nat, k: nat, g: Gen)
    requires Run(o, ws, es) && i <= k <= |es| && g in ws[i].sessions
    ensures g in ws[k].sessions && Continues(ws[i].sessions[g], ws[k].sessions[g])
  {
    if i < k {
      BlocksLast(o, ws, es, i, k - 1, g);
      ContinuesNext(o, ws, es, k - 1, g);
      ContinuesOn(ws[i].sessions[g], ws[k - 1].sessions[g], ws[k].sessions[g]);
    }
  }

  /** Only calls of the current session act. What leaves for the transport is still
      allowed at that moment: no authenticated call on a blocked session, no login on a
      lasting block; and an answer is judged while its session is the current one. */
  lemma OnlyTheCurrentSessionActs(o: Options, w: World, e: Event)
    requires Chain(w) && Slot(w) && Enabled(o, w, e) && (e.Start? || e.Finish?)
    ensures w.ops[e.id].gen == w.current
    ensures !Refuses(w.sessions[w.current].blocked, w.ops[e.id].call)
    ensures !Anonymous(w.ops[e.id].call) ==> w.sessions[w.current].blocked.None?
  {
    var op := w.ops[e.id];
    assert w.slot == Some(e.id);
  }

  /** In every run: departures and judged answers are of the current session, and no
      block of it refuses them. */
  lemma EveryDeparture(o: Options, ws: seq<World>, es: seq<Event>, k: nat)
    requires Run(o, ws, es) && k < |es| && (es[k].Start? || es[k].Finish?)
    ensures es[k].id in ws[k].ops && ws[k].ops[es[k].id].gen == ws[k].current && ws[k].current in ws[k].sessions
    ensures !Refuses(ws[k].sessions[ws[k].current].blocked, ws[k].ops[es[k].id].call)
  {
    Always(o, ws, es, k);
    Link(o, ws, es, k);
    OnlyTheCurrentSessionActs(o, ws[k], es[k]);
  }

  /** At most queue + 1 calls are admitted and one is in the transport, and the n-th
      departure after any other is n intervals later, whatever was dropped between. */
  lemma RateHolds(o: Options, ws: seq<World>, es: seq<Event>, k: nat, i: nat, n: nat)
    requires Run(o, ws, es) && k <= |es|
    ensures |ws[k].ops| <= o.capacity + 1
    ensures var ops := ws[k].ops;
            forall a, b :: a in ops && b in ops && ops[a].stage.Sent? && ops[b].stage.Sent? ==> a == b
    ensures i + n < |ws[k].starts| ==> ws[k].starts[i].time + n * o.interval <= ws[k].starts[i + n].time
  {
    Always(o, ws, es, k);
    OneInTransport(ws[k]);
    if i + n < |ws[k].starts| {
      Spread(ws[k].starts, o.interval, i, n);
    }
  }

  lemma OneInTransport(w: World)
    requires Slot(w)
    ensures forall a, b :: a in w.ops && b in w.ops && w.ops[a].stage.Sent? && w.ops[b].stage.Sent? ==> a == b
  {
  }

  lemma {:induction false} Spread(starts: seq<Departure>, interval: nat, i: nat, n: nat)
    requires i + n < |starts|
    requires forall k {:trigger starts[k]} :: 0 < k < |starts| ==> starts[k - 1].time + interval <= starts[k].time
    ensures starts[i].time + n * interval <= starts[i + n].time
  {
    if n > 0 {
      Spread(starts, interval, i, n - 1);
      assert starts[i + n - 1].time + interval <= starts[i + n].time;
      assert n * interval == (n - 1) * interval + interval;
    }
  }

  // ----- the override header -----

  /** The event is the return of a successful authenticated call on a registered chain. */
  predicate Settles(w: World, e: Event, r: Gen) {
    && e.Finish? && e.id in w.ops && e.outcome.Ok? && !Anonymous(w.ops[e.id].call)
    && Root(w, w.ops[e.id].gen) == r && r in w.registered
  }

  lemma SettledByJudged(w: World, op: Op, outcome: Result<Answer, ClientError>, cancel: bool, r: Gen)
    requires op.gen in w.sessions
    ensures r in Judged(w, op, outcome, cancel).settled <==>
      || r in w.settled
      || (outcome.Ok? && !Anonymous(op.call) && Root(w, op.gen) == r && r in w.registered)
  {
  }

  lemma SettledBy(o: Options, w: World, e: Event, r: Gen)
    requires Enabled(o, w, e)
    ensures r in Step(o, w, e).settled <==> r in w.settled || Settles(w, e, r)
  {
    if e.Finish? {
      SettledByJudged(Leave(w, e.id), w.ops[e.id], e.outcome, e.cancel, r);
    } else {
      assert Step(o, w, e).settled == w.settled;
    }
  }

  lemma {:induction false} SettledStays(o: Options, ws: seq<World>, es: seq<Event>, j: nat, k: nat, r: Gen)
    requires Run(o, ws, es) && j < k <= |es| && Settles(ws[j], es[j], r)
    ensures r in ws[k].settled
  {
    Link(o, ws, es, k - 1);
    SettledBy(o, ws[k - 1], es[k - 1], r);
    if j < k - 1 {
      SettledStays(o, ws, es, j, k - 1, r);
    }
  }

  lemma {:induction false} SettledFrom(o: Options, ws: seq<World>, es: seq<Event>, k: nat, r: Gen) returns (j: nat)
    requires Run(o, ws, es) && k <= |es| && r in ws[k].settled
    ensures j < k && Settles(ws[j], es[j], r)
  {
    j := k - 1;
    Link(o, ws, es, j);
    SettledBy(o, ws[j], es[j], r);
    if !Settles(ws[j], es[j], r) {
      j := SettledFrom(o, ws, es, j, r);
    }
  }

  /** What a departure carries. */
  lemma StartCarries(o: Options, w: World, id: nat)
    requires Chain(w) && Slot(w) && OneShot(w) && Enabled(o, w, Start(id))
    ensures id in Departed(o, w, id).ops && Departed(o, w, id).ops[id].stage.Sent?
    ensures var r := Root(w, w.ops[id].gen);
            Departed(o, w, id).ops[id].stage.override <==>
              !Anonymous(w.ops[id].call) && r in w.registered && r !in w.settled
  {
    assert w.ops[id].gen == w.current;
  }

  lemma SettledExactly(o: Options, ws: seq<World>, es: seq<Event>, k: nat, r: Gen)
    requires Run(o, ws, es) && k <= |es|
    ensures r in ws[k].settled <==> exists j :: 0 <= j < k && Settles(ws[j], es[j], r)
  {
    if r in ws[k].settled {
      var j := SettledFrom(o, ws, es, k, r);
    } else {
      forall j | 0 <= j < k ensures !Settles(ws[j], es[j], r) {
        if Settles(ws[j], es[j], r) {
          SettledStays(o, ws, es, j, k, r);
        }
      }
    }
  }

  /** On a chain of version updates that began with a registration, authenticated calls
      carry the override header exactly until the first of them has returned Ok; no
      other call ever carries it. */
  lemma OverrideOnce(o: Options, ws: seq<World>, es: seq<Event>, k: nat, id: nat)
    requires Run(o, ws, es) && k < |es| && es[k] == Start(id)
    ensures id in ws[k].ops && id in ws[k + 1].ops && ws[k + 1].ops[id].stage.Sent?
    ensures var op, r := ws[k].ops[id], Root(ws[k], ws[k].ops[id].gen);
            ws[k + 1].ops[id].stage.override <==>
              !Anonymous(op.call) && r in ws[k].registered && forall j :: 0 <= j < k ==> !Settles(ws[j], es[j], r)
  {
    Always(o, ws, es, k);
    Link(o, ws, es, k);
    StartCarries(o, ws[k], id);
    SettledExactly(o, ws, es, k, Root(ws[k], ws[k].ops[id].gen));
  }

  // ----- what an answer installs -----

  /** The session of a call that returned Ok: an override that it carried is used up. */
  function After(s: Session, op: Op): Session {
    if op.stage == Sent(true) then s.(override := false) else s
  }

  function Installing(w: World, e: Event): Option<Session>
    requires e.Finish? && e.id in w.ops && w.current in w.sessions && e.outcome.Ok?
  {
    if e.cancel then None else Installed(After(w.sessions[w.current], w.ops[e.id]), w.ops[e.id].call, e.outcome.value)
  }

  lemma JudgedError(l: World, op: Op, e: ClientError, cancel: bool)
    requires op.gen == l.current && l.current in l.sessions
    ensures var w' := Judged(l, op, Err(e), cancel);
            && w'.current == l.current
            && w'.sessions == l.sessions[l.current := Recorded(l.sessions[l.current], op.call, e)]
  {
  }

  lemma JudgedAnswer(l: World, op: Op, a: Answer, cancel: bool)
    requires op.gen == l.current && l.current in l.sessions
    ensures var used := After(l.sessions[l.current], op);
            var install := if cancel then None else Installed(used, op.call, a);
            var w' := Judged(l, op, Ok(a), cancel);
            if install.None? then w'.current == l.current && w'.sessions == l.sessions[l.current := used]
            else
              && w'.current == l.next
              && w'.sessions == l.sessions[l.current := used][l.next := install.value]
  {
  }

  lemma ErrorChanges(o: Options, w: World, e: Event)
    requires Inv(o, w) && Enabled(o, w, e) && e.Finish? && e.outcome.Err?
    ensures w.ops[e.id].gen == w.current && w.current in w.sessions && Step(o, w, e).current == w.current
    ensures Step(o, w, e).sessions ==
      w.sessions[w.current := Recorded(w.sessions[w.current], w.ops[e.id].call, e.outcome.error)]
  {
    Returns(o, w, e.id);
    JudgedError(Leave(w, e.id), w.ops[e.id], e.outcome.error, e.cancel);
  }

  lemma AnswerChanges(o: Options, w: World, e: Event)
    requires Inv(o, w) && Enabled(o, w, e) && e.Finish? && e.outcome.Ok?
    ensures w.ops[e.id].gen == w.current && w.current in w.sessions
    ensures var used, install := w.sessions[w.current := After(w.sessions[w.current], w.ops[e.id])], Installing(w, e);
            if install.None? then Step(o, w, e).current == w.current && Step(o, w, e).sessions == used
            else Step(o, w, e).current == w.next && Step(o, w, e).sessions == used[w.next := install.value]
  {
    Returns(o, w, e.id);
    JudgedAnswer(Leave(w, e.id), w.ops[e.id], e.outcome.value, e.cancel);
  }

  /** The answer to a login or registration is one to be installed. */
  predicate Welcomes(s: Session, m: Call, outcome: Result<Answer, ClientError>, cancel: bool) {
    && outcome.Ok? && !cancel
    && (if m.Login? then outcome.value.LoggedIn? else outcome.value.Registered? && outcome.value.saved)
    && Presentable(s.config, Some(outcome.value.credentials))
  }

  /** In every run a login or registration that returns installs its session exactly if it
      succeeded, was not cancelled and gave credentials that can be presented and, for a
      registration, were saved. The session is then that of these credentials, on the
      configuration of the one it replaces and without observations. */
  lemma LoginTakesEffect(o: Options, ws: seq<World>, es: seq<Event>, k: nat)
    requires Run(o, ws, es) && k < |es| && es[k].Finish? && es[k].id in ws[k].ops
    requires ws[k].ops[es[k].id].call.Login? || ws[k].ops[es[k].id].call.Register?
    ensures ws[k].current in ws[k].sessions && ws[k + 1].current in ws[k + 1].sessions
    ensures var s, t := ws[k].sessions[ws[k].current], ws[k + 1].sessions[ws[k + 1].current];
            var m := ws[k].ops[es[k].id].call;
            if Welcomes(s, m, es[k].outcome, es[k].cancel) then
              && ws[k + 1].current == ws[k].next != ws[k].current
              && t.config == s.config && t.credentials == Some(es[k].outcome.value.credentials)
              && t.blocked.None? && !t.mismatch && (t.override <==> m.Register?)
            else ws[k + 1].current == ws[k].current
  {
    Always(o, ws, es, k);
    Link(o, ws, es, k);
    if es[k].outcome.Err? {
      ErrorChanges(o, ws[k], es[k]);
    } else {
      AnswerChanges(o, ws[k], es[k]);
      var op := ws[k].ops[es[k].id];
      LoginInstalls(After(ws[k].sessions[ws[k].current], op), op.call, es[k].outcome.value);
    }
  }

  /** The answer to a check is one to be installed. */
  predicate Updates(s: Session, candidate: Option<string>, outcome: Result<Answer, ClientError>, cancel: bool) {
    && outcome.Ok? && !cancel && outcome.value.Found?
    && Acceptable(s.config.region, outcome.value.version, outcome.value.resource)
    && Differs(s.config, candidate, outcome.value.version, outcome.value.resource)
  }

  /** In every run a check that returns installs a session exactly if it succeeded, was not
      cancelled and found acceptable versions that differ from the current ones. The
      session then has exactly these versions, the presented client version, the identity
      of the one it replaces, and no version block that the update answers. */
  lemma CheckTakesEffect(o: Options, ws: seq<World>, es: seq<Event>, k: nat)
    requires Run(o, ws, es) && k < |es| && es[k].Finish? && es[k].id in ws[k].ops
    requires ws[k].ops[es[k].id].call.Discover?
    ensures ws[k].current in ws[k].sessions && ws[k + 1].current in ws[k + 1].sessions
    ensures var s, t := ws[k].sessions[ws[k].current], ws[k + 1].sessions[ws[k + 1].current];
            var candidate := ws[k].ops[es[k].id].call.candidate;
            if Updates(s, candidate, es[k].outcome, es[k].cancel) then
              && ws[k + 1].current == ws[k].next != ws[k].current
              && t.config.master == Some(es[k].outcome.value.version)
              && t.config.resource == es[k].outcome.value.resource
              && t.config.client == (if candidate.Some? then candidate.value else s.config.client)
              && KeepsIdentity(s, t) && !t.mismatch
              && (t.blocked.None? <==>
                    || s.blocked.None?
                    || (s.blocked == Some(Version) && (s.mismatch || t.config.client != s.config.client)))
            else ws[k + 1].current == ws[k].current
  {
    Always(o, ws, es, k);
    Link(o, ws, es, k);
    if es[k].outcome.Err? {
      ErrorChanges(o, ws[k], es[k]);
    } else {
      AnswerChanges(o, ws[k], es[k]);
      DiscoversWithoutOverride(o, ws[k], es[k].id);
      CheckInstalls(ws[k].sessions[ws[k].current], ws[k].ops[es[k].id].call.candidate, es[k].outcome.value);
    }
  }

  /** A check is anonymous and never carries the override. */
  lemma DiscoversWithoutOverride(o: Options, w: World, id: nat)
    requires Inv(o, w) && Live(w, id) && w.ops[id].stage.Sent? && w.slot == Some(id) && w.ops[id].call.Discover?
    ensures w.ops[id].stage == Sent(false)
  {
    Returns(o, w, id);
  }

  /** The call may install a session. */
  predicate Installer(m: Call) {
    m.Login? || m.Register? || m.Discover?
  }

  lemma FinishInstallsNothing(o: Options, w: World, e: Event)
    requires Inv(o, w) && Enabled(o, w, e) && e.Finish?
    requires e.outcome.Err? || !Installer(w.ops[e.id].call)
    ensures Step(o, w, e).current == w.current
  {
    if e.outcome.Err? {
      ErrorChanges(o, w, e);
    } else {
      AnswerChanges(o, w, e);
    }
  }

  lemma MovesInstall(o: Options, w: World, e: Event)
    requires Chain(w) && Enabled(o, w, e) && !e.Finish?
    ensures var w', s := Moved(o, w, e), w.sessions[w.current];
            match e
            case Replace(c, a) =>
              w'.current == w.next && w'.sessions == w.sessions[w.next := Session(c, a, None, false, false)]
            case Import(_, a) =>
              && w'.current == w.next
              && w'.sessions == w.sessions[w.next := Session(s.config, Some(a), None, false, false)]
            case _ => w'.current == w.current && w'.sessions == w.sessions
  {
  }

  /** No error installs a session, and no query, test for a role, or other event but a
      replacement or an import, which install exactly what they are given. */
  lemma NothingElseInstalls(o: Options, ws: seq<World>, es: seq<Event>, k: nat)
    requires Run(o, ws, es) && k < |es|
    ensures ws[k].current in ws[k].sessions
    ensures var w, w', e := ws[k], ws[k + 1], es[k];
            var s := w.sessions[w.current];
            match e
            case Replace(c, a) =>
              w'.current == w.next && w'.sessions == w.sessions[w.next := Session(c, a, None, false, false)]
            case Import(_, a) =>
              && w'.current == w.next
              && w'.sessions == w.sessions[w.next := Session(s.config, Some(a), None, false, false)]
            case Finish(id, outcome, _) =>
              id in w.ops && (outcome.Err? || !Installer(w.ops[id].call) ==> w'.current == w.current)
            case _ => w'.current == w.current && w'.sessions == w.sessions
  {
    Always(o, ws, es, k);
    Link(o, ws, es, k);
    if !es[k].Finish? {
      MovesInstall(o, ws[k], es[k]);
    } else if es[k].outcome.Err? || !Installer(ws[k].ops[es[k].id].call) {
      FinishInstallsNothing(o, ws[k], es[k]);
    }
  }

  /** In every run an error is recorded as the current session's block exactly if it is an
      authentication error, a version error or a device conflict of an authenticated call
      or a login, and no version or device block is there already. */
  lemma ErrorsAreRecorded(o: Options, ws: seq<World>, es: seq<Event>, k: nat)
    requires Run(o, ws, es) && k < |es| && es[k].Finish? && es[k].outcome.Err?
    ensures es[k].id in ws[k].ops && ws[k].current in ws[k].sessions
    ensures var s, m, e := ws[k].sessions[ws[k].current], ws[k].ops[es[k].id].call, es[k].outcome.error;
            ws[k + 1].sessions == ws[k].sessions[ws[k].current :=
              if e.kind in {Authentication, Version, DeviceConflict} && m in {Query(false), PreLogin, Login}
                 && s.blocked !in {Some(Version), Some(DeviceConflict)}
              then s.(blocked := Some(e.kind), mismatch := MasterMismatch(e)) else s]
  {
    Always(o, ws, es, k);
    Link(o, ws, es, k);
    ErrorChanges(o, ws[k], es[k]);
    var s := ws[k].sessions[ws[k].current];
    if s.blocked != Some(Version) && s.blocked != Some(DeviceConflict) {
      ErrorsBlock(s, ws[k].ops[es[k].id].call, es[k].outcome.error);
    }
  }

  /** What a call needs of the session before it is queued. */
  predicate Needs(s: Session, m: Call) {
    match m
    case Query(true) => Presentable(s.config, None)
    case Query(false) => s.credentials.Some? && Presentable(s.config, s.credentials)
    case PreLogin => !s.config.region.Jp?
    case Login => !s.config.region.Jp?
    case Register => s.config.region.Jp? && s.credentials.None?
    case Discover(None) => Presentable(s.config, None)
    case Discover(Some(candidate)) =>
      PatchVersion(candidate).Some? && Presentable(s.config.(client := candidate), None)
  }

  /** A call is admitted exactly if it is made on the current session, which meets its
      needs, and at most as many calls as the queue holds are admitted already. */
  lemma AdmittedExactly(o: Options, ws: seq<World>, es: seq<Event>, k: nat, id: nat, g: Gen, m: Call)
    requires Run(o, ws, es) && k <= |es| && id !in ws[k].ops
    ensures ws[k].current in ws[k].sessions
    ensures Enabled(o, ws[k], Admit(id, g, m)) <==>
      g == ws[k].current && |ws[k].ops| <= o.capacity && Needs(ws[k].sessions[g], m)
  {
    Timed(o, ws, es, k);
    NeedsAreAdmission(ws[k].sessions[ws[k].current], m);
  }

  lemma NeedsAreAdmission(s: Session, m: Call)
    ensures Admissible(s, m) <==> Needs(s, m)
  {
  }

  /** A blocked session turns authenticated calls away, and logins and registrations too
      if the block is a lasting one. */
  predicate TurnsAway(blocked: Option<Kind>, m: Call) {
    && blocked.Some?
    && (m == Query(false) || (m in {PreLogin, Login, Register} && blocked.value in {Version, DeviceConflict}))
  }

  lemma TakeStep(o: Options, w: World, id: nat)
    requires Chain(w) && Enabled(o, w, TakeSlot(id))
    ensures w.current in w.sessions && w.ops[id].gen == w.current
    ensures var w', away := Moved(o, w, TakeSlot(id)), TurnsAway(w.sessions[w.current].blocked, w.ops[id].call);
            && (away <==> id !in w'.ops)
            && (!away ==> w'.slot == Some(id) && w'.ops == w.ops[id := w.ops[id].(stage := Slotted)])
            && (away ==> w'.slot.None? && w'.ops == w.ops - {id})
  {
  }

  /** At the head of the queue a call is turned away or gets the slot, according to the
      block of its session at that moment. */
  lemma SlotIsTaken(o: Options, ws: seq<World>, es: seq<Event>, k: nat)
    requires Run(o, ws, es) && k < |es| && es[k].TakeSlot?
    ensures var w, w', id := ws[k], ws[k + 1], es[k].id;
            && id in w.ops && w.current in w.sessions && w.ops[id].gen == w.current
            && var away := TurnsAway(w.sessions[w.current].blocked, w.ops[id].call);
               && (away <==> id !in w'.ops)
               && (!away ==> w'.slot == Some(id) && w'.ops == w.ops[id := w.ops[id].(stage := Slotted)])
               && (away ==> w'.slot.None? && w'.ops == w.ops - {id})
  {
    Always(o, ws, es, k);
    Link(o, ws, es, k);
    TakeStep(o, ws[k], es[k].id);
  }

  lemma StartsInTime(o: Options, w: World, id: nat)
    requires Chain(w) && Paced(o, w) && w.starts != []
    requires w.slot == Some(id) && id in w.ops && w.ops[id].stage.Slotted? && w.ops[id].gen == w.current
    ensures Enabled(o, w, Start(id)) <==> w.starts[|w.starts| - 1].time + o.interval <= w.now
  {
  }

  lemma Timed(o: Options, ws: seq<World>, es: seq<Event>, k: nat)
    requires Run(o, ws, es) && k <= |es|
    ensures Chain(ws[k]) && Paced(o, ws[k])
  {
    Always(o, ws, es, k);
  }

  /** The next call may leave exactly one interval after the last one did. */
  lemma NextDeparture(o: Options, ws: seq<World>, es: seq<Event>, k: nat, id: nat)
    requires Run(o, ws, es) && k <= |es| && ws[k].starts != [] && ws[k].slot == Some(id)
    requires id in ws[k].ops && ws[k].ops[id].stage.Slotted? && ws[k].ops[id].gen == ws[k].current
    ensures Enabled(o, ws[k], Start(id)) <==> ws[k].starts[|ws[k].starts| - 1].time + o.interval <= ws[k].now
  {
    Timed(o, ws, es, k);
    StartsInTime(o, ws[k], id);
  }
}
