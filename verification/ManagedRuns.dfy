/** Runs of the recovery machine: the three session writers (worker, version poller,
    reload), the authenticated queries and the clock, interleaved freely. A step is
    one segment between two suspension points; everything that the environment
    decides (answers, errors, times) is carried by the event. */
module ManagedRuns {
  import opened Basics
  import opened Errors
  import opened Managed

  /** How far the worker got: nothing installed, a login not yet saved, or a session
      that is on disk (a saved login, or saved credentials loaded from there). */
  datatype Progress = Nothing | LoggedIn(session: Gen) | OnDisk(session: Gen)

  datatype Worker = Worker(launch: Launch, progress: Progress)

  /** A running version check: the generation it started from, whether the client
      version was refused, and what it installed (`followed`: by a newer client version). */
  datatype Sync = Sync(gen: Gen, refused: bool, installed: Option<bool>)

  datatype World = World(
    s: State,
    current: Gen,              // the client's current generation
    next: Gen,                 // generations below were issued
    now: nat,
    worker: Option<Worker>,
    sync: Option<Sync>,
    queries: map<nat, Gen>,    // authenticated queries past the gate, by their generation
    // history
    unsaved: set<Gen>,        // generations whose login was not (yet) persisted
    failed: nat,               // workers that ended with an error
    root: map<Gen, Gen>,       // first generation of the chain of version updates
    starts: multiset<Gen>,     // recovery starts by chain
    refusals: multiset<Gen>,   // workers refused for the client version, by chain
    rearms: multiset<Gen>,     // granted budgets by chain
    times: seq<nat>,           // recovery starts since the last reload
    loads: seq<Option<(Gen, Option<Revision>)>>,  // lazy loads by chain; None where budgets were reset
    spent: set<Gen>,           // chains that started a recovery since they were last granted one
    owed: Option<Gen>)         // the chain of the last worker, if it was refused for the client version

  datatype Config = Config(cooldown: nat, recovery: bool)

  datatype Event =
    | Enter(query: nat, gen: Gen)                       // `execute` passes the gate
    | Transmit(query: nat)                              // ... and reaches the transport
    | Leave(query: nat)
    | Observe(gen: Gen, anonymous: bool, seen: Option<Kind>, stopped: bool, loader: Option<Option<Revision>>)
    | WorkerLogin | WorkerPersist | WorkerLoad
    | WorkerEnd(outcome: Option<ClientError>)
    | Reload(replaced: Result<(), Kind>)
    | SyncBegin | SyncRefresh | SyncRefused | SyncAdopt
    | SyncEnd(clear: bool)
    | Tick

  function EnvOf(c: Config, w: World, e: Event): Env
    requires e.Observe?
  {
    Env(w.current, e.stopped, w.now, c.cooldown, c.recovery, e.loader)
  }

  /** Which events can happen. Sessions are compare-and-swapped over the generation
      that the writer started from; a cancelled session stops its queries before the
      transport; a worker succeeds only with its session on disk. */
  predicate Enabled(c: Config, w: World, e: Event) {
    match e
    case Enter(q, g) => q !in w.queries && g < w.next && !Closed(w.s.phase)
    case Transmit(q) => q in w.queries && w.queries[q] == w.current
    case Leave(q) => q in w.queries
    case Observe(g, _, _, _, _) => g < w.next
    case WorkerLogin => w.worker.Some? && w.worker.value.progress.Nothing? && w.current == w.worker.value.launch.gen
    case WorkerPersist => w.worker.Some? && w.worker.value.progress.LoggedIn?
    case WorkerLoad => w.worker.Some? && w.worker.value.progress.Nothing? && w.current == w.worker.value.launch.gen
    case WorkerEnd(result) => w.worker.Some? && (result.None? ==> w.worker.value.progress.OnDisk?)
    case Reload(_) => true
    case SyncBegin => MaySync(w.s)
    case SyncRefresh =>
      w.sync.Some? && w.sync.value.installed.None? && !w.sync.value.refused && w.current == w.sync.value.gen
    case SyncRefused => w.sync.Some? && w.sync.value.installed.None?
    case SyncAdopt =>
      w.sync.Some? && w.sync.value.installed.None? && w.sync.value.refused && w.current == w.sync.value.gen
    case SyncEnd(_) => w.sync.Some?
    case Tick => true
  }

  /** A new generation that starts its own chain. */
  function Install(w: World): World {
    w.(current := w.next, next := w.next + 1, root := w.root[w.next := w.next])
  }

  /** A version update keeps the chain and inherits an unsaved login. */
  function Update(w: World): World {
    w.(current := w.next, next := w.next + 1,
       root := w.root[w.next := if w.current in w.root then w.root[w.current] else w.next],
       unsaved := if w.current in w.unsaved then w.unsaved + {w.next} else w.unsaved)
  }

  function Root(w: World, g: Gen): Gen {
    if g in w.root then w.root[g] else g
  }

  /** The worker ends refused for the client version, before it replaced the session. */
  predicate RefusedEnd(w: World, outcome: Option<ClientError>) {
    && w.worker.Some? && w.worker.value.progress.Nothing?
    && outcome.Some? && ClientUpdateRequired(outcome.value)
  }

  /** The check ends having followed a client update, after a worker refused for it. */
  predicate Grants(w: World) {
    w.sync.Some? && w.sync.value.installed == Some(true) && w.owed == Some(Root(w, w.current))
  }

  function Step(c: Config, w: World, e: Event): World
    requires Enabled(c, w, e)
  {
    match e
    case Enter(q, g) => w.(queries := w.queries[q := g])
    case Transmit(q) => w
    case Leave(q) => w.(queries := w.queries - {q})
    case Observe(g, anonymous, result, _, _) =>
      var (s, launch) := Observed(w.s, g, anonymous, result, EnvOf(c, w, e));
      if launch.None? then w.(s := s)
      else
        var w' := w.(s := s, worker := Some(Worker(launch.value, Nothing)), owed := None);
        if launch.value.initial then w'.(loads := w.loads + [Some((Root(w, g), e.loader.value))])
        else w'.(starts := w.starts + multiset{Root(w, g)}, times := w.times + [w.now],
                 spent := w.spent + {Root(w, g)})
    case WorkerLogin =>
      var i := Install(w);
      i.(worker := Some(w.worker.value.(progress := LoggedIn(w.next))), unsaved := w.unsaved + {w.next})
    case WorkerPersist =>
      var g := w.worker.value.progress.session;
      w.(worker := Some(w.worker.value.(progress := OnDisk(g))), unsaved := w.unsaved - {g})
    case WorkerLoad =>
      Install(w).(worker := Some(w.worker.value.(progress := OnDisk(w.next))))
    case WorkerEnd(result) =>
      var l := w.worker.value.launch;
      var w' := w.(s := Finished(w.s, l, w.current, result), worker := None,
                   failed := w.failed + (if result.Some? then 1 else 0));
      if RefusedEnd(w, result) then
        w'.(refusals := w.refusals + multiset{Root(w, w.current)}, owed := Some(Root(w, w.current)))
      else w'
    case Reload(replaced) =>
      if Reloadable(w.s) && replaced.Ok? then
        Install(w).(s := Reloaded(w.s), times := [], loads := w.loads + [None])
      else w
    case SyncBegin => w.(s := w.s.(versionUpdating := true), sync := Some(Sync(w.current, false, None)))
    case SyncRefresh => Update(w).(sync := Some(w.sync.value.(installed := Some(false))))
    case SyncRefused => w.(sync := Some(w.sync.value.(refused := true)))
    case SyncAdopt => Update(w).(sync := Some(w.sync.value.(installed := Some(true))))
    case SyncEnd(clear) =>
      var y := w.sync.value;
      var followed := y.installed == Some(true);
      var w' := w.(s := Synced(w.s, y.gen, w.current, y.installed.Some?, followed, clear), sync := None);
      if Grants(w) then
        w'.(rearms := w.rearms + multiset{Root(w, w.current)}, loads := w.loads + [None],
            spent := w.spent - {Root(w, w.current)}, owed := None)
      else w'
    case Tick => w.(now := w.now + 1)
  }

  ghost predicate Initial(w: World) {
    && w.s == INITIAL_STATE && w.current < w.next && w.worker.None? && w.sync.None? && w.queries == map[]
    && w.unsaved == {} && w.failed == 0
    && (forall g: nat :: g < w.next <==> g in w.root) && (forall g :: g in w.root ==> w.root[g] == g)
    && w.starts == multiset{} && w.refusals == multiset{} && w.rearms == multiset{}
    && w.times == [] && w.loads == [] && w.spent == {} && w.owed.None?
  }

  /** The k-th event can happen and leads to the next state. */
  ghost predicate Linked(c: Config, ws: seq<World>, es: seq<Event>, k: nat)
    requires |ws| == |es| + 1 && k < |es|
  {
    Enabled(c, ws[k], es[k]) && ws[k + 1] == Step(c, ws[k], es[k])
  }

  /** A run: states and the events between them. */
  ghost predicate Run(c: Config, ws: seq<World>, es: seq<Event>) {
    && |ws| == |es| + 1 && Initial(ws[0])
    && forall k: nat :: k < |es| ==> Linked(c, ws, es, k)
  }

  // ----- one writer at a time -----

  /** What one observation may do to the books. */
  lemma Booked(s: State, g: Gen, anonymous: bool, seen: Option<Kind>, env: Env)
    ensures var (t, launch) := Observed(s, g, anonymous, seen, env);
      if launch.None? then
        && t.attempted == s.attempted && t.initialAttempted == s.initialAttempted
        && t.versionRejected == s.versionRejected && t.lastAttempt == s.lastAttempt
      else
        && launch.value.gen == g == env.current && !s.versionUpdating && t.versionRejected.None?
        && if launch.value.initial then
             && env.loader.Some? && s.initialAttempted != Some((g, env.loader.value))
             && t.initialAttempted == Some((g, env.loader.value))
             && t.attempted == s.attempted && t.lastAttempt == s.lastAttempt
           else
             && s.attempted != Some(g) && t.attempted == Some(g)
             && (s.lastAttempt.Some? ==> s.lastAttempt.value + env.cooldown <= env.now)
             && t.lastAttempt == Some(env.now) && t.initialAttempted == s.initialAttempted
  {
  }

  /** The writers exclude each other, and every worker is accounted for. */
  ghost predicate OneWriter(w: World) {
    && (w.s.phase.Recovering? <==> w.worker.Some?)
    && (w.s.versionUpdating <==> w.sync.Some?)
    && (w.sync.Some? ==> !Closed(w.s.phase))
    && w.s.attempts == w.s.successes + w.failed + (if w.worker.Some? then 1 else 0)
  }

  /** Generations are issued once, the writers agree with the client about the
      current one, and every issued generation has a chain. */
  ghost predicate Lineage(w: World) {
    && w.current < w.next
    && (forall g: nat :: g < w.next <==> g in w.root)
    && (forall g :: g in w.root ==> w.root[g] <= g)
    && (forall g :: g in w.unsaved ==> g < w.next)
    && (forall q :: q in w.queries ==> w.queries[q] < w.next)
    && (w.worker.Some? ==>
          var p := w.worker.value.progress;
          w.current == (if p.Nothing? then w.worker.value.launch.gen else p.session))
    && (w.worker.Some? ==> w.worker.value.launch.gen < w.next
                           && (!w.worker.value.progress.Nothing? ==> w.worker.value.launch.gen < w.current))
    && (w.sync.Some? ==> w.sync.value.gen < w.next)
    && (w.sync.Some? && w.sync.value.installed.None? ==> w.current == w.sync.value.gen)
    && (w.sync.Some? && w.sync.value.installed.Some? ==>
          && w.sync.value.gen < w.current
          && w.root[w.sync.value.gen] == w.root[w.current]
          && (w.sync.value.installed == Some(true) ==> w.sync.value.refused))
  }

  predicate Installs(e: Event) {
    e.WorkerLogin? || e.WorkerLoad? || e.Reload?
  }

  predicate Updates(e: Event) {
    e.SyncRefresh? || e.SyncAdopt?
  }

  lemma OneWriterObserve(c: Config, w: World, e: Event)
    requires OneWriter(w) && Enabled(c, w, e) && e.Observe?
    ensures OneWriter(Step(c, w, e))
  {
  }

  lemma OneWriterEnds(c: Config, w: World, e: Event)
    requires OneWriter(w) && Enabled(c, w, e) && (e.WorkerEnd? || e.Reload? || e.SyncBegin? || e.SyncEnd?)
    ensures OneWriter(Step(c, w, e))
  {
  }

  lemma OneWriterOther(c: Config, w: World, e: Event)
    requires OneWriter(w) && Enabled(c, w, e)
    requires !e.Observe? && !e.WorkerEnd? && !e.Reload? && !e.SyncBegin? && !e.SyncEnd?
    ensures OneWriter(Step(c, w, e))
  {
    var w' := Step(c, w, e);
    assert w'.s == w.s && w'.failed == w.failed && w'.worker.Some? == w.worker.Some? && w'.sync.Some? == w.sync.Some?;
  }

  lemma OneWriterStep(c: Config, w: World, e: Event)
    requires OneWriter(w) && Enabled(c, w, e)
    ensures OneWriter(Step(c, w, e))
  {
    if e.Observe? {
      OneWriterObserve(c, w, e);
    } else if e.WorkerEnd? || e.Reload? || e.SyncBegin? || e.SyncEnd? {
      OneWriterEnds(c, w, e);
    } else {
      OneWriterOther(c, w, e);
    }
  }

  lemma LineageInstalls(c: Config, w: World, e: Event)
    requires OneWriter(w) && Lineage(w) && Enabled(c, w, e) && Installs(e)
    ensures Lineage(Step(c, w, e))
  {
  }

  lemma LineageUpdates(c: Config, w: World, e: Event)
    requires OneWriter(w) && Lineage(w) && Enabled(c, w, e) && Updates(e)
    ensures Lineage(Step(c, w, e))
  {
  }

  lemma LineageObserve(c: Config, w: World, e: Event)
    requires OneWriter(w) && Lineage(w) && Enabled(c, w, e) && e.Observe?
    ensures Lineage(Step(c, w, e))
  {
    Booked(w.s, e.gen, e.anonymous, e.seen, EnvOf(c, w, e));
  }

  lemma LineageStep(c: Config, w: World, e: Event)
    requires OneWriter(w) && Lineage(w) && Enabled(c, w, e)
    ensures Lineage(Step(c, w, e))
  {
    if Installs(e) {
      LineageInstalls(c, w, e);
    } else if Updates(e) {
      LineageUpdates(c, w, e);
    } else if e.Observe? {
      LineageObserve(c, w, e);
    } else {
      var w' := Step(c, w, e);
      assert w'.current == w.current && w'.next == w.next && w'.root == w.root;
    }
  }

  // ----- unsaved logins are unusable -----

  /** The current session is unsaved only while the gate is closed, and no admitted
      query holds an unsaved session that is still current. */
  ghost predicate Guarded(w: World) {
    && (w.current in w.unsaved ==> Closed(w.s.phase))
    && (w.worker.Some? ==> (w.current in w.unsaved <==> w.worker.value.progress.LoggedIn?))
    && (forall q :: q in w.queries && w.queries[q] == w.current ==> w.current !in w.unsaved)
  }

  lemma GuardedStep(c: Config, w: World, e: Event)
    requires OneWriter(w) && Lineage(w) && Guarded(w) && Enabled(c, w, e)
    ensures Guarded(Step(c, w, e))
  {
  }

  // ----- recovery budgets -----

  /** A mark on the current generation, or on the one that a running check has just
      replaced: it moves to the current one when the check ends. */
  predicate Marks(w: World, mark: Option<Gen>) {
    && mark.Some?
    && (mark.value == w.current || (w.sync.Some? && w.sync.value.installed.Some? && mark.value == w.sync.value.gen))
  }

  /** The marks of the current chain tell what happened on it: `attempted` that it used
      its recovery, `versionRejected` that its last worker was refused for the client
      version. */
  ghost predicate Marked(w: World) {
    && (w.s.attempted.Some? ==> w.s.attempted.value < w.next)
    && (w.s.versionRejected.Some? ==> w.s.versionRejected.value < w.next)
    && (forall r :: r in w.spent ==> r < w.next)
    && (w.owed.Some? ==> w.owed.value < w.next)
    && (Marks(w, w.s.attempted) <==> Root(w, w.current) in w.spent)
    && (Marks(w, w.s.versionRejected) <==> w.owed == Some(Root(w, w.current)))
    && (w.sync.Some? && w.sync.value.installed.Some? ==>
          w.s.attempted != Some(w.current) && w.s.versionRejected != Some(w.current))
    && (w.worker.Some? ==> w.owed.None? && w.s.versionRejected.None?)
  }

  /** Per chain, each start is the first one or paid for by a granted budget, and each
      grant by a refused worker. */
  ghost predicate Budget(w: World) {
    && (forall r :: w.starts[r] <= w.rearms[r] + (if r in w.spent then 1 else 0))
    && (forall r :: w.rearms[r] + (if w.owed == Some(r) then 1 else 0) <= w.refusals[r])
    && (forall r :: r in w.spent ==> w.starts[r] > 0)
  }

  /** The chains and their marks are those of another world. */
  predicate SameMarks(w: World, w': World) {
    && w'.next == w.next && w'.current == w.current && w'.root == w.root
    && w'.spent == w.spent && w'.owed == w.owed
    && w'.s.attempted == w.s.attempted && w'.s.versionRejected == w.s.versionRejected
    && (w'.worker.Some? ==> w.worker.Some?)
    && (w'.sync == w.sync
        || ((w.sync.Some? ==> w.sync.value.installed.None?) && (w'.sync.Some? ==> w'.sync.value.installed.None?)))
  }

  lemma MarkedSame(w: World, w': World)
    requires Marked(w) && SameMarks(w, w')
    ensures Marked(w')
  {
  }

  lemma MarkedLaunch(w: World, w': World, initial: bool)
    requires Lineage(w) && Marked(w) && w.sync == w'.sync == None
    requires w'.next == w.next && w'.current == w.current && w'.root == w.root
    requires w'.s.versionRejected.None? && w'.owed.None?
    requires w'.s.attempted == if initial then w.s.attempted else Some(w.current)
    requires w'.spent == if initial then w.spent else w.spent + {Root(w, w.current)}
    ensures Marked(w')
  {
  }

  lemma MarkedObserve(c: Config, w: World, e: Event)
    requires OneWriter(w) && Lineage(w) && Marked(w) && Enabled(c, w, e) && e.Observe?
    ensures Marked(Step(c, w, e))
  {
    var launch := Observed(w.s, e.gen, e.anonymous, e.seen, EnvOf(c, w, e)).1;
    Booked(w.s, e.gen, e.anonymous, e.seen, EnvOf(c, w, e));
    if launch.Some? {
      MarkedLaunch(w, Step(c, w, e), launch.value.initial);
    } else {
      MarkedSame(w, Step(c, w, e));
    }
  }

  lemma MarkedEnd(c: Config, w: World, e: Event)
    requires OneWriter(w) && Lineage(w) && Marked(w) && Enabled(c, w, e) && e.WorkerEnd?
    ensures Marked(Step(c, w, e))
  {
    if !RefusedEnd(w, e.outcome) {
      MarkedSame(w, Step(c, w, e));
    }
  }

  lemma MarkedGranted(c: Config, w: World, e: Event)
    requires OneWriter(w) && Lineage(w) && Marked(w) && Enabled(c, w, e) && e.SyncEnd? && Grants(w)
    ensures Marked(Step(c, w, e))
  {
    assert Rearms(w.s, w.sync.value.gen, true);
  }

  lemma MarkedCarried(c: Config, w: World, e: Event)
    requires OneWriter(w) && Lineage(w) && Marked(w) && Enabled(c, w, e) && e.SyncEnd? && !Grants(w)
    requires w.sync.value.installed.Some?
    ensures Marked(Step(c, w, e))
  {
    assert !Rearms(w.s, w.sync.value.gen, w.sync.value.installed == Some(true));
  }

  lemma MarkedUpdate(c: Config, w: World, e: Event)
    requires OneWriter(w) && Lineage(w) && Marked(w) && Enabled(c, w, e) && Updates(e)
    ensures Marked(Step(c, w, e))
  {
    assert Root(Step(c, w, e), w.next) == Root(w, w.current);
  }

  lemma MarkedInstall(c: Config, w: World, e: Event)
    requires OneWriter(w) && Lineage(w) && Marked(w) && Enabled(c, w, e) && Installs(e)
    ensures Marked(Step(c, w, e))
  {
  }

  lemma MarkedStep(c: Config, w: World, e: Event)
    requires OneWriter(w) && Lineage(w) && Marked(w) && Enabled(c, w, e)
    ensures Marked(Step(c, w, e))
  {
    match e
    case Observe(_, _, _, _, _) => MarkedObserve(c, w, e);
    case WorkerEnd(_) => MarkedEnd(c, w, e);
    case SyncEnd(_) =>
      if w.sync.value.installed.None? {
        MarkedSame(w, Step(c, w, e));
      } else if Grants(w) {
        MarkedGranted(c, w, e);
      } else {
        MarkedCarried(c, w, e);
      }
    case SyncRefresh => MarkedUpdate(c, w, e);
    case SyncAdopt => MarkedUpdate(c, w, e);
    case Reload(_) => MarkedInstall(c, w, e);
    case WorkerLogin => MarkedInstall(c, w, e);
    case WorkerLoad => MarkedInstall(c, w, e);
    case _ => MarkedSame(w, Step(c, w, e));
  }

  lemma BudgetStarted(w: World, w': World, r: Gen)
    requires Budget(w) && r !in w.spent && w'.spent == w.spent + {r} && w'.owed.None?
    requires w'.starts == w.starts + multiset{r} && w'.rearms == w.rearms && w'.refusals == w.refusals
    ensures Budget(w')
  {
  }

  lemma BudgetSame(w: World, w': World)
    requires Budget(w) && w'.spent == w.spent && (w'.owed == w.owed || w'.owed.None?)
    requires w'.starts == w.starts && w'.rearms == w.rearms && w'.refusals == w.refusals
    ensures Budget(w')
  {
  }

  lemma BudgetRefused(w: World, w': World, r: Gen)
    requires Budget(w) && w'.spent == w.spent && w'.owed == Some(r)
    requires w'.starts == w.starts && w'.rearms == w.rearms && w'.refusals == w.refusals + multiset{r}
    requires w.owed.None?
    ensures Budget(w')
  {
  }

  lemma BudgetGranted(w: World, w': World, r: Gen)
    requires Budget(w) && w'.spent == w.spent - {r} && w.owed == Some(r) && w'.owed.None?
    requires w'.starts == w.starts && w'.rearms == w.rearms + multiset{r} && w'.refusals == w.refusals
    ensures Budget(w')
  {
  }

  lemma BudgetObserve(c: Config, w: World, e: Event)
    requires OneWriter(w) && Lineage(w) && Marked(w) && Budget(w) && Enabled(c, w, e) && e.Observe?
    ensures Budget(Step(c, w, e))
  {
    var launch := Observed(w.s, e.gen, e.anonymous, e.seen, EnvOf(c, w, e)).1;
    Booked(w.s, e.gen, e.anonymous, e.seen, EnvOf(c, w, e));
    if launch.Some? && !launch.value.initial {
      BudgetStarted(w, Step(c, w, e), Root(w, w.current));
    } else {
      BudgetSame(w, Step(c, w, e));
    }
  }

  lemma BudgetEnd(c: Config, w: World, e: Event)
    requires Marked(w) && Budget(w) && Enabled(c, w, e) && (e.WorkerEnd? || e.SyncEnd?)
    ensures Budget(Step(c, w, e))
  {
    if e.WorkerEnd? && RefusedEnd(w, e.outcome) {
      BudgetRefused(w, Step(c, w, e), Root(w, w.current));
    } else if e.SyncEnd? && Grants(w) {
      BudgetGranted(w, Step(c, w, e), Root(w, w.current));
    } else {
      BudgetSame(w, Step(c, w, e));
    }
  }

  lemma BudgetOther(c: Config, w: World, e: Event)
    requires Budget(w) && Enabled(c, w, e) && !e.Observe? && !e.WorkerEnd? && !e.SyncEnd?
    ensures Budget(Step(c, w, e))
  {
    BudgetSame(w, Step(c, w, e));
  }

  lemma BudgetStep(c: Config, w: World, e: Event)
    requires OneWriter(w) && Lineage(w) && Marked(w) && Budget(w) && Enabled(c, w, e)
    ensures Budget(Step(c, w, e))
  {
    if e.Observe? {
      BudgetObserve(c, w, e);
    } else if e.WorkerEnd? || e.SyncEnd? {
      BudgetEnd(c, w, e);
    } else {
      BudgetOther(c, w, e);
    }
  }

  ghost predicate SpacedTimes(cooldown: nat, times: seq<nat>, now: nat, last: Option<nat>) {
    && (last == if times == [] then None else Some(times[|times| - 1]))
    && (forall k :: 0 <= k < |times| ==> times[k] <= now)
    && (forall i, j :: 0 <= i < j < |times| ==> times[i] + cooldown <= times[j])
  }

  /** Recovery starts since the last reload are a cooldown apart. */
  ghost predicate Spaced(c: Config, w: World) {
    SpacedTimes(c.cooldown, w.times, w.now, w.s.lastAttempt)
  }

  lemma SpacedStart(cooldown: nat, times: seq<nat>, now: nat, last: Option<nat>)
    requires SpacedTimes(cooldown, times, now, last) && (last.Some? ==> last.value + cooldown <= now)
    ensures SpacedTimes(cooldown, times + [now], now, Some(now))
  {
    forall i | 0 <= i < |times| ensures times[i] + cooldown <= now {
      assert i < |times| - 1 ==> times[i] + cooldown <= times[|times| - 1];
    }
  }

  lemma SpacedObserve(c: Config, w: World, e: Event)
    requires Spaced(c, w) && Enabled(c, w, e) && e.Observe?
    ensures Spaced(c, Step(c, w, e))
  {
    Booked(w.s, e.gen, e.anonymous, e.seen, EnvOf(c, w, e));
    var launch := Observed(w.s, e.gen, e.anonymous, e.seen, EnvOf(c, w, e)).1;
    if launch.Some? && !launch.value.initial {
      SpacedStart(c.cooldown, w.times, w.now, w.s.lastAttempt);
    }
  }

  /** What else happens to the books of recovery starts. */
  lemma OtherTimes(c: Config, w: World, e: Event)
    requires Enabled(c, w, e) && !e.Observe?
    ensures var v := Step(c, w, e);
            || (v.times == w.times && v.s.lastAttempt == w.s.lastAttempt && w.now <= v.now)
            || (v.times == [] && v.s.lastAttempt.None?)
  {
  }

  lemma SpacedStep(c: Config, w: World, e: Event)
    requires Spaced(c, w) && Enabled(c, w, e)
    ensures Spaced(c, Step(c, w, e))
  {
    if e.Observe? {
      SpacedObserve(c, w, e);
    } else {
      OtherTimes(c, w, e);
    }
  }

  /** Two lazy loads in a row on one chain, with no budget granted in between, were
      asked for by different inputs. */
  ghost predicate FreshLoads(loads: seq<Option<(Gen, Option<Revision>)>>, next: Gen) {
    && (forall k :: 0 <= k < |loads| && loads[k].Some? ==> loads[k].value.0 < next)
    && (forall k :: 0 < k < |loads| && loads[k].Some? ==> loads[k] != loads[k - 1])
  }

  /** The last load was on the current chain. */
  predicate LoadedHere(w: World) {
    w.loads != [] && w.loads[|w.loads| - 1].Some? && w.loads[|w.loads| - 1].value.0 == Root(w, w.current)
  }

  /** The last load is marked exactly if it was on the current chain. */
  ghost predicate LastLoad(w: World) {
    && (LoadedHere(w) <==> w.s.initialAttempted.Some? && Marks(w, Some(w.s.initialAttempted.value.0)))
    && (LoadedHere(w) ==> w.s.initialAttempted.value.1 == w.loads[|w.loads| - 1].value.1)
    && (w.sync.Some? && w.sync.value.installed.Some? && w.s.initialAttempted.Some? ==>
          w.s.initialAttempted.value.0 != w.current)
  }

  ghost predicate FreshInputs(w: World) {
    && (w.s.initialAttempted.Some? ==> w.s.initialAttempted.value.0 < w.next)
    && FreshLoads(w.loads, w.next)
    && LastLoad(w)
  }

  lemma FreshLoadsNext(loads: seq<Option<(Gen, Option<Revision>)>>, next: Gen, load: Option<(Gen, Option<Revision>)>)
    requires FreshLoads(loads, next)
    requires load.Some? ==> load.value.0 < next && (loads != [] ==> load != loads[|loads| - 1])
    ensures FreshLoads(loads + [load], next)
  {
  }

  lemma LoadIsFresh(c: Config, w: World, e: Event)
    requires OneWriter(w) && Lineage(w) && FreshInputs(w) && Enabled(c, w, e) && e.Observe?
    requires e.loader.Some? && e.gen == w.current && !w.s.versionUpdating
    requires w.s.initialAttempted != Some((e.gen, e.loader.value))
    ensures FreshLoads(w.loads + [Some((Root(w, e.gen), e.loader.value))], w.next)
  {
    FreshLoadsNext(w.loads, w.next, Some((Root(w, e.gen), e.loader.value)));
  }

  lemma FreshInputsObserve(c: Config, w: World, e: Event)
    requires OneWriter(w) && Lineage(w) && FreshInputs(w) && Enabled(c, w, e) && e.Observe?
    ensures FreshInputs(Step(c, w, e))
  {
    Booked(w.s, e.gen, e.anonymous, e.seen, EnvOf(c, w, e));
    var launch := Observed(w.s, e.gen, e.anonymous, e.seen, EnvOf(c, w, e)).1;
    if launch.Some? && launch.value.initial {
      LoadIsFresh(c, w, e);
    }
  }

  lemma FreshInputsUpdate(c: Config, w: World, e: Event)
    requires OneWriter(w) && Lineage(w) && FreshInputs(w) && Enabled(c, w, e) && Updates(e)
    ensures FreshInputs(Step(c, w, e))
  {
    assert Root(Step(c, w, e), w.next) == Root(w, w.current);
  }

  lemma FreshInputsGranted(c: Config, w: World, e: Event)
    requires OneWriter(w) && Lineage(w) && Marked(w) && FreshInputs(w) && Enabled(c, w, e) && e.SyncEnd? && Grants(w)
    ensures FreshInputs(Step(c, w, e))
  {
    assert Rearms(w.s, w.sync.value.gen, true);
    FreshLoadsNext(w.loads, w.next, None);
  }

  lemma FreshInputsCarried(c: Config, w: World, e: Event)
    requires OneWriter(w) && Lineage(w) && Marked(w) && FreshInputs(w) && Enabled(c, w, e) && e.SyncEnd? && !Grants(w)
    ensures FreshInputs(Step(c, w, e))
  {
    assert w.sync.value.installed.Some? ==>
      !Rearms(w.s, w.sync.value.gen, w.sync.value.installed == Some(true));
    assert Step(c, w, e).loads == w.loads;
  }

  lemma FreshInputsSame(w: World, w': World)
    requires FreshInputs(w) && w'.loads == w.loads && w'.s.initialAttempted == w.s.initialAttempted
    requires w'.next == w.next && w'.current == w.current && w'.root == w.root
    requires w'.sync == w.sync
      || ((w.sync.Some? ==> w.sync.value.installed.None?) && (w'.sync.Some? ==> w'.sync.value.installed.None?))
    ensures FreshInputs(w')
  {
  }

  lemma FreshInputsInstall(c: Config, w: World, e: Event)
    requires OneWriter(w) && Lineage(w) && FreshInputs(w) && Enabled(c, w, e) && Installs(e)
    ensures FreshInputs(Step(c, w, e))
  {
  }

  lemma FreshInputsOther(c: Config, w: World, e: Event)
    requires OneWriter(w) && Lineage(w) && FreshInputs(w) && Enabled(c, w, e)
    requires !e.Observe? && !Updates(e) && !e.SyncEnd? && !Installs(e)
    ensures FreshInputs(Step(c, w, e))
  {
    FreshInputsSame(w, Step(c, w, e));
  }

  lemma FreshInputsStep(c: Config, w: World, e: Event)
    requires OneWriter(w) && Lineage(w) && Marked(w) && FreshInputs(w) && Enabled(c, w, e)
    ensures FreshInputs(Step(c, w, e))
  {
    match e
    case Observe(_, _, _, _, _) => FreshInputsObserve(c, w, e);
    case SyncRefresh => FreshInputsUpdate(c, w, e);
    case SyncAdopt => FreshInputsUpdate(c, w, e);
    case SyncEnd(_) =>
      if Grants(w) {
        FreshInputsGranted(c, w, e);
      } else {
        FreshInputsCarried(c, w, e);
      }
    case WorkerLogin => FreshInputsInstall(c, w, e);
    case WorkerLoad => FreshInputsInstall(c, w, e);
    case Reload(_) => FreshInputsInstall(c, w, e);
    case _ => FreshInputsOther(c, w, e);
  }

  // ----- every run -----

  ghost predicate Inv(c: Config, w: World) {
    OneWriter(w) && Lineage(w) && Guarded(w) && Marked(w) && Budget(w) && Spaced(c, w) && FreshInputs(w)
  }

  lemma InvInitial(c: Config, w: World)
    requires Initial(w)
    ensures Inv(c, w)
  {
  }

  lemma InvStep(c: Config, w: World, e: Event)
    requires Inv(c, w) && Enabled(c, w, e)
    ensures Inv(c, Step(c, w, e))
  {
    OneWriterStep(c, w, e);
    LineageStep(c, w, e);
    GuardedStep(c, w, e);
    MarkedStep(c, w, e);
    BudgetStep(c, w, e);
    SpacedStep(c, w, e);
    FreshInputsStep(c, w, e);
  }

  lemma {:induction false} Always(c: Config, ws: seq<World>, es: seq<Event>, k: nat)
    requires Run(c, ws, es) && k <= |es|
    ensures Inv(c, ws[k])
  {
    if k == 0 {
      InvInitial(c, ws[0]);
    } else {
      Always(c, ws, es, k - 1);
      assert Linked(c, ws, es, k - 1);
      InvStep(c, ws[k - 1], es[k - 1]);
    }
  }

  /** Worker, version check and reload never overlap, and the counters agree. */
  lemma WritersNeverOverlap(c: Config, ws: seq<World>, es: seq<Event>, k: nat)
    requires Run(c, ws, es) && k <= |es|
    ensures OneWriter(ws[k])
    ensures k < |es| && es[k].Reload? && ws[k + 1] != ws[k] ==> ws[k].worker.None? && ws[k].sync.None?
    ensures ws[k].worker.Some? && ws[k].worker.value.progress.Nothing? ==>
              ws[k].current == ws[k].worker.value.launch.gen
  {
    Always(c, ws, es, k);
    if k < |es| && es[k].Reload? {
      assert Linked(c, ws, es, k);
    }
  }

  lemma Link(c: Config, ws: seq<World>, es: seq<Event>, k: nat)
    requires Run(c, ws, es) && k < |es|
    ensures Enabled(c, ws[k], es[k]) && ws[k + 1] == Step(c, ws[k], es[k])
  {
    assert Linked(c, ws, es, k);
  }

  lemma NextState(c: Config, ws: seq<World>, es: seq<Event>, k: nat)
    requires Run(c, ws, es) && k < |es|
    ensures Inv(c, ws[k]) && Enabled(c, ws[k], es[k]) && ws[k + 1] == Step(c, ws[k], es[k])
  {
    Always(c, ws, es, k);
    assert Linked(c, ws, es, k);
  }

  /** The gate reopens only when a worker ends with its session on disk or without
      having replaced the session, or when a reload installs yet another session. */
  predicate Reopens(w: World, e: Event, w': World) {
    || (e.WorkerEnd? && w.worker.Some? && !w.worker.value.progress.LoggedIn?
        && w'.current == w.current && w.current !in w.unsaved)
    || (e.Reload? && w.s.phase.PersistenceFailed? && w'.current == w.next)
  }

  lemma GateStep(c: Config, w: World, e: Event)
    requires OneWriter(w) && Lineage(w) && Guarded(w) && Enabled(c, w, e)
    requires Closed(w.s.phase) && !Closed(Step(c, w, e).s.phase)
    ensures Reopens(w, e, Step(c, w, e))
  {
  }

  lemma GateReopens(c: Config, ws: seq<World>, es: seq<Event>, k: nat)
    requires Run(c, ws, es) && k < |es|
    requires Closed(ws[k].s.phase) && !Closed(ws[k + 1].s.phase)
    ensures Reopens(ws[k], es[k], ws[k + 1])
  {
    NextState(c, ws, es, k);
    GateStep(c, ws[k], es[k]);
  }

  /** The event persists the login that installed g. */
  predicate Persists(w: World, e: Event, g: Gen) {
    e == WorkerPersist && w.worker.Some? && w.worker.value.progress == LoggedIn(g)
  }

  lemma PersistSettles(c: Config, w: World, e: Event, g: Gen)
    requires Enabled(c, w, e) && g in w.unsaved && g !in Step(c, w, e).unsaved
    ensures Persists(w, e, g)
  {
  }

  lemma LoginUnsaved(c: Config, w: World)
    requires Enabled(c, w, WorkerLogin)
    ensures w.next in Step(c, w, WorkerLogin).unsaved
  {
  }

  /** Between the login of g and a state where g is not unsaved, g was persisted. */
  lemma {:induction false} PersistedBetween(c: Config, ws: seq<World>, es: seq<Event>, i: nat, k: nat, g: Gen)
    returns (j: nat)
    requires Run(c, ws, es) && i < k <= |es| && es[i] == WorkerLogin && g == ws[i].next
    requires g !in ws[k].unsaved
    ensures i < j < k && Persists(ws[j], es[j], g)
  {
    Link(c, ws, es, i);
    LoginUnsaved(c, ws[i]);
    assert k != i + 1;
    j := k - 1;
    Link(c, ws, es, j);
    if g in ws[j].unsaved {
      PersistSettles(c, ws[j], es[j], g);
    } else {
      j := PersistedBetween(c, ws, es, i, j, g);
    }
  }

  /** An authenticated request reaches the transport on a session that a worker's
      login installed only after that login was persisted. */
  lemma NoTrafficBeforePersist(c: Config, ws: seq<World>, es: seq<Event>, i: nat, k: nat, q: nat)
    requires Run(c, ws, es) && i < k < |es| && es[i] == WorkerLogin
    requires es[k] == Transmit(q) && q in ws[k].queries && ws[k].queries[q] == ws[i].next
    ensures exists j :: i < j < k && Persists(ws[j], es[j], ws[i].next)
  {
    NextState(c, ws, es, k);
    var j := PersistedBetween(c, ws, es, i, k, ws[i].next);
  }

  /** At most one recovery per chain of version updates, plus one for each worker on
      that chain refused for its client version; all recoveries between reloads are
      a cooldown apart; a lazy load repeats only with changed input. */
  lemma RecoveryBudget(c: Config, ws: seq<World>, es: seq<Event>, k: nat)
    requires Run(c, ws, es) && k <= |es|
    ensures forall r :: ws[k].starts[r] <= 1 + ws[k].refusals[r]
    ensures forall i, j :: 0 <= i < j < |ws[k].times| ==> ws[k].times[i] + c.cooldown <= ws[k].times[j]
    ensures forall i :: 0 < i < |ws[k].loads| && ws[k].loads[i].Some? ==> ws[k].loads[i] != ws[k].loads[i - 1]
  {
    Always(c, ws, es, k);
  }

  // ----- what a query's outcome starts -----

  /** The outcome is that of an authenticated query of the current session, the gate is
      open and no other writer runs. */
  predicate Timely(w: World, e: Event) {
    && e.Observe? && !e.anonymous && !e.stopped && e.gen == w.current
    && w.worker.None? && w.sync.None? && !w.s.phase.PersistenceFailed?
  }

  /** A recovery of the current session is under way and in the books. */
  predicate RecoveryStarted(w: World, w': World) {
    && w'.worker == Some(Worker(Launch(w.current, false), Nothing))
    && w'.starts == w.starts + multiset{Root(w, w.current)} && w'.times == w.times + [w.now]
  }

  predicate LoadStarted(w: World, w': World, input: Option<Revision>) {
    && w'.worker == Some(Worker(Launch(w.current, true), Nothing))
    && w'.loads == w.loads + [Some((Root(w, w.current), input))]
  }

  /** An outcome starts a recovery exactly when the session has expired, its chain has
      not used its recovery since it was last granted one, and the last recovery since a
      reload is a cooldown ago. */
  lemma RecoveryStarts(c: Config, ws: seq<World>, es: seq<Event>, k: nat)
    requires Run(c, ws, es) && k < |es|
    ensures var w, w', e := ws[k], ws[k + 1], es[k];
            && (RecoveryStarted(w, w') <==>
                  && Timely(w, e) && e.seen == Some(Authentication) && c.recovery
                  && Root(w, w.current) !in w.spent
                  && (w.times != [] ==> w.times[|w.times| - 1] + c.cooldown <= w.now))
            && (e.Observe? && !RecoveryStarted(w, w') ==> w'.starts == w.starts && w'.times == w.times)
  {
    NextState(c, ws, es, k);
    if es[k].Observe? {
      RecoveryStep(c, ws[k], es[k]);
    } else {
      NoOtherStart(c, ws[k], es[k]);
    }
  }

  lemma RecoveryStep(c: Config, w: World, e: Event)
    requires OneWriter(w) && Lineage(w) && Marked(w) && Spaced(c, w) && Enabled(c, w, e) && e.Observe?
    ensures var w' := Step(c, w, e);
            && (RecoveryStarted(w, w') <==>
                  && Timely(w, e) && e.seen == Some(Authentication) && c.recovery
                  && Root(w, w.current) !in w.spent
                  && (w.times != [] ==> w.times[|w.times| - 1] + c.cooldown <= w.now))
            && (!RecoveryStarted(w, w') ==> w'.starts == w.starts && w'.times == w.times)
  {
    assert w.starts + multiset{Root(w, w.current)} != w.starts by {
      assert (w.starts + multiset{Root(w, w.current)})[Root(w, w.current)] != w.starts[Root(w, w.current)];
    }
  }

  lemma NoOtherStart(c: Config, w: World, e: Event)
    requires Enabled(c, w, e) && !e.Observe?
    ensures !RecoveryStarted(w, Step(c, w, e))
  {
    assert (w.starts + multiset{Root(w, w.current)})[Root(w, w.current)] != w.starts[Root(w, w.current)];
    assert Step(c, w, e).starts == w.starts;
  }

  /** The first expiry of a chain is recovered from. */
  lemma FirstExpiryRecovers(c: Config, ws: seq<World>, es: seq<Event>, k: nat)
    requires Run(c, ws, es) && k < |es| && c.recovery && Timely(ws[k], es[k]) && es[k].seen == Some(Authentication)
    requires ws[k].starts[Root(ws[k], ws[k].current)] == 0
    requires ws[k].times != [] ==> ws[k].times[|ws[k].times| - 1] + c.cooldown <= ws[k].now
    ensures ws[k + 1].worker.Some? && ws[k + 1].starts[Root(ws[k], ws[k].current)] == 1
  {
    Always(c, ws, es, k);
    RecoveryStarts(c, ws, es, k);
  }

  /** An outcome starts a lazy load exactly when credentials are missing and the account
      input is not the one that was loaded last, with no budget granted since, on this
      chain. */
  lemma LoadStarts(c: Config, ws: seq<World>, es: seq<Event>, k: nat)
    requires Run(c, ws, es) && k < |es| && es[k].Observe? && es[k].loader.Some?
    ensures var w, w', e, load := ws[k], ws[k + 1], es[k], Some((Root(ws[k], ws[k].current), es[k].loader.value));
            && (LoadStarted(w, w', e.loader.value) <==>
                  && Timely(w, e) && e.seen == Some(AuthenticationRequired)
                  && (w.loads == [] || w.loads[|w.loads| - 1] != load))
            && (!LoadStarted(w, w', e.loader.value) ==> w'.loads == w.loads)
  {
    NextState(c, ws, es, k);
    LoadStep(c, ws[k], es[k]);
  }

  lemma LoadStep(c: Config, w: World, e: Event)
    requires OneWriter(w) && Lineage(w) && FreshInputs(w) && Enabled(c, w, e) && e.Observe? && e.loader.Some?
    ensures var w', load := Step(c, w, e), Some((Root(w, w.current), e.loader.value));
            && (LoadStarted(w, w', e.loader.value) <==>
                  && Timely(w, e) && e.seen == Some(AuthenticationRequired)
                  && (w.loads == [] || w.loads[|w.loads| - 1] != load))
            && (!LoadStarted(w, w', e.loader.value) ==> w'.loads == w.loads)
  {
  }

  // ----- what the history says -----

  /** The event starts a recovery on chain r. */
  predicate Spends(w: World, w': World, r: Gen) {
    RecoveryStarted(w, w') && Root(w, w.current) == r
  }

  /** The event ends a check that grants chain r its budgets again. */
  predicate GrantsTo(w: World, e: Event, r: Gen) {
    e.SyncEnd? && Grants(w) && Root(w, w.current) == r
  }

  lemma SpentStep(c: Config, w: World, e: Event, r: Gen)
    requires OneWriter(w) && Lineage(w) && Marked(w) && Spaced(c, w) && Enabled(c, w, e)
    ensures r in Step(c, w, e).spent <==>
      Spends(w, Step(c, w, e), r) || (r in w.spent && !GrantsTo(w, e, r))
  {
    if e.Observe? {
      RecoveryStep(c, w, e);
      SpentObserve(c, w, e);
    } else {
      NoOtherStart(c, w, e);
    }
  }

  lemma SpentObserve(c: Config, w: World, e: Event)
    requires OneWriter(w) && Enabled(c, w, e) && e.Observe?
    ensures Step(c, w, e).spent == if RecoveryStarted(w, Step(c, w, e)) then w.spent + {Root(w, w.current)} else w.spent
  {
    assert (w.starts + multiset{Root(w, w.current)})[Root(w, w.current)] != w.starts[Root(w, w.current)];
  }

  lemma SpentNext(c: Config, ws: seq<World>, es: seq<Event>, k: nat, r: Gen)
    requires Run(c, ws, es) && k < |es|
    ensures r in ws[k + 1].spent <==> Spends(ws[k], ws[k + 1], r) || (r in ws[k].spent && !GrantsTo(ws[k], es[k], r))
  {
    NextState(c, ws, es, k);
    SpentStep(c, ws[k], es[k], r);
  }

  ghost function SpentAt(ws: seq<World>, r: Gen): nat -> bool {
    (k: nat) => k < |ws| && r in ws[k].spent
  }

  ghost function StartAt(ws: seq<World>, r: Gen): nat -> bool {
    (k: nat) => k + 1 < |ws| && Spends(ws[k], ws[k + 1], r)
  }

  ghost function GrantAt(ws: seq<World>, es: seq<Event>, r: Gen): nat -> bool {
    (k: nat) => k < |ws| && k < |es| && GrantsTo(ws[k], es[k], r)
  }

  lemma SpentLatches(c: Config, ws: seq<World>, es: seq<Event>, k: nat, r: Gen)
    requires Run(c, ws, es) && k < |es|
    ensures SpentAt(ws, r)(k + 1) <==> StartAt(ws, r)(k) || (SpentAt(ws, r)(k) && !GrantAt(ws, es, r)(k))
  {
    SpentNext(c, ws, es, k, r);
  }

  lemma NothingSpent(c: Config, ws: seq<World>, es: seq<Event>, r: Gen)
    requires Run(c, ws, es)
    ensures !SpentAt(ws, r)(0)
  {
  }

  /** A chain has used its recovery exactly if one was started on it and none was granted
      since. */
  lemma SpentExactly(c: Config, ws: seq<World>, es: seq<Event>, k: nat, r: Gen)
    requires Run(c, ws, es) && k <= |es|
    ensures SpentAt(ws, r)(k) <==> Since(StartAt(ws, r), GrantAt(ws, es, r), k)
  {
    NothingSpent(c, ws, es, r);
    var now, on, off := SpentAt(ws, r), StartAt(ws, r), GrantAt(ws, es, r);
    forall i: nat | i < k ensures now(i + 1) <==> on(i) || (now(i) && !off(i)) {
      SpentLatches(c, ws, es, i, r);
    }
    LatchedSince(now, on, off, k);
  }

  predicate RefusedOn(w: World, e: Event, r: Gen) {
    e.WorkerEnd? && RefusedEnd(w, e.outcome) && Root(w, w.current) == r
  }

  /** The event starts a worker, or grants chain r its budgets again. */
  predicate Clears(w: World, e: Event, w': World, r: Gen) {
    (w.worker.None? && w'.worker.Some?) || GrantsTo(w, e, r)
  }

  lemma OwedStep(c: Config, w: World, e: Event, r: Gen)
    requires OneWriter(w) && Lineage(w) && Marked(w) && Enabled(c, w, e)
    ensures Step(c, w, e).owed == Some(r) <==>
      RefusedOn(w, e, r) || (w.owed == Some(r) && !Clears(w, e, Step(c, w, e), r))
  {
    if e.Observe? {
      OwedObserve(c, w, e);
    } else {
      OwedOther(c, w, e);
    }
  }

  lemma OwedObserve(c: Config, w: World, e: Event)
    requires OneWriter(w) && Enabled(c, w, e) && e.Observe?
    ensures var w' := Step(c, w, e); w'.owed == if w.worker.None? && w'.worker.Some? then None else w.owed
  {
  }

  lemma OwedOther(c: Config, w: World, e: Event)
    requires Enabled(c, w, e) && !e.Observe?
    ensures Step(c, w, e).owed ==
      if e.WorkerEnd? && RefusedEnd(w, e.outcome) then Some(Root(w, w.current))
      else if e.SyncEnd? && Grants(w) then None else w.owed
    ensures Step(c, w, e).worker.Some? ==> w.worker.Some?
  {
  }

  ghost function OwedAt(ws: seq<World>, r: Gen): nat -> bool {
    (k: nat) => k < |ws| && ws[k].owed == Some(r)
  }

  ghost function RefusedAt(ws: seq<World>, es: seq<Event>, r: Gen): nat -> bool {
    (k: nat) => k < |ws| && k < |es| && RefusedOn(ws[k], es[k], r)
  }

  ghost function ClearedAt(ws: seq<World>, es: seq<Event>, r: Gen): nat -> bool {
    (k: nat) => k + 1 < |ws| && k < |es| && Clears(ws[k], es[k], ws[k + 1], r)
  }

  lemma OwedNext(c: Config, ws: seq<World>, es: seq<Event>, k: nat, r: Gen)
    requires Run(c, ws, es) && k < |es|
    ensures ws[k + 1].owed == Some(r) <==>
      RefusedOn(ws[k], es[k], r) || (ws[k].owed == Some(r) && !Clears(ws[k], es[k], ws[k + 1], r))
  {
    NextState(c, ws, es, k);
    OwedStep(c, ws[k], es[k], r);
  }

  lemma OwedLatches(c: Config, ws: seq<World>, es: seq<Event>, k: nat, r: Gen)
    requires Run(c, ws, es) && k < |es|
    ensures OwedAt(ws, r)(k + 1) <==> RefusedAt(ws, es, r)(k) || (OwedAt(ws, r)(k) && !ClearedAt(ws, es, r)(k))
  {
    OwedNext(c, ws, es, k, r);
  }

  lemma NothingOwed(c: Config, ws: seq<World>, es: seq<Event>, r: Gen)
    requires Run(c, ws, es)
    ensures !OwedAt(ws, r)(0)
  {
  }

  /** A chain is owed a grant exactly if a worker on it was refused for the client version
      and since then no worker was started and no check has granted it. */
  lemma OwedExactly(c: Config, ws: seq<World>, es: seq<Event>, k: nat, r: Gen)
    requires Run(c, ws, es) && k <= |es|
    ensures OwedAt(ws, r)(k) <==> Since(RefusedAt(ws, es, r), ClearedAt(ws, es, r), k)
  {
    NothingOwed(c, ws, es, r);
    var now, on, off := OwedAt(ws, r), RefusedAt(ws, es, r), ClearedAt(ws, es, r);
    forall i: nat | i < k ensures now(i + 1) <==> on(i) || (now(i) && !off(i)) {
      OwedLatches(c, ws, es, i, r);
    }
    LatchedSince(now, on, off, k);
  }

  /** A granting check lets the next expiry start a recovery and the next missing
      credential start a load. */
  lemma GrantedAnew(c: Config, ws: seq<World>, es: seq<Event>, k: nat)
    requires Run(c, ws, es) && k < |es| && es[k].SyncEnd? && Grants(ws[k])
    ensures var w' := ws[k + 1];
            Root(w', w'.current) !in w'.spent && !LoadedHere(w') && w'.sync.None? && !Closed(w'.s.phase)
  {
    NextState(c, ws, es, k);
    GrantsIsRearm(ws[k]);
  }

  // ----- what the status shows -----

  predicate Shown(seen: Option<Kind>, phase: Phase) {
    && (phase == Ready <==> seen.None?)
    && (phase == VersionBlocked <==> seen == Some(Version))
    && (phase == DeviceConflicted <==> seen == Some(DeviceConflict))
    && (phase == ReauthenticationRequired <==> seen == Some(Authentication) || seen == Some(AuthenticationRequired))
    && !phase.Recovered? && !Closed(phase)
  }

  /** The query asks for an account input that was loaded last on this chain. */
  predicate AsksAgain(w: World, e: Event)
    requires e.Observe?
  {
    && e.seen == Some(AuthenticationRequired) && e.loader.Some? && LoadedHere(w)
    && w.loads[|w.loads| - 1].value.1 == e.loader.value
    && (w.sync.Some? ==> w.sync.value.installed.None?)
  }

  lemma ShownStep(c: Config, w: World, e: Event)
    requires OneWriter(w) && Lineage(w) && FreshInputs(w) && Enabled(c, w, e) && e.Observe?
    requires Step(c, w, e).worker == w.worker
    ensures var s' := Step(c, w, e).s;
            && Step(c, w, e) == w.(s := s')
            && if !e.anonymous && !e.stopped && e.gen == w.current && !Closed(w.s.phase) && !AsksAgain(w, e) then
                 s' == w.s.(phase := s'.phase, lastError := e.seen) && Shown(e.seen, s'.phase)
               else s' == w.s
  {
  }

  /** Outcomes of anonymous queries, of other sessions and behind the closed gate change
      nothing, nor does a load asked for again with the same input. Any other one that
      starts no worker is shown by the status, and that is all it changes. */
  lemma OutcomeIsShown(c: Config, ws: seq<World>, es: seq<Event>, k: nat)
    requires Run(c, ws, es) && k < |es| && es[k].Observe? && ws[k + 1].worker == ws[k].worker
    ensures var w, s', e := ws[k], ws[k + 1].s, es[k];
            && ws[k + 1] == w.(s := s')
            && if !e.anonymous && !e.stopped && e.gen == w.current && !Closed(w.s.phase) && !AsksAgain(w, e) then
                 s' == w.s.(phase := s'.phase, lastError := e.seen) && Shown(e.seen, s'.phase)
               else s' == w.s
  {
    NextState(c, ws, es, k);
    ShownStep(c, ws[k], es[k]);
  }

  lemma FinishedShows(s: State, launch: Launch, current: Gen, o: Option<ClientError>)
    ensures var phase, moved := Finished(s, launch, current, o).phase, current != launch.gen;
            && (Closed(phase) <==> o.Some? && (moved || (o.value.kind == InvalidConfig && !launch.initial)))
            && (phase == Unverified <==> o.None? && launch.initial)
            && (phase == Recovered <==> o.None? && !launch.initial)
            && (phase == VersionBlocked <==> o.Some? && !moved && o.value.kind == Version)
            && (phase == DeviceConflicted <==> o.Some? && !moved && o.value.kind == DeviceConflict)
            && !phase.Ready? && !phase.Recovering?
            && Finished(s, launch, current, o).lastError == if o.None? then None else Some(o.value.kind)
  {
  }

  lemma EndShows(c: Config, w: World, o: Option<ClientError>)
    requires Lineage(w) && Enabled(c, w, WorkerEnd(o))
    ensures var w' := Step(c, w, WorkerEnd(o));
            w'.worker.None? && w'.s == Finished(w.s, w.worker.value.launch, w.current, o)
    ensures w.current != w.worker.value.launch.gen <==> !w.worker.value.progress.Nothing?
  {
  }

  /** The end of a worker closes the gate for good exactly if it failed after it replaced
      the session, or if a recovery found its files unusable. */
  lemma GateAfterWorker(c: Config, ws: seq<World>, es: seq<Event>, k: nat)
    requires Run(c, ws, es) && k < |es| && es[k].WorkerEnd?
    ensures ws[k].worker.Some? && ws[k + 1].worker.None?
    ensures var worker, o, phase := ws[k].worker.value, es[k].outcome, ws[k + 1].s.phase;
            var moved := !worker.progress.Nothing?;
            && (Closed(phase) <==> o.Some? && (moved || (o.value.kind == InvalidConfig && !worker.launch.initial)))
            && (phase == Unverified <==> o.None? && worker.launch.initial)
            && (phase == Recovered <==> o.None? && !worker.launch.initial)
            && (phase == VersionBlocked <==> o.Some? && !moved && o.value.kind == Version)
            && (phase == DeviceConflicted <==> o.Some? && !moved && o.value.kind == DeviceConflict)
            && !phase.Ready? && !phase.Recovering?
            && ws[k + 1].s.lastError == if o.None? then None else Some(o.value.kind)
  {
    NextState(c, ws, es, k);
    EndShows(c, ws[k], es[k].outcome);
    FinishedShows(ws[k].s, ws[k].worker.value.launch, ws[k].current, es[k].outcome);
  }

  /** A version check may begin exactly when no writer runs and the gate is open. Its end
      resets the phase exactly if it installed a session and either granted budgets or
      the client reports no block. */
  lemma CheckIsShown(c: Config, ws: seq<World>, es: seq<Event>, k: nat)
    requires Run(c, ws, es) && k < |es|
    ensures var w, w', e := ws[k], ws[k + 1], es[k];
            && (Enabled(c, w, SyncBegin) <==> w.worker.None? && w.sync.None? && !w.s.phase.PersistenceFailed?)
            && (e.SyncEnd? ==>
                  && w.sync.Some? && w'.sync.None?
                  && (w'.s.phase, w'.s.lastError) ==
                     if w.sync.value.installed.Some? && (e.clear || Grants(w)) then (Unverified, None)
                     else (w.s.phase, w.s.lastError))
  {
    NextState(c, ws, es, k);
    if es[k].SyncEnd? {
      GrantsIsRearm(ws[k]);
    }
  }

  lemma GrantsIsRearm(w: World)
    requires Lineage(w) && Marked(w) && w.sync.Some?
    ensures w.sync.value.installed.Some? ==>
      (Grants(w) <==> Rearms(w.s, w.sync.value.gen, w.sync.value.installed == Some(true)))
  {
  }

  /** A reload takes effect exactly when no other writer runs and its session could be
      installed. It opens the gate, on a chain that has used nothing. */
  lemma ReloadReplaces(c: Config, ws: seq<World>, es: seq<Event>, k: nat)
    requires Run(c, ws, es) && k < |es| && es[k].Reload?
    ensures var w, w' := ws[k], ws[k + 1];
            if w.worker.None? && w.sync.None? && es[k].replaced.Ok? then
              && w'.current == w.next && w'.s.phase == Unverified && w'.s.lastError.None?
              && w'.times == [] && Root(w', w'.current) !in w'.spent && !LoadedHere(w')
            else w' == w
  {
    NextState(c, ws, es, k);
  }
}
