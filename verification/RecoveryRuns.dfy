/** Runs of the account worker: recoveries and reloads, with the session changing
    elsewhere in between (server/src/accounts.rs, server/src/managed.rs). */
module RecoveryRuns {
  import opened Basics
  import opened Errors
  import opened Client
  import opened Persist
  import opened Recovery
  import ManagedRuns

  datatype Event =
    | Recover(from: Gen, sel: Selection, a: Answers)
    | Reload
    | Elsewhere(active: Active)  // version updates, blocks and operator commands

  function Step(owner: Owner, s: State, e: Event): State {
    match e
    case Recover(from, sel, a) => Attempt(owner, s, from, sel, a).0
    case Reload => Reloaded(s)
    case Elsewhere(active) => s.(active := active)
  }

  ghost predicate Run(owner: Owner, ss: seq<State>, es: seq<Event>) {
    && |ss| == |es| + 1 && ss[0].pinned.None? && ss[0].dirs == map[]
    && forall k {:trigger es[k]} :: 0 <= k < |es| ==> ss[k + 1] == Step(owner, ss[k], es[k])
  }

  lemma Link(owner: Owner, ss: seq<State>, es: seq<Event>, k: nat)
    requires Run(owner, ss, es) && k < |es|
    ensures ss[k + 1] == Step(owner, ss[k], es[k])
  {
    var e := es[k];
  }

  // ----- One account between reloads -----

  /** The worker got past the selection of its account. */
  predicate Works(s: State, e: Event) {
    e.Recover? && Stops(s, e.from, e.sel).None?
  }

  /** Only a worker that got past the selection changes the session or a directory, and
      only the directory of the account that it pinned; nor does it read another one. */
  lemma OnlyOwnDirectory(owner: Owner, s: State, t: State, from: Gen, sel: Selection, a: Answers)
    ensures var (s', r) := Attempt(owner, s, from, sel, a);
            && (Stops(s, from, sel).Some? ==> s' == s && r.Err?)
            && (Stops(s, from, sel).None? ==> s'.pinned == Some(sel.account.value) && from == s.active.generation)
            && forall i: Identity :: Dir(s', i) != Dir(s, i) ==> s'.pinned == Some(i) && sel.account == Ok(i)
    ensures s.active == t.active && s.pinned == t.pinned
            && (sel.account.Ok? ==> Dir(s, sel.account.value) == Dir(t, sel.account.value)) ==>
            var (s', r) := Attempt(owner, s, from, sel, a);
            var (t', q) := Attempt(owner, t, from, sel, a);
            && r == q && s'.active == t'.active && s'.pinned == t'.pinned
            && (sel.account.Ok? ==> Dir(s', sel.account.value) == Dir(t', sel.account.value))
  {
  }

  lemma {:induction false} PinStays(owner: Owner, ss: seq<State>, es: seq<Event>, i: nat, j: nat)
    requires Run(owner, ss, es) && i < j <= |es| && Works(ss[i], es[i])
    requires forall k :: i < k < j ==> !es[k].Reload?
    ensures ss[j].pinned == Some(es[i].sel.account.value)
  {
    Link(owner, ss, es, j - 1);
    if j > i + 1 {
      PinStays(owner, ss, es, i, j - 1);
    }
  }

  /** Between two reloads all recoveries that get past the selection use one account. */
  lemma OneAccountBetweenReloads(owner: Owner, ss: seq<State>, es: seq<Event>, i: nat, j: nat)
    requires Run(owner, ss, es) && i < j < |es| && Works(ss[i], es[i]) && Works(ss[j], es[j])
    requires forall k :: i < k < j ==> !es[k].Reload?
    ensures es[i].sel.account == es[j].sel.account
  {
    PinStays(owner, ss, es, i, j);
  }

  /** ... and no other account's directory changes before the next reload. */
  lemma {:induction false} OtherDirectoriesRest(owner: Owner, ss: seq<State>, es: seq<Event>, i: nat, j: nat,
                                                other: Identity)
    requires Run(owner, ss, es) && i < j <= |es| && Works(ss[i], es[i]) && es[i].sel.account != Ok(other)
    requires forall k :: i < k < j ==> !es[k].Reload?
    ensures Dir(ss[j], other) == Dir(ss[i], other)
  {
    Link(owner, ss, es, j - 1);
    if j > i + 1 {
      OtherDirectoriesRest(owner, ss, es, i, j - 1, other);
      PinStays(owner, ss, es, i, j - 1);
    }
  }

  // ----- One SDK account per directory -----

  /** Every authorization in a directory is of the account whose authorization was kept
      there first, and so is every saved session. */
  predicate OfOne(files: Files) {
    files == map[] ||
    (Initial in files && files[Initial].Sdk? &&
     forall n :: n in files ==>
       && (files[n].Sdk? ==> files[n].uid == files[Initial].uid)
       && (files[n].Game? ==> files[n].credentials.bid == Some(files[Initial].uid)))
  }

  lemma SaveIsOfOne(files: Files, owner: Owner, sdk: Content, c: Credentials, id: nat, start: Gen, saving: Reading,
                    checking: Gen, faults: Faults)
    requires OfOne(files) && Initial in files && sdk.Sdk? && sdk.uid == files[Initial].uid
    requires c.bid == Some(sdk.uid) && (saving.game.Some? ==> saving.game == Some(Game(owner, c)))
    ensures var after := Saved(files, owner, sdk, id, start, saving, checking, faults).0;
            OfOne(after) && Initial in after && after[Initial] == files[Initial]
  {
  }

  lemma LoginIsOfOne(owner: Owner, s: Active, files: Files, sdk: Content, known: Option<Credentials>, a: Answers)
    requires OfOne(files) && Initial in files && sdk.Sdk? && sdk.uid == files[Initial].uid
    ensures var o := AfterLogin(owner, s, files, sdk, known, a);
            && OfOne(o.files) && Initial in o.files && o.files[Initial] == files[Initial]
            && (!o.done.Untouched? ==> o.active.credentials.Some? && o.active.credentials.value.bid == Some(sdk.uid))
  {
    if a.login.Ok? {
      var c := Credentials(a.login.value.0, a.login.value.1, None, Some(sdk.uid));
      var game := if a.refused then None else Some(Game(owner, c));
      SaveIsOfOne(files, owner, sdk, c, a.id, s.next, Reading(a.saving, game), a.checking, a.faults);
    }
  }

  lemma AuthorizedIsOfOne(owner: Owner, files: Files, sel: Selection)
    requires OfOne(files)
    ensures var (kept, sdk) := Authorized(owner, files, sel);
            && OfOne(kept)
            && (Initial in files ==> kept == files)
            && (sdk.Ok? ==> Initial in kept && kept[Initial] == sdk.value && sdk.value.Sdk?)
  {
  }

  /** An outcome keeps the directory to one SDK account, and what it installs is that account's. */
  predicate Faithful(files: Files, o: Outcome) {
    && OfOne(o.files)
    && (Initial in files ==> Initial in o.files && o.files[Initial] == files[Initial])
    && (!o.done.Untouched? ==>
          && Initial in o.files && o.files[Initial].Sdk? && o.active.credentials.Some?
          && o.active.credentials.value.bid == Some(o.files[Initial].uid))
  }

  lemma RecoveryIsOfOne(owner: Owner, s: Active, files: Files, from: Gen, a: Answers)
    requires OfOne(files)
    ensures Faithful(files, RecoveredGame(owner, s, files, from, a))
  {
    var saved, stored := LoadGame(files, owner), LoadSdk(files, owner);
    if stored.Some? && saved.Ok? && saved.value.Some? {
      LoginIsOfOne(owner, s, files, stored.value, Some(saved.value.value.credentials), a);
    }
  }

  lemma FirstLoginIsOfOne(owner: Owner, s: Active, files: Files, sel: Selection, a: Answers)
    requires OfOne(files)
    ensures Faithful(files, FirstLogin(owner, s, files, sel, a))
  {
    var (kept, sdk) := Authorized(owner, files, sel);
    AuthorizedIsOfOne(owner, files, sel);
    if sdk.Ok? {
      LoginIsOfOne(owner, s, kept, sdk.value, None, a);
    }
  }

  lemma LoadedIsOfOne(owner: Owner, s: Active, files: Files)
    requires OfOne(files) && LoadGame(files, owner).Ok? && LoadGame(files, owner).value.Some?
    ensures Faithful(files, Outcome(Switched(s, LoadGame(files, owner).value.value.credentials), files, Loaded, Ok(())))
  {
  }

  lemma AccountIsOfOne(owner: Owner, s: Active, files: Files, from: Gen, sel: Selection, a: Answers)
    requires OfOne(files)
    ensures Faithful(files, RecoveredAccount(owner, s, files, from, sel, a))
  {
    if s.blocked == Some(Authentication) {
      RecoveryIsOfOne(owner, s, files, from, a);
    } else if LoadGame(files, owner) == Ok(None) {
      FirstLoginIsOfOne(owner, s, files, sel, a);
    } else if LoadGame(files, owner).Ok? {
      LoadedIsOfOne(owner, s, files);
    }
  }

  lemma {:induction false} DirectoriesAreOfOne(owner: Owner, ss: seq<State>, es: seq<Event>, k: nat, x: Identity)
    requires Run(owner, ss, es) && k <= |es|
    ensures OfOne(Dir(ss[k], x))
  {
    if k > 0 {
      DirectoriesAreOfOne(owner, ss, es, k - 1, x);
      Link(owner, ss, es, k - 1);
      var e := es[k - 1];
      if Works(ss[k - 1], e) && e.sel.account == Ok(x) {
        AccountIsOfOne(owner, ss[k - 1].active, Dir(ss[k - 1], x), e.from, e.sel, e.a);
      }
    }
  }

  lemma {:induction false} FirstAuthorizationStays(owner: Owner, ss: seq<State>, es: seq<Event>, i: nat, k: nat,
                                                   x: Identity)
    requires Run(owner, ss, es) && i <= k <= |es| && Initial in Dir(ss[i], x)
    ensures Initial in Dir(ss[k], x) && Dir(ss[k], x)[Initial] == Dir(ss[i], x)[Initial]
  {
    if i < k {
      FirstAuthorizationStays(owner, ss, es, i, k - 1, x);
      DirectoriesAreOfOne(owner, ss, es, k - 1, x);
      Link(owner, ss, es, k - 1);
      var e := es[k - 1];
      if Works(ss[k - 1], e) && e.sel.account == Ok(x) {
        AccountIsOfOne(owner, ss[k - 1].active, Dir(ss[k - 1], x), e.from, e.sel, e.a);
      }
    }
  }

  /** What the worker installs when it works in a state. */
  function Done(owner: Owner, s: State, e: Event): Outcome
    requires Works(s, e)
  {
    RecoveredAccount(owner, s.active, Dir(s, e.sel.account.value), e.from, e.sel, e.a)
  }

  predicate Installs(owner: Owner, s: State, e: Event, x: Identity) {
    Works(s, e) && e.sel.account == Ok(x) && !Done(owner, s, e).done.Untouched?
  }

  lemma InstalledIsOfOne(owner: Owner, ss: seq<State>, es: seq<Event>, k: nat, x: Identity)
    requires Run(owner, ss, es) && k < |es| && Installs(owner, ss[k], es[k], x)
    ensures ss[k + 1].active.credentials.Some? && Initial in Dir(ss[k + 1], x) && Dir(ss[k + 1], x)[Initial].Sdk?
    ensures ss[k + 1].active.credentials.value.bid == Some(Dir(ss[k + 1], x)[Initial].uid)
  {
    Link(owner, ss, es, k);
    DirectoriesAreOfOne(owner, ss, es, k, x);
    AccountIsOfOne(owner, ss[k].active, Dir(ss[k], x), es[k].from, es[k].sel, es[k].a);
  }

  /** All sessions ever installed for one account, across reloads, are of one SDK account. */
  lemma OneSdkAccount(owner: Owner, ss: seq<State>, es: seq<Event>, i: nat, j: nat, x: Identity)
    requires Run(owner, ss, es) && i <= j < |es| && Installs(owner, ss[i], es[i], x) && Installs(owner, ss[j], es[j], x)
    ensures ss[i + 1].active.credentials.Some? && ss[j + 1].active.credentials.Some?
    ensures ss[i + 1].active.credentials.value.bid == ss[j + 1].active.credentials.value.bid
  {
    InstalledIsOfOne(owner, ss, es, i, x);
    InstalledIsOfOne(owner, ss, es, j, x);
    FirstAuthorizationStays(owner, ss, es, i + 1, j + 1, x);
  }

  // ----- A worker of the recovery machine -----

  /** What the recovery machine sees of a worker before it ends. */
  function Seen(o: Outcome): seq<ManagedRuns.Event> {
    match o.done
    case Untouched => []
    case SignedIn => [ManagedRuns.WorkerLogin]
    case Kept => [ManagedRuns.WorkerLogin, ManagedRuns.WorkerPersist]
    case Loaded => [ManagedRuns.WorkerLoad]
  }

  function Reported(o: Outcome): ManagedRuns.Event {
    ManagedRuns.WorkerEnd(if o.result.Ok? then None else Some(New(o.result.error)))
  }

  ghost predicate Steps(c: ManagedRuns.Config, ws: seq<ManagedRuns.World>, es: seq<ManagedRuns.Event>) {
    && |ws| == |es| + 1
    && forall k {:trigger es[k]} :: 0 <= k < |es| ==>
         ManagedRuns.Enabled(c, ws[k], es[k]) && ws[k + 1] == ManagedRuns.Step(c, ws[k], es[k])
  }

  lemma SignsIn(c: ManagedRuns.Config, w: ManagedRuns.World) returns (v: ManagedRuns.World)
    requires w.worker.Some? && w.worker.value.progress.Nothing? && w.current == w.worker.value.launch.gen
    ensures ManagedRuns.Enabled(c, w, ManagedRuns.WorkerLogin) && v == ManagedRuns.Step(c, w, ManagedRuns.WorkerLogin)
    ensures v.worker.Some? && v.worker.value.progress == ManagedRuns.LoggedIn(w.next) && v.current == w.next
  {
    v := ManagedRuns.Step(c, w, ManagedRuns.WorkerLogin);
  }

  /** The worker's events before its end, and where they lead. */
  lemma Arrives(c: ManagedRuns.Config, w: ManagedRuns.World, o: Outcome) returns (ws: seq<ManagedRuns.World>)
    requires w.worker.Some? && w.worker.value.progress.Nothing? && w.current == w.worker.value.launch.gen
    ensures Steps(c, ws, Seen(o)) && ws[0] == w
    ensures var v := ws[|Seen(o)|];
            && v.worker.Some? && v.current == (if o.done.Untouched? then w.current else w.next)
            && (o.done.Kept? || o.done.Loaded? ==> v.worker.value.progress.OnDisk?)
  {
    if o.done.Untouched? {
      ws := [w];
    } else if o.done.Loaded? {
      ws := [w, ManagedRuns.Step(c, w, ManagedRuns.WorkerLoad)];
    } else {
      var v := SignsIn(c, w);
      ws := if o.done.Kept? then [w, v, ManagedRuns.Step(c, v, ManagedRuns.WorkerPersist)] else [w, v];
    }
  }

  lemma Ends(c: ManagedRuns.Config, w: ManagedRuns.World, o: Outcome) returns (v: ManagedRuns.World)
    requires w.worker.Some? && (o.result.Ok? ==> w.worker.value.progress.OnDisk?)
    ensures ManagedRuns.Enabled(c, w, Reported(o)) && v == ManagedRuns.Step(c, w, Reported(o))
    ensures v.worker.None? && v.current == w.current
  {
    v := ManagedRuns.Step(c, w, Reported(o));
  }

  /** The recovery machine takes for granted that a worker ends well only with its session
      on disk. It does: whatever a worker leaves behind, its login, save or load and then
      its end are steps of the machine, and lead to the generation it leaves. */
  lemma WorkerIsManaged(owner: Owner, c: ManagedRuns.Config, w: ManagedRuns.World, s: Active, files: Files, o: Outcome)
    returns (ws: seq<ManagedRuns.World>)
    requires Ended(owner, s, files, o)
    requires w.worker.Some? && w.worker.value.progress.Nothing?
    requires w.current == w.worker.value.launch.gen == s.generation && w.next == s.next
    ensures Steps(c, ws, Seen(o) + [Reported(o)]) && ws[0] == w
    ensures ws[|Seen(o)| + 1].worker.None? && ws[|Seen(o)| + 1].current == o.active.generation
    ensures o.result.Ok? ==> Stored(o.files, owner) == o.active.credentials
  {
    ws := Arrives(c, w, o);
    var last := Ends(c, ws[|Seen(o)|], o);
    OneMore(c, ws, Seen(o), Reported(o));
    ws := ws + [last];
  }

  lemma OneMore(c: ManagedRuns.Config, ws: seq<ManagedRuns.World>, es: seq<ManagedRuns.Event>, e: ManagedRuns.Event)
    requires Steps(c, ws, es) && ManagedRuns.Enabled(c, ws[|es|], e)
    ensures Steps(c, ws + [ManagedRuns.Step(c, ws[|es|], e)], es + [e])
  {
    var vs, ds := ws + [ManagedRuns.Step(c, ws[|es|], e)], es + [e];
    forall k {:trigger ds[k]} | 0 <= k < |ds|
      ensures ManagedRuns.Enabled(c, vs[k], ds[k]) && vs[k + 1] == ManagedRuns.Step(c, vs[k], ds[k])
    {
      if k < |es| {
        assert ds[k] == es[k] && vs[k] == ws[k] && vs[k + 1] == ws[k + 1];
      }
    }
  }
}
