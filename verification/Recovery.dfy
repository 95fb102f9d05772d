/** The recovery and lazy-load workers (GameRecovery::recover in server/src/managed.rs;
    AccountDirectoryClient::recover and login_role in server/src/accounts.rs). */
module Recovery {
  import opened Basics
  import opened Errors
  import opened Client
  import opened Persist

  /** An account, as the hash of its user name; every account has its own directory. */
  type Identity = nat

  /** The client's current session, as far as a worker sees it. Generations below
      `next` were issued. */
  datatype Active = Active(generation: Gen, next: Gen, credentials: Option<Credentials>, blocked: Option<Kind>)

  /** What the outside world answers, in the order a worker asks. Where an error is not
      opened further, it is the answer. */
  datatype Answers = Answers(
    lock: Option<Kind>,                    // the operator lock is not free
    context: Option<Kind>,                 // the login context cannot be read
    role: Result<bool, Kind>,              // pre-login: is there a role
    login: Result<(string, string), Kind>, // the player and the credential that a login gives
    cancelled: bool,                       // seen after the login
    id: nat, temp: nat,                    // the random names of the save
    saving: Gen, refused: bool,            // the client when the game file is written
    checking: Gen,                         // ... and before the pointer is published
    faults: Faults, unsaved: Kind)         // how the save goes, and its error

  /** What only the account directory asks. */
  datatype Selection = Selection(
    cancelled: bool,                       // seen before anything else
    account: Result<Identity, Kind>,       // the one account file
    scope: Option<Kind>,                   // the account's directory is unusable
    cancelledSaved: bool,                  // seen before a saved session is loaded
    replaced: Option<Kind>,                // the saved session cannot be installed
    ready: bool, allowCreate: bool,        // operator settings
    valid: Option<Kind>,                   // the login configuration is not valid
    password: Result<(string, nat), Kind>, // the SDK account and token of a password login
    fault: Fault)                          // how keeping them goes

  /** How far a worker gets: it installs nothing, installs a login, also saves it, or
      installs a session that was saved before. */
  datatype Done = Untouched | SignedIn | Kept | Loaded

  /** What a worker leaves behind. */
  datatype Outcome = Outcome(active: Active, files: Files, done: Done, result: Result<(), Kind>)

  /** The account behind credentials; tokens are ignored. */
  function IdentityOf(c: Credentials): (string, Option<string>) {
    (c.player, c.bid)
  }

  predicate SameIdentity(a: Option<Credentials>, b: Credentials) {
    a.Some? && IdentityOf(a.value) == IdentityOf(b)
  }

  /** The saved credentials that can be loaded for an owner. */
  function Stored(files: Files, owner: Owner): Option<Credentials> {
    match LoadGame(files, owner)
    case Ok(Some(Game(_, credentials))) => Some(credentials)
    case _ => None
  }

  // ----- The workers, as functions of what they are told -----

  function Stopped(s: Active, files: Files, error: Kind): Outcome {
    Outcome(s, files, Untouched, Err(error))
  }

  function Switched(s: Active, c: Credentials): Active {
    Active(s.next, s.next + 1, Some(c), None)
  }

  /** A login with an SDK authorization, installed and then saved. `known` is the account
      it must lead to. */
  function AfterLogin(owner: Owner, s: Active, files: Files, sdk: Content, known: Option<Credentials>,
                      a: Answers): Outcome
    requires sdk.Sdk?
  {
    if a.login.Err? then Stopped(s, files, a.login.error)
    else
      var c := Credentials(a.login.value.0, a.login.value.1, None, Some(sdk.uid));
      var t := Switched(s, c);
      if known.Some? && !SameIdentity(Some(c), known.value) then Outcome(t, files, SignedIn, Err(InvalidConfig))
      else if a.cancelled then Outcome(t, files, SignedIn, Err(Cancelled))
      else
        var game := if a.refused then None else Some(Game(owner, c));
        var (after, ok) := Saved(files, owner, sdk, a.id, t.generation, Reading(a.saving, game), a.checking, a.faults);
        Outcome(t, after, if ok then Kept else SignedIn, if ok then Ok(()) else Err(a.unsaved))
  }

  predicate BlockedForGood(s: Active) {
    s.blocked == Some(Version) || s.blocked == Some(DeviceConflict)
  }

  /** The recovery of the session that was saved. */
  function RecoveredGame(owner: Owner, s: Active, files: Files, from: Gen, a: Answers): Outcome {
    var saved, sdk := LoadGame(files, owner), LoadSdk(files, owner);
    if a.lock.Some? then Stopped(s, files, a.lock.value)
    else if s.generation != from || BlockedForGood(s) then Stopped(s, files, SessionChanged)
    else if saved.Err? || saved.value.None? || saved.value.value.owner != owner then Stopped(s, files, InvalidConfig)
    else if !SameIdentity(s.credentials, saved.value.value.credentials) then Stopped(s, files, InvalidConfig)
    else if sdk.None? then Stopped(s, files, InvalidConfig)
    else if a.context.Some? then Stopped(s, files, a.context.value)
    else if a.role != Ok(true) then Stopped(s, files, if a.role.Err? then a.role.error else Authentication)
    else AfterLogin(owner, s, files, sdk.value, Some(saved.value.value.credentials), a)
  }

  /** The login of an account without a saved session. */
  function RoleLoggedIn(owner: Owner, s: Active, files: Files, sdk: Content, allowCreate: bool, a: Answers): Outcome
    requires sdk.Sdk?
  {
    if a.context.Some? then Stopped(s, files, a.context.value)
    else if a.role.Err? then Stopped(s, files, a.role.error)
    else if !a.role.value && !allowCreate then Stopped(s, files, AuthenticationRequired)
    else AfterLogin(owner, s, files, sdk, None, a)
  }

  /** The account's first SDK authorization: the one kept in its directory, or that of a
      password login, which is kept there before it is used. */
  function Authorized(owner: Owner, files: Files, sel: Selection): (Files, Result<Content, Kind>) {
    if Initial in files then
      (files, if files[Initial].Sdk? && files[Initial].owner == owner then Ok(files[Initial]) else Err(InvalidConfig))
    else if sel.password.Err? then (files, Err(Authentication))
    else
      var sdk := Sdk(owner, sel.password.value.0, sel.password.value.1);
      if Lands(sel.fault) then (files[Initial := sdk], Ok(sdk)) else (files, Err(InvalidConfig))
  }

  /** What an account without a saved session comes to. */
  function FirstLogin(owner: Owner, s: Active, files: Files, sel: Selection, a: Answers): Outcome {
    var (kept, sdk) := Authorized(owner, files, sel);
    if sdk.Err? then Stopped(s, kept, sdk.error)
    else RoleLoggedIn(owner, s, kept, sdk.value, sel.allowCreate, a)
  }

  /** The lazy loader on the directory of the selected account: recover the account's
      session, load a saved one, or log in. */
  function RecoveredAccount(owner: Owner, s: Active, files: Files, from: Gen, sel: Selection, a: Answers): Outcome {
    var saved := LoadGame(files, owner);
    if sel.scope.Some? then Stopped(s, files, sel.scope.value)
    else if s.blocked == Some(Authentication) then RecoveredGame(owner, s, files, from, a)
    else if BlockedForGood(s) || s.credentials.Some? then Stopped(s, files, SessionChanged)
    else if a.lock.Some? then Stopped(s, files, a.lock.value)
    else if saved.Err? then Stopped(s, files, InvalidConfig)
    else if saved.value.Some? then
      if sel.cancelledSaved then Stopped(s, files, Cancelled)
      else if sel.replaced.Some? then Stopped(s, files, sel.replaced.value)
      else if saved.value.value.owner != owner then Stopped(s, files, InvalidConfig)
      else Outcome(Switched(s, saved.value.value.credentials), files, Loaded, Ok(()))
    else if !sel.ready then Stopped(s, files, AuthenticationRequired)
    else if sel.valid.Some? then Stopped(s, files, sel.valid.value)
    else FirstLogin(owner, s, files, sel, a)
  }

  // ----- What every worker leaves behind -----

  /** A worker that ends well leaves its session current and on disk. One that fails
      either left the client alone or installed a login that it did not report as saved. */
  predicate Ended(owner: Owner, s: Active, files: Files, o: Outcome) {
    && SnapshotsKept(files, o.files)
    && (o.done.Untouched? ==> o.active == s)
    && (!o.done.Untouched? ==> o.active.credentials.Some? && o.active == Switched(s, o.active.credentials.value))
    && (o.result.Ok? <==> o.done.Kept? || o.done.Loaded?)
    && (o.result.Ok? ==> Stored(o.files, owner) == o.active.credentials)
  }

  lemma LoginEnds(owner: Owner, s: Active, files: Files, sdk: Content, known: Option<Credentials>, a: Answers)
    requires sdk.Sdk?
    ensures Ended(owner, s, files, AfterLogin(owner, s, files, sdk, known, a))
    ensures var o := AfterLogin(owner, s, files, sdk, known, a);
            && (!o.done.Untouched? ==> o.active.credentials.value.bid == Some(sdk.uid))
            && (LoadGame(files, owner).Ok? ==>
                  || LoadGame(o.files, owner) == LoadGame(files, owner)
                  || (Stored(o.files, owner) == o.active.credentials && !o.done.Untouched?
                      && (known.Some? ==> SameIdentity(o.active.credentials, known.value))))
  {
    if a.login.Ok? {
      var c := Credentials(a.login.value.0, a.login.value.1, None, Some(sdk.uid));
      var game := if a.refused then None else Some(Game(owner, c));
      SaveIsAllOrNothing(files, owner, sdk, a.id, s.next, Reading(a.saving, game), a.checking, a.faults);
    }
  }

  /** A session that could be loaded still can, and is that of the same account. */
  predicate KeepsStored(owner: Owner, files: Files, after: Files) {
    Stored(files, owner).Some? ==> SameIdentity(Stored(after, owner), Stored(files, owner).value)
  }

  lemma LoginKeepsStored(owner: Owner, s: Active, files: Files, sdk: Content, a: Answers)
    requires sdk.Sdk? && Stored(files, owner).Some?
    ensures var o := AfterLogin(owner, s, files, sdk, Stored(files, owner), a);
            && Ended(owner, s, files, o) && KeepsStored(owner, files, o.files)
            && (o.result.Ok? ==> SameIdentity(o.active.credentials, Stored(files, owner).value))
  {
    LoginEnds(owner, s, files, sdk, Stored(files, owner), a);
  }

  /** A recovery stops before it changes anything, or logs in with the stored
      authorization, in the generation it was started for and on an existing role. */
  lemma RecoveryIsLogin(owner: Owner, s: Active, files: Files, from: Gen, a: Answers)
    ensures var o, sdk := RecoveredGame(owner, s, files, from, a), LoadSdk(files, owner);
            || (o.result.Err? && o == Stopped(s, files, o.result.error))
            || (Stored(files, owner).Some? && sdk.Some? && from == s.generation && a.role == Ok(true)
                && SameIdentity(s.credentials, Stored(files, owner).value)
                && o == AfterLogin(owner, s, files, sdk.value, Stored(files, owner), a))
  {
  }

  /** The recovery ends as promised, and whatever it installs or saves as complete is the
      account that was saved before: the stored identity never changes. */
  lemma RecoveryKeepsIdentity(owner: Owner, s: Active, files: Files, from: Gen, a: Answers)
    ensures var o := RecoveredGame(owner, s, files, from, a);
            && Ended(owner, s, files, o) && KeepsStored(owner, files, o.files)
            && (!o.done.Untouched? ==> from == s.generation && Stored(files, owner).Some? && a.role == Ok(true))
            && (o.result.Ok? ==> SameIdentity(o.active.credentials, Stored(files, owner).value)
                                 && SameIdentity(s.credentials, Stored(files, owner).value))
  {
    RecoveryIsLogin(owner, s, files, from, a);
    var sdk := LoadSdk(files, owner);
    if Stored(files, owner).Some? && sdk.Some? {
      LoginKeepsStored(owner, s, files, sdk.value, a);
    }
  }

  lemma AuthorizedKeeps(owner: Owner, files: Files, sel: Selection)
    ensures var (kept, sdk) := Authorized(owner, files, sel);
            && SnapshotsKept(files, kept) && LoadGame(kept, owner).Ok? == LoadGame(files, owner).Ok?
            && (LoadGame(files, owner) == Ok(None) ==> LoadGame(kept, owner) == Ok(None))
            && (sdk.Ok? ==> sdk.value.Sdk? && Initial in kept && kept[Initial] == sdk.value)
            && forall n :: n in kept ==> n in files || n == Initial
  {
    if Initial !in files && sel.password.Ok? && Lands(sel.fault) && Current in files {
      assert files[Current].Pointer? && files[Current].game == Initial ==>
        LoadGame(files, owner).Err?;
    }
  }

  lemma FirstLoginEnds(owner: Owner, s: Active, files: Files, sel: Selection, a: Answers)
    ensures var o := FirstLogin(owner, s, files, sel, a);
            && Ended(owner, s, files, o)
            && (o.done.SignedIn? || o.done.Kept? ==> a.role == Ok(true) || sel.allowCreate)
            && !o.done.Loaded?
  {
    var (kept, sdk) := Authorized(owner, files, sel);
    AuthorizedKeeps(owner, files, sel);
    if sdk.Ok? {
      LoginEnds(owner, s, kept, sdk.value, None, a);
    }
  }

  /** The lazy loader stops, recovers, loads what is stored, or logs in for the first time. */
  lemma AccountCases(owner: Owner, s: Active, files: Files, from: Gen, sel: Selection, a: Answers)
    ensures var o := RecoveredAccount(owner, s, files, from, sel, a);
            || (o.result.Err? && o == Stopped(s, files, o.result.error))
            || o == RecoveredGame(owner, s, files, from, a)
            || (Stored(files, owner).Some?
                && o == Outcome(Switched(s, Stored(files, owner).value), files, Loaded, Ok(())))
            || (sel.ready && LoadGame(files, owner) == Ok(None) && o == FirstLogin(owner, s, files, sel, a))
  {
  }

  /** The lazy loader ends as promised. A role is created only where the operator allows
      it, and a session that was stored keeps its identity. */
  lemma AccountEnds(owner: Owner, s: Active, files: Files, from: Gen, sel: Selection, a: Answers)
    ensures var o := RecoveredAccount(owner, s, files, from, sel, a);
            && Ended(owner, s, files, o) && KeepsStored(owner, files, o.files)
            && (o.done.SignedIn? || o.done.Kept? ==>
                  a.role == Ok(true) || (sel.allowCreate && sel.ready && Stored(files, owner).None?))
  {
    AccountCases(owner, s, files, from, sel, a);
    RecoveryKeepsIdentity(owner, s, files, from, a);
    FirstLoginEnds(owner, s, files, sel, a);
  }

  // ----- When a worker logs in, and when it succeeds -----

  /** A saved session of the owner that belongs to the account of the current one. */
  predicate SavedHere(owner: Owner, s: Active, files: Files) {
    && LoadGame(files, owner).Ok? && LoadGame(files, owner).value.Some?
    && LoadGame(files, owner).value.value.owner == owner
    && SameIdentity(s.credentials, LoadGame(files, owner).value.value.credentials)
  }

  /** A save in a directory goes well, and the session stays the one that was installed. */
  predicate SavesWell(files: Files, start: Gen, a: Answers) {
    && !a.refused && a.saving == start == a.checking
    && SdkFile(a.id) !in files && GameFile(a.id) !in files
    && a.faults.sdk in {Smooth, Late} && a.faults.game in {Smooth, Late} && a.faults.pointer == Smooth
  }

  /** A login gives credentials, of the account expected if there is one, nobody cancels,
      and the save puts the new session on disk. */
  predicate LogsIn(s: Active, files: Files, uid: string, known: Option<Credentials>, a: Answers) {
    && a.login.Ok? && !a.cancelled && SavesWell(files, s.next, a)
    && (known.Some? ==> known.value.player == a.login.value.0 && known.value.bid == Some(uid))
  }

  lemma LoginSucceeds(owner: Owner, s: Active, files: Files, sdk: Content, known: Option<Credentials>, a: Answers)
    requires sdk.Sdk?
    ensures var o := AfterLogin(owner, s, files, sdk, known, a);
            && (o.result.Ok? <==> LogsIn(s, files, sdk.uid, known, a))
            && (!o.done.Untouched? <==> a.login.Ok?)
            && (!o.done.Untouched? ==>
                  o.active.credentials == Some(Credentials(a.login.value.0, a.login.value.1, None, Some(sdk.uid))))
  {
    if a.login.Ok? {
      var c := Credentials(a.login.value.0, a.login.value.1, None, Some(sdk.uid));
      var game := if a.refused then None else Some(Game(owner, c));
      SaveSucceeds(files, owner, sdk, a.id, s.next, Reading(a.saving, game), a.checking, a.faults);
    }
  }

  /** Everything that a recovery asks before it logs in is answered well: the operator
      lock, the session it was started for without a version or device block, a saved
      session and an SDK authorization of the same account, and an existing role. */
  predicate MayRecover(owner: Owner, s: Active, files: Files, from: Gen, a: Answers) {
    && a.lock.None? && s.generation == from && s.blocked != Some(Version) && s.blocked != Some(DeviceConflict)
    && SavedHere(owner, s, files) && LoadSdk(files, owner).Some?
    && a.context.None? && a.role == Ok(true)
  }

  /** A recovery logs in exactly then, and succeeds exactly if the login does. In
      particular it never logs in over a version or device block. */
  lemma RecoverySucceeds(owner: Owner, s: Active, files: Files, from: Gen, a: Answers)
    ensures var o, sdk := RecoveredGame(owner, s, files, from, a), LoadSdk(files, owner);
            && (!o.done.Untouched? <==> MayRecover(owner, s, files, from, a) && a.login.Ok?)
            && (o.result.Ok? <==>
                  && MayRecover(owner, s, files, from, a)
                  && LogsIn(s, files, sdk.value.uid, Some(LoadGame(files, owner).value.value.credentials), a))
            && (!o.done.Untouched? ==> s.blocked != Some(Version) && s.blocked != Some(DeviceConflict))
            && (s.blocked == Some(Version) || s.blocked == Some(DeviceConflict) ==>
                  o == Outcome(s, files, Untouched, Err(if a.lock.Some? then a.lock.value else SessionChanged)))
  {
    if MayRecover(owner, s, files, from, a) {
      LoginSucceeds(owner, s, files, LoadSdk(files, owner).value,
                    Some(LoadGame(files, owner).value.value.credentials), a);
    }
  }

  /** The lazy loader may go on past a blocked or signed-in session. */
  predicate MayLoad(s: Active, sel: Selection, a: Answers) {
    && sel.scope.None? && a.lock.None?
    && s.blocked !in {Some(Authentication), Some(Version), Some(DeviceConflict)} && s.credentials.None?
  }

  /** The authorization of a first login: the one kept for the owner, or a new one that
      could be kept. */
  predicate Authorizes(owner: Owner, files: Files, sel: Selection) {
    if Initial in files then files[Initial].Sdk? && files[Initial].owner == owner
    else sel.password.Ok? && Lands(sel.fault)
  }

  /** A role exists, or may be created. */
  predicate MayLogIn(sel: Selection, a: Answers) {
    a.context.None? && a.role.Ok? && (a.role.value || sel.allowCreate)
  }

  lemma RoleLoginSucceeds(owner: Owner, s: Active, files: Files, sdk: Content, sel: Selection, a: Answers)
    requires sdk.Sdk?
    ensures var o := RoleLoggedIn(owner, s, files, sdk, sel.allowCreate, a);
            && (!o.done.Untouched? <==> MayLogIn(sel, a) && a.login.Ok?)
            && (o.result.Ok? <==> MayLogIn(sel, a) && LogsIn(s, files, sdk.uid, None, a))
  {
    LoginSucceeds(owner, s, files, sdk, None, a);
  }

  lemma AuthorizedExactly(owner: Owner, files: Files, sel: Selection, id: nat)
    ensures var (kept, sdk) := Authorized(owner, files, sel);
            && (sdk.Ok? <==> Authorizes(owner, files, sel))
            && (SdkFile(id) in kept <==> SdkFile(id) in files) && (GameFile(id) in kept <==> GameFile(id) in files)
            && (sdk.Ok? && Initial !in files ==>
                  && sdk.value == Sdk(owner, sel.password.value.0, sel.password.value.1)
                  && kept == files[Initial := sdk.value])
  {
  }

  lemma FirstLoginSucceeds(owner: Owner, s: Active, files: Files, sel: Selection, a: Answers)
    ensures var o := FirstLogin(owner, s, files, sel, a);
            && (!o.done.Untouched? <==> Authorizes(owner, files, sel) && MayLogIn(sel, a) && a.login.Ok?)
            && (o.result.Ok? <==> Authorizes(owner, files, sel) && MayLogIn(sel, a) && LogsIn(s, files, "", None, a))
  {
    var (kept, sdk) := Authorized(owner, files, sel);
    AuthorizedExactly(owner, files, sel, a.id);
    if sdk.Ok? {
      RoleLoginSucceeds(owner, s, kept, sdk.value, sel, a);
    }
  }

  /** The lazy loader succeeds exactly in one of three ways: it recovers a rejected
      session, loads a saved one, or logs in for the first time. A version or device
      block stops it in any case. */
  lemma AccountSucceeds(owner: Owner, s: Active, files: Files, from: Gen, sel: Selection, a: Answers)
    ensures var o, saved := RecoveredAccount(owner, s, files, from, sel, a), LoadGame(files, owner);
            && (o.result.Ok? <==>
                  || (sel.scope.None? && s.blocked == Some(Authentication) && MayRecover(owner, s, files, from, a)
                      && LogsIn(s, files, LoadSdk(files, owner).value.uid, Some(saved.value.value.credentials), a))
                  || (MayLoad(s, sel, a) && saved.Ok? && saved.value.Some? && !sel.cancelledSaved && sel.replaced.None?
                      && saved.value.value.owner == owner)
                  || (MayLoad(s, sel, a) && saved == Ok(None) && sel.ready && sel.valid.None?
                      && Authorizes(owner, files, sel) && MayLogIn(sel, a) && LogsIn(s, files, "", None, a)))
            && (!o.done.Untouched? ==> s.blocked != Some(Version) && s.blocked != Some(DeviceConflict))
            && (!o.done.Untouched? ==> s.blocked == Some(Authentication) || s.credentials.None?)
  {
    RecoverySucceeds(owner, s, files, from, a);
    FirstLoginSucceeds(owner, s, files, sel, a);
  }

  // ----- Accounts and their directories -----

  datatype State = State(active: Active, pinned: Option<Identity>, dirs: map<Identity, Files>)

  function Dir(s: State, i: Identity): Files {
    if i in s.dirs then s.dirs[i] else map[]
  }

  /** Why a call ends before it looks into any directory: among other things, because
      another account was selected since the last reload. */
  function Stops(s: State, from: Gen, sel: Selection): Option<Kind> {
    if sel.cancelled then Some(Cancelled)
    else if s.active.generation != from then Some(SessionChanged)
    else if sel.account.Err? then Some(sel.account.error)
    else if s.pinned.Some? && s.pinned != Some(sel.account.value) then Some(InvalidConfig)
    else None
  }

  /** A call gets to work exactly if nobody cancelled it, the session is the one it was
      started for, there is one account file, and no other account was selected since the
      last reload. */
  lemma SelectionPasses(s: State, from: Gen, sel: Selection)
    ensures Stops(s, from, sel).None? <==>
      && !sel.cancelled && s.active.generation == from && sel.account.Ok?
      && (s.pinned.None? || s.pinned.value == sel.account.value)
  {
  }

  /** A call of the lazy loader: it pins the account and works in its directory. */
  function Attempt(owner: Owner, s: State, from: Gen, sel: Selection, a: Answers): (State, Result<(), Kind>) {
    var stop := Stops(s, from, sel);
    if stop.Some? then (s, Err(stop.value))
    else
      var i := sel.account.value;
      var o := RecoveredAccount(owner, s.active, Dir(s, i), from, sel, a);
      (State(o.active, Some(i), s.dirs[i := o.files]), o.result)
  }

  /** A reload starts an anonymous session and forgets the selection. */
  function Reloaded(s: State): State {
    State(Active(s.active.next, s.active.next + 1, None, None), None, s.dirs)
  }

  lemma Twice(m: map<Identity, Files>, i: Identity, a: Files, b: Files)
    ensures m[i := a][i := b] == m[i := b]
  {
  }

  class Worker {
    const owner: Owner
    var generation: Gen
    var next: Gen
    var credentials: Option<Credentials>
    var blocked: Option<Kind>
    var pinned: Option<Identity>
    var dirs: map<Identity, StateDir>

    function Now(): Active
      reads this
    {
      Active(generation, next, credentials, blocked)
    }

    /** No two accounts share a directory. */
    ghost predicate Apart()
      reads this
    {
      forall i, j :: i in dirs && j in dirs && i != j ==> dirs[i] != dirs[j]
    }

    ghost function Abs(): State
      reads this, dirs.Values
    {
      State(Now(), pinned, map i | i in dirs :: dirs[i].files)
    }

    constructor (owner: Owner)
      ensures Apart() && this.owner == owner && Abs() == State(Active(0, 1, None, None), None, map[])
    {
      this.owner, generation, next := owner, 0, 1;
      credentials, blocked, pinned, dirs := None, None, None, map[];
    }

    method Install(c: Credentials)
      modifies this`generation, this`next, this`credentials, this`blocked
      ensures Now() == Switched(old(Now()), c)
    {
      generation, next, credentials, blocked := next, next + 1, Some(c), None;
    }

    method LogIn(dir: StateDir, sdk: Content, known: Option<Credentials>, a: Answers)
      returns (r: Result<(), Kind>, ghost done: Done)
      requires sdk.Sdk? && Temp(a.temp) !in dir.files
      modifies this`generation, this`next, this`credentials, this`blocked, dir
      ensures Outcome(Now(), dir.files, done, r) == AfterLogin(owner, old(Now()), old(dir.files), sdk, known, a)
    {
      done := Untouched;
      if a.login.Err? {
        return Err(a.login.error), done;
      }
      var c := Credentials(a.login.value.0, a.login.value.1, None, Some(sdk.uid));
      Install(c);
      done := SignedIn;
      if known.Some? && !SameIdentity(credentials, known.value) {
        return Err(InvalidConfig), done;
      }
      if a.cancelled {
        return Err(Cancelled), done;
      }
      var game := if a.refused then None else Some(Game(owner, c));
      var ok := dir.Save(owner, sdk, a.id, a.temp, generation, Reading(a.saving, game), a.checking, a.faults);
      if !ok {
        return Err(a.unsaved), done;
      }
      return Ok(()), Kept;
    }

    method RecoverGame(dir: StateDir, from: Gen, a: Answers) returns (r: Result<(), Kind>, ghost done: Done)
      requires Temp(a.temp) !in dir.files
      modifies this`generation, this`next, this`credentials, this`blocked, dir
      ensures Outcome(Now(), dir.files, done, r) == RecoveredGame(owner, old(Now()), old(dir.files), from, a)
    {
      done := Untouched;
      if a.lock.Some? {
        return Err(a.lock.value), done;
      }
      if generation != from || blocked == Some(Version) || blocked == Some(DeviceConflict) {
        return Err(SessionChanged), done;
      }
      var saved := LoadGame(dir.files, owner);
      if saved.Err? || saved.value.None? || saved.value.value.owner != owner {
        return Err(InvalidConfig), done;
      }
      var known := saved.value.value.credentials;
      if !SameIdentity(credentials, known) {
        return Err(InvalidConfig), done;
      }
      var sdk := LoadSdk(dir.files, owner);
      if sdk.None? {
        return Err(InvalidConfig), done;
      }
      if a.context.Some? {
        return Err(a.context.value), done;
      }
      if a.role.Err? {
        return Err(a.role.error), done;
      }
      if !a.role.value {
        return Err(Authentication), done;
      }
      r, done := LogIn(dir, sdk.value, Some(known), a);
    }

    method LogInRole(dir: StateDir, sdk: Content, allowCreate: bool, a: Answers)
      returns (r: Result<(), Kind>, ghost done: Done)
      requires sdk.Sdk? && Temp(a.temp) !in dir.files
      modifies this`generation, this`next, this`credentials, this`blocked, dir
      ensures Outcome(Now(), dir.files, done, r) == RoleLoggedIn(owner, old(Now()), old(dir.files), sdk, allowCreate, a)
    {
      done := Untouched;
      if a.context.Some? {
        return Err(a.context.value), done;
      }
      if a.role.Err? {
        return Err(a.role.error), done;
      }
      if !a.role.value && !allowCreate {
        return Err(AuthenticationRequired), done;
      }
      r, done := LogIn(dir, sdk, None, a);
    }

    method Authorize(dir: StateDir, sel: Selection, t: nat) returns (sdk: Result<Content, Kind>)
      requires Temp(t) !in dir.files
      modifies dir
      ensures (dir.files, sdk) == Authorized(owner, old(dir.files), sel) && Temp(t) !in dir.files
    {
      if Initial in dir.files {
        var kept := dir.files[Initial];
        return if kept.Sdk? && kept.owner == owner then Ok(kept) else Err(InvalidConfig);
      }
      if sel.password.Err? {
        return Err(Authentication);
      }
      var obtained := Sdk(owner, sel.password.value.0, sel.password.value.1);
      var ok := dir.Create(Initial, obtained, t, sel.fault);
      sdk := if ok then Ok(obtained) else Err(InvalidConfig);
    }

    method RecoverIn(dir: StateDir, from: Gen, sel: Selection, a: Answers)
      returns (r: Result<(), Kind>, ghost done: Done)
      requires Temp(a.temp) !in dir.files
      modifies this`generation, this`next, this`credentials, this`blocked, dir
      ensures Outcome(Now(), dir.files, done, r) == RecoveredAccount(owner, old(Now()), old(dir.files), from, sel, a)
    {
      done := Untouched;
      if sel.scope.Some? {
        return Err(sel.scope.value), done;
      }
      if blocked == Some(Authentication) {
        r, done := RecoverGame(dir, from, a);
        return;
      }
      if blocked == Some(Version) || blocked == Some(DeviceConflict) || credentials.Some? {
        return Err(SessionChanged), done;
      }
      if a.lock.Some? {
        return Err(a.lock.value), done;
      }
      var saved := LoadGame(dir.files, owner);
      if saved.Err? {
        return Err(InvalidConfig), done;
      }
      if saved.value.Some? {
        if sel.cancelledSaved {
          return Err(Cancelled), done;
        }
        if sel.replaced.Some? {
          return Err(sel.replaced.value), done;
        }
        if saved.value.value.owner != owner {
          return Err(InvalidConfig), done;
        }
        Install(saved.value.value.credentials);
        return Ok(()), Loaded;
      }
      if !sel.ready {
        return Err(AuthenticationRequired), done;
      }
      if sel.valid.Some? {
        return Err(sel.valid.value), done;
      }
      var sdk := Authorize(dir, sel, a.temp);
      if sdk.Err? {
        return Err(sdk.error), done;
      }
      r, done := LogInRole(dir, sdk.value, sel.allowCreate, a);
    }

    /** Makes the account's directory, unless it is there. */
    method Open(i: Identity)
      requires Apart()
      modifies this`dirs
      ensures Apart() && i in dirs && dirs[i].files == Dir(old(Abs()), i)
      ensures Abs() == old(Abs()).(dirs := old(Abs()).dirs[i := dirs[i].files])
      ensures forall j :: j in dirs ==> if j in old(dirs) then dirs[j] == old(dirs[j]) else fresh(dirs[j])
    {
      if i !in dirs {
        var dir := new StateDir();
        dirs := dirs[i := dir];
      }
    }

    /** Selects the account: the error that ends the call, or nothing once it is pinned. */
    method Select(from: Gen, sel: Selection) returns (stop: Option<Kind>)
      modifies this`pinned
      ensures stop == Stops(old(Abs()), from, sel)
      ensures Abs() == if stop.None? then old(Abs()).(pinned := Some(sel.account.value)) else old(Abs())
    {
      if sel.cancelled {
        return Some(Cancelled);
      }
      if generation != from {
        return Some(SessionChanged);
      }
      if sel.account.Err? {
        return Some(sel.account.error);
      }
      if pinned.Some? && pinned.value != sel.account.value {
        return Some(InvalidConfig);
      }
      pinned := Some(sel.account.value);
      stop := None;
    }

    /** What changes when only one account's directory is worked in. */
    twostate lemma OneDirectory(i: Identity)
      requires old(Apart()) && i in dirs && dirs == old(dirs)
      requires forall j :: j in dirs && j != i ==> unchanged(dirs[j])
      ensures Abs().dirs == old(Abs()).dirs[i := dirs[i].files]
    {
    }

    method Work(i: Identity, from: Gen, sel: Selection, a: Answers) returns (r: Result<(), Kind>, ghost o: Outcome)
      requires Apart() && i in dirs && Temp(a.temp) !in dirs[i].files
      modifies this`generation, this`next, this`credentials, this`blocked, dirs[i]
      ensures o == RecoveredAccount(owner, old(Now()), old(dirs[i].files), from, sel, a) && r == o.result
      ensures Abs() == State(o.active, pinned, old(Abs()).dirs[i := o.files])
    {
      ghost var done;
      r, done := RecoverIn(dirs[i], from, sel, a);
      o := Outcome(Now(), dirs[i].files, done, r);
      OneDirectory(i);
    }

    method OpenAndWork(i: Identity, from: Gen, sel: Selection, a: Answers)
      returns (r: Result<(), Kind>, ghost o: Outcome)
      requires Apart() && forall j :: j in dirs ==> Temp(a.temp) !in dirs[j].files
      modifies this`generation, this`next, this`credentials, this`blocked, this`dirs, dirs.Values
      ensures Apart() && o == RecoveredAccount(owner, old(Now()), Dir(old(Abs()), i), from, sel, a) && r == o.result
      ensures Abs() == State(o.active, pinned, old(Abs()).dirs[i := o.files])
    {
      ghost var before := Abs().dirs;
      Open(i);
      assert Temp(a.temp) !in dirs[i].files;
      ghost var made := dirs[i].files;
      r, o := Work(i, from, sel, a);
      Twice(before, i, made, o.files);
    }

    method RecoverAccount(from: Gen, sel: Selection, a: Answers) returns (r: Result<(), Kind>)
      requires Apart() && forall i :: i in dirs ==> Temp(a.temp) !in dirs[i].files
      modifies this, dirs.Values
      ensures Apart() && (Abs(), r) == Attempt(owner, old(Abs()), from, sel, a)
    {
      var stop := Select(from, sel);
      if stop.Some? {
        return Err(stop.value);
      }
      ghost var o;
      r, o := OpenAndWork(sel.account.value, from, sel, a);
    }

    /** The accounts' part of a reload, once the session was replaced. */
    method Reload()
      modifies this`generation, this`next, this`credentials, this`blocked, this`pinned
      ensures Abs() == Reloaded(old(Abs())) && (old(Apart()) ==> Apart())
    {
      generation, next, credentials, blocked := next, next + 1, None, None;
      pinned := None;
    }
  }
}
