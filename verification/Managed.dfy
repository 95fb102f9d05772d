/** The state of `ManagedClient` and its locked sections (server/src/managed.rs,
    server/src/managed/versions.rs). Each section is specified by a function on
    `State` and implemented by a method that updates the fields in place. */
module Managed {
  import opened Basics
  import opened Errors

  datatype Phase =
    | Unverified | Ready | Recovering | Recovered | ReauthenticationRequired
    | VersionBlocked | DeviceConflicted | PersistenceFailed

  /** Digest of the local account input; its computation is abstract. */
  type Revision = nat

  datatype State = State(
    versionUpdating: bool,
    phase: Phase,
    attempts: nat,
    successes: nat,
    attempted: Option<Gen>,
    initialAttempted: Option<(Gen, Option<Revision>)>,
    versionRejected: Option<Gen>,
    lastAttempt: Option<nat>,
    lastError: Option<Kind>)

  const INITIAL_STATE := State(false, Unverified, 0, 0, None, None, None, None, None)

  /** What a locked section reads besides the state: the inner client's generation,
      the clock, the configuration and the current account input. */
  datatype Env = Env(
    current: Gen,
    stopped: bool,
    now: nat,
    cooldown: nat,
    recovery: bool,
    loader: Option<Option<Revision>>)

  /** A background worker: the generation it serves, and whether it is the lazy
      account load rather than a recovery. */
  datatype Launch = Launch(gen: Gen, initial: bool)

  /** Queries are refused while a worker runs and after a failed persistence. */
  predicate Closed(phase: Phase) {
    phase.Recovering? || phase.PersistenceFailed?
  }

  // ----- the end of a query -----

  /** The account input that a missing-credentials error asks to load. */
  function Wanted(g: Gen, result: Option<Kind>, env: Env): Option<(Gen, Option<Revision>)> {
    if result == Some(AuthenticationRequired) && env.loader.Some? then Some((g, env.loader.value)) else None
  }

  /** Outcomes that leave the state untouched. */
  predicate Ignored(s: State, g: Gen, anonymous: bool, result: Option<Kind>, env: Env) {
    || anonymous || env.current != g || env.stopped || Closed(s.phase)
    || (Wanted(g, result, env).Some? && Wanted(g, result, env) == s.initialAttempted)
  }

  function Blocked(kind: Kind): Phase {
    match kind
    case Version => VersionBlocked
    case DeviceConflict => DeviceConflicted
    case Authentication => ReauthenticationRequired
    case AuthenticationRequired => ReauthenticationRequired
    case _ => Unverified
  }

  predicate Launches(s: State, g: Gen, result: Option<Kind>, env: Env) {
    && !s.versionUpdating
    && match result
       case Some(AuthenticationRequired) => env.loader.Some?
       case Some(Authentication) =>
         && env.recovery && s.attempted != Some(g)
         && (s.lastAttempt.Some? ==> s.lastAttempt.value + env.cooldown <= env.now)
       case _ => false
  }

  /** Result kind None is a successful query. */
  function Observed(s: State, g: Gen, anonymous: bool, result: Option<Kind>, env: Env): (State, Option<Launch>) {
    if Ignored(s, g, anonymous, result, env) then (s, None)
    else
      var seen := s.(phase := if result.None? then Ready else Blocked(result.value), lastError := result);
      if !Launches(s, g, result, env) then (seen, None)
      else
        var initial := result == Some(AuthenticationRequired);
        var booked := if initial then seen.(initialAttempted := Wanted(g, result, env))
                      else seen.(attempted := Some(g), lastAttempt := Some(env.now));
        (booked.(phase := Recovering, versionRejected := None, attempts := s.attempts + 1), Some(Launch(g, initial)))
  }

  // ----- the end of a worker -----

  function FailedPhase(kind: Kind, initial: bool): Phase {
    match kind
    case Version => VersionBlocked
    case DeviceConflict => DeviceConflicted
    case InvalidConfig => if initial then ReauthenticationRequired else PersistenceFailed
    case _ => ReauthenticationRequired
  }

  /** A refusal of the client version that left the generation in place. */
  predicate Refused(w: Launch, current: Gen, result: Option<ClientError>) {
    result.Some? && current == w.gen && ClientUpdateRequired(result.value)
  }

  function Finished(s: State, w: Launch, current: Gen, result: Option<ClientError>): State {
    match result
    case None =>
      s.(phase := if w.initial then Unverified else Recovered, successes := s.successes + 1, lastError := None)
    case Some(e) =>
      s.(phase := if current != w.gen then PersistenceFailed else FailedPhase(e.kind, w.initial),
         versionRejected := if Refused(w, current, result) then Some(w.gen) else s.versionRejected,
         lastError := Some(e.kind))
  }

  // ----- reload -----

  predicate Reloadable(s: State) {
    !s.phase.Recovering? && !s.versionUpdating
  }

  function Reloaded(s: State): State {
    State(false, Unverified, s.attempts, s.successes, None, None, None, None, None)
  }

  // ----- version poller -----

  predicate MaySync(s: State) {
    !s.versionUpdating && !Closed(s.phase)
  }

  /** A release was followed and the worker on this generation had been refused for
      its client version: its budgets are granted anew. */
  predicate Rearms(s: State, g: Gen, followed: bool) {
    followed && s.versionRejected == Some(g)
  }

  function Carry(mark: Option<Gen>, g: Gen, current: Gen, rearm: bool): Option<Gen> {
    if mark != Some(g) then mark else if rearm then None else Some(current)
  }

  function CarryInitial(mark: Option<(Gen, Option<Revision>)>, g: Gen, current: Gen,
                        rearm: bool): Option<(Gen, Option<Revision>)> {
    if mark.None? || mark.value.0 != g then mark
    else if rearm then None else Some((current, mark.value.1))
  }

  /** `clear` says that the client reports no block for authenticated queries. */
  function Synced(s: State, g: Gen, current: Gen, changed: bool, followed: bool, clear: bool): State {
    if !changed then s.(versionUpdating := false)
    else
      var rearm := Rearms(s, g, followed);
      var reset := rearm || clear;
      s.(versionUpdating := false,
         attempted := Carry(s.attempted, g, current, rearm),
         initialAttempted := CarryInitial(s.initialAttempted, g, current, rearm),
         versionRejected := Carry(s.versionRejected, g, current, rearm),
         phase := if reset then Unverified else s.phase,
         lastError := if reset then None else s.lastError)
  }

  // ----- candidate search -----

  /** Outcome of one version call: the error, or whether a session was installed. */
  type Outcome = Result<bool, ClientError>

  predicate Refusal(o: Outcome) {
    o.Err? && ClientUpdateRequired(o.error)
  }

  /** The mutable state of `ManagedClient` behind its lock. */
  class ManagedClient {
    var versionUpdating: bool
    var phase: Phase
    var attempts: nat
    var successes: nat
    var attempted: Option<Gen>
    var initialAttempted: Option<(Gen, Option<Revision>)>
    var versionRejected: Option<Gen>
    var lastAttempt: Option<nat>
    var lastError: Option<Kind>

    function Abs(): State
      reads this
    {
      State(versionUpdating, phase, attempts, successes, attempted, initialAttempted,
            versionRejected, lastAttempt, lastError)
    }

    constructor ()
      ensures Abs() == INITIAL_STATE
    {
      versionUpdating, phase, attempts, successes := false, Unverified, 0, 0;
      attempted, initialAttempted, versionRejected := None, None, None;
      lastAttempt, lastError := None, None;
    }

    method Observe(g: Gen, anonymous: bool, result: Option<Kind>, env: Env) returns (worker: Option<Launch>)
      modifies this
      ensures (Abs(), worker) == Observed(old(Abs()), g, anonymous, result, env)
    {
      if anonymous || env.current != g || env.stopped { return None; }
      if phase == Recovering || phase == PersistenceFailed { return None; }
      var initial := result == Some(AuthenticationRequired);
      var revision := if initial && env.loader.Some? then Some((g, env.loader.value)) else None;
      if revision.Some? && revision == initialAttempted { return None; }
      match result {
        case None =>
          phase, lastError := Ready, None;
          return None;
        case Some(kind) =>
          lastError := Some(kind);
          match kind {
            case Version => phase := VersionBlocked; return None;
            case DeviceConflict => phase := DeviceConflicted; return None;
            case Authentication => phase := ReauthenticationRequired;
            case AuthenticationRequired => phase := ReauthenticationRequired;
            case _ => phase := Unverified; return None;
          }
      }
      if versionUpdating { return None; }
      if (if initial then env.loader.None? else !env.recovery) { return None; }
      if initial {
        initialAttempted := revision;
      } else {
        if attempted == Some(g) || (lastAttempt.Some? && env.now < lastAttempt.value + env.cooldown) {
          return None;
        }
        attempted, lastAttempt := Some(g), Some(env.now);
      }
      phase, versionRejected, attempts := Recovering, None, attempts + 1;
      worker := Some(Launch(g, initial));
    }

    method Finish(w: Launch, current: Gen, result: Option<ClientError>)
      modifies this
      ensures Abs() == Finished(old(Abs()), w, current, result)
    {
      match result {
        case None =>
          phase := if w.initial then Unverified else Recovered;
          successes, lastError := successes + 1, None;
        case Some(e) =>
          if current == w.gen && ClientUpdateRequired(e) {
            versionRejected := Some(w.gen);
          }
          if current != w.gen {
            phase := PersistenceFailed;
          } else {
            match e.kind {
              case Version => phase := VersionBlocked;
              case DeviceConflict => phase := DeviceConflicted;
              case InvalidConfig => phase := if w.initial then ReauthenticationRequired else PersistenceFailed;
              case _ => phase := ReauthenticationRequired;
            }
          }
          lastError := Some(e.kind);
      }
    }

    /** `replaced` is the outcome of installing the saved session. */
    method Reload(replaced: Result<(), Kind>) returns (result: Result<(), Kind>)
      modifies this
      ensures result == if !Reloadable(old(Abs())) then Err(QueueFull) else replaced
      ensures Abs() == if result.Ok? then Reloaded(old(Abs())) else old(Abs())
    {
      if phase == Recovering || versionUpdating { return Err(QueueFull); }
      if replaced.Err? { return replaced; }
      phase, attempted, initialAttempted := Unverified, None, None;
      versionRejected, lastAttempt, lastError := None, None, None;
      result := replaced;
    }

    method BeginSync() returns (started: bool)
      modifies this`versionUpdating
      ensures started <==> MaySync(old(Abs()))
      ensures Abs() == if started then old(Abs()).(versionUpdating := true) else old(Abs())
    {
      if versionUpdating || phase == Recovering || phase == PersistenceFailed { return false; }
      versionUpdating := true;
      started := true;
    }

    method EndSync(g: Gen, current: Gen, changed: bool, followed: bool, clear: bool)
      modifies this
      ensures Abs() == Synced(old(Abs()), g, current, changed, followed, clear)
    {
      versionUpdating := false;
      var rearm := followed && versionRejected == Some(g);
      if changed {
        if attempted == Some(g) {
          attempted := if rearm then None else Some(current);
        }
        if initialAttempted.Some? && initialAttempted.value.0 == g {
          initialAttempted := if rearm then None else Some((current, initialAttempted.value.1));
        }
        if versionRejected == Some(g) {
          versionRejected := if rearm then None else Some(current);
        }
      }
      if changed && (rearm || clear) {
        phase, lastError := Unverified, None;
      }
    }

    /** The gate in front of the inner client, for `query_error` and `execute`. */
    method Gate(anonymous: bool) returns (refused: Option<Kind>)
      ensures refused == if !anonymous && Closed(Abs().phase) then Some(Authentication) else None
    {
      refused :=
        if !anonymous && (phase == Recovering || phase == PersistenceFailed) then Some(Authentication) else None;
    }
  }

  /** Candidate search after a refused refresh: the first candidate that is not
      refused as well decides; when all are refused the first refusal stands. */
  method SearchCandidates(refresh: Outcome, follow: bool, attempts: seq<Outcome>)
    returns (result: Outcome, tried: nat, followed: Option<nat>)
    ensures !(follow && Refusal(refresh)) ==> result == refresh && tried == 0 && followed.None?
    ensures follow && Refusal(refresh) ==>
              && tried <= |attempts|
              && (forall k :: 0 <= k < tried - 1 ==> Refusal(attempts[k]))
              && ((forall k :: 0 <= k < |attempts| ==> Refusal(attempts[k]))
                  ==> result == refresh && tried == |attempts|)
              && ((exists k :: 0 <= k < |attempts| && !Refusal(attempts[k])) ==>
                    tried > 0 && result == attempts[tried - 1] && !Refusal(result))
    ensures followed == if tried > 0 && result == attempts[tried - 1] && result.Ok? then Some(tried - 1) else None
  {
    result, tried, followed := refresh, 0, None;
    if follow && Refusal(refresh) {
      while tried < |attempts|
        invariant tried <= |attempts| && result == refresh && followed.None?
        invariant forall k :: 0 <= k < tried ==> Refusal(attempts[k])
      {
        var outcome := attempts[tried];
        tried := tried + 1;
        if !Refusal(outcome) {
          result := outcome;
          followed := if outcome.Ok? then Some(tried - 1) else None;
          return;
        }
      }
    }
  }
}
