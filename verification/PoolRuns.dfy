/** Fairness of the round robin over any run of scans (server/src/pool.rs), and how
    long a cooldown keeps a member out. */
module PoolRuns {
  import opened Basics
  import opened Errors
  import opened Pool

  // ----- positions on the ring -----

  /** Steps from a to b in rotation order. */
  function Dist(n: nat, a: nat, b: nat): nat
    requires a < n && b < n
  {
    if a <= b then b - a else b + n - a
  }

  function After(n: nat, a: nat): nat
    requires a < n
  {
    if a + 1 == n then 0 else a + 1
  }

  lemma Wraps(a: nat, n: nat)
    requires a < 2 * n
    ensures a % n == if a < n then a else a - n
  {
  }

  lemma PositionDist(n: nat, next: nat, offset: nat)
    requires next < n && offset < n
    ensures Position(next, offset, n) < n && Dist(n, next, Position(next, offset, n)) == offset
    ensures Position(next, 1, n) == After(n, next) || n == 1
    ensures n == 1 ==> Position(next, 1, n) == 0
  {
    Wraps(next + offset, n);
    Wraps(next + 1, n);
  }

  // ----- one scan, declaratively -----

  /** The open member nearest to the cursor is chosen and the cursor moves behind it;
      without an open member the cursor stays. */
  ghost predicate Turn(n: nat, next: nat, open: set<nat>, pick: Option<nat>, then': nat)
    requires next < n
  {
    match pick
    case None => then' == next && forall i :: i in open ==> i >= n
    case Some(i) =>
      && i in open && i < n && then' == After(n, i)
      && forall j :: j in open && j < n ==> Dist(n, next, i) <= Dist(n, next, j)
  }

  function Open(s: State, clients: seq<Client>, now: nat): set<nat>
    requires |clients| == |s.cooldowns|
  {
    set i | 0 <= i < |clients| && Skipped(s, clients, now, i).None?
  }

  /** A member of a pool of several is passed over exactly while it cools down in its
      current generation or its client refuses; the only member never is. */
  lemma OpenExactly(s: State, clients: seq<Client>, now: nat, i: nat)
    requires |clients| == |s.cooldowns|
    ensures i in Open(s, clients, now) <==>
      && i < |clients|
      && (|clients| == 1
          || (clients[i].refused.None?
              && !(s.cooldowns[i].Some? && s.cooldowns[i].value.gen == clients[i].gen
                   && now < s.cooldowns[i].value.until)))
    ensures i < |clients| && i !in Open(s, clients, now) ==>
      Skipped(s, clients, now, i) == Some(
        if s.cooldowns[i].Some? && s.cooldowns[i].value.gen == clients[i].gen && now < s.cooldowns[i].value.until
        then s.cooldowns[i].value.kind else clients[i].refused.value)
  {
  }

  lemma {:induction false} PassedAreSkipped(s: State, clients: seq<Client>, now: nat, offset: nat, k: nat)
    requires offset <= |clients| == |s.cooldowns| && offset <= k < Passed(s, clients, now, offset)
    ensures Skipped(s, clients, now, Position(s.next, k, |clients|)).Some?
    decreases k - offset
  {
    if k > offset {
      PassedAreSkipped(s, clients, now, offset + 1, k);
    }
  }

  lemma {:induction false} StopIsOpen(s: State, clients: seq<Client>, now: nat, offset: nat)
    requires |clients| == |s.cooldowns| && offset <= |clients| && Passed(s, clients, now, offset) < |clients|
    ensures Skipped(s, clients, now, Position(s.next, Passed(s, clients, now, offset), |clients|)).None?
    decreases |clients| - offset
  {
    if Skipped(s, clients, now, Position(s.next, offset, |clients|)).Some? {
      StopIsOpen(s, clients, now, offset + 1);
    }
  }

  lemma DistInverse(n: nat, a: nat, b: nat)
    requires a < n && b < n
    ensures Position(a, Dist(n, a, b), n) == b
  {
    Wraps(a + Dist(n, a, b), n);
  }

  /** Members before the stop, counted from the cursor, are skipped. */
  lemma SkippedBefore(s: State, clients: seq<Client>, now: nat, j: nat)
    requires Valid(s) && j < |clients| == |s.cooldowns|
    ensures Dist(|clients|, s.next, j) < Passed(s, clients, now, 0) ==> Skipped(s, clients, now, j).Some?
  {
    DistInverse(|clients|, s.next, j);
    if Dist(|clients|, s.next, j) < Passed(s, clients, now, 0) {
      PassedAreSkipped(s, clients, now, 0, Dist(|clients|, s.next, j));
    }
  }

  lemma StopAt(s: State, clients: seq<Client>, now: nat)
    requires Valid(s) && |clients| == |s.cooldowns| && Passed(s, clients, now, 0) < |clients|
    ensures var n, i := |clients|, Position(s.next, Passed(s, clients, now, 0), |clients|);
            && i < n && Dist(n, s.next, i) == Passed(s, clients, now, 0)
            && Skipped(s, clients, now, i).None? && Dispatched(s, clients, now) == (Ok(i), After(n, i))
  {
    StopIsOpen(s, clients, now, 0);
    PositionDist(|clients|, s.next, Passed(s, clients, now, 0));
    PositionDist(|clients|, Position(s.next, Passed(s, clients, now, 0), |clients|), 0);
  }

  /** The scan does exactly a turn; when every member is skipped it reports the reason
      of the member at the cursor, the first in rotation order. */
  lemma ScanIsTurn(s: State, clients: seq<Client>, now: nat)
    requires Valid(s) && |clients| == |s.cooldowns| && |clients| > 0
    ensures var (chosen, next) := Dispatched(s, clients, now);
            && Turn(|clients|, s.next, Open(s, clients, now), if chosen.Ok? then Some(chosen.value) else None, next)
            && (chosen.Err? ==> Skipped(s, clients, now, s.next) == Some(chosen.error))
  {
    var n := |clients|;
    forall j | 0 <= j < n
      ensures Dist(n, s.next, j) < Passed(s, clients, now, 0) ==> Skipped(s, clients, now, j).Some?
    {
      SkippedBefore(s, clients, now, j);
    }
    if Passed(s, clients, now, 0) < n {
      StopAt(s, clients, now);
    } else {
      DistInverse(n, s.next, s.next);
      assert Dist(n, s.next, s.next) == 0;
    }
  }

  /** A pool without members answers every query with a missing authentication. */
  lemma EmptyPool(s: State, now: nat)
    requires |s.cooldowns| == 0
    ensures Dispatched(s, [], now) == (Err(AuthenticationRequired), s.next)
  {
  }

  // ----- runs of scans -----

  /** Cursors, who was open at each scan, and whom it chose. */
  ghost predicate Scans(n: nat, cursors: seq<nat>, open: seq<set<nat>>, picks: seq<Option<nat>>) {
    && n > 0 && |cursors| == |open| + 1 && |picks| == |open|
    && (forall t :: 0 <= t < |cursors| ==> cursors[t] < n)
    && forall t {:trigger picks[t]} :: 0 <= t < |picks| ==> Turn(n, cursors[t], open[t], picks[t], cursors[t + 1])
  }

  /** While an open member is passed over, the cursor comes nearer to it. */
  lemma Approaches(n: nat, next: nat, open: set<nat>, pick: Option<nat>, then': nat, m: nat)
    requires next < n && Turn(n, next, open, pick, then') && m in open && m < n && pick != Some(m)
    ensures then' < n && Dist(n, then', m) < Dist(n, next, m)
  {
  }

  /** A member that every scan finds open is chosen within n scans. */
  lemma {:induction false} BoundedBypass(n: nat, cursors: seq<nat>, open: seq<set<nat>>, picks: seq<Option<nat>>,
                                         a: nat, d: nat, m: nat)
    returns (t: nat)
    requires Scans(n, cursors, open, picks) && m < n && a + d <= |picks| && Dist(n, cursors[a], m) < d
    requires forall t :: a <= t < a + d ==> m in open[t]
    ensures a <= t < a + d && picks[t] == Some(m)
    decreases d
  {
    t := a;
    if picks[a] != Some(m) {
      Approaches(n, cursors[a], open[a], picks[a], cursors[a + 1], m);
      t := BoundedBypass(n, cursors, open, picks, a + 1, d - 1, m);
    }
  }

  lemma TurnWithinRound(n: nat, cursors: seq<nat>, open: seq<set<nat>>, picks: seq<Option<nat>>, a: nat, m: nat)
    requires Scans(n, cursors, open, picks) && m < n && a + n <= |picks|
    requires forall t :: a <= t < a + n ==> m in open[t]
    ensures exists t :: a <= t < a + n && picks[t] == Some(m)
  {
    var t := BoundedBypass(n, cursors, open, picks, a, n, m);
  }

  /** As long as m waits, the cursor stays between what was chosen and m. */
  lemma {:induction false} StaysBetween(n: nat, cursors: seq<nat>, open: seq<set<nat>>, picks: seq<Option<nat>>,
                                        a: nat, b: nat, m: nat)
    requires Scans(n, cursors, open, picks) && m < n && a <= b <= |picks|
    requires forall t :: a <= t < b ==> m in open[t] && picks[t] != Some(m)
    ensures Dist(n, cursors[b], m) <= Dist(n, cursors[a], m)
  {
    if a < b {
      StaysBetween(n, cursors, open, picks, a, b - 1, m);
      Approaches(n, cursors[b - 1], open[b - 1], picks[b - 1], cursors[b], m);
    }
  }

  /** While an open member waits for its turn, no other member gets two. */
  lemma TurnsDoNotOvertake(n: nat, cursors: seq<nat>, open: seq<set<nat>>, picks: seq<Option<nat>>,
                           a: nat, b: nat, m: nat)
    requires Scans(n, cursors, open, picks) && m < n && a < b < |picks|
    requires forall t :: a <= t <= b ==> m in open[t] && picks[t] != Some(m)
    ensures picks[a].Some? ==> picks[a] != picks[b]
  {
    StaysBetween(n, cursors, open, picks, a + 1, b, m);
    assert picks[b].Some? ==> Dist(n, cursors[b], picks[b].value) <= Dist(n, cursors[b], m);
  }

  // ----- equal shares -----

  function Count(picks: seq<Option<nat>>, i: nat): nat {
    if picks == [] then 0
    else Count(picks[..|picks| - 1], i) + if picks[|picks| - 1] == Some(i) then 1 else 0
  }

  lemma {:induction false} Shares(n: nat, cursors: seq<nat>, open: seq<set<nat>>, picks: seq<Option<nat>>, t: nat)
    returns (q: nat)
    requires Scans(n, cursors, open, picks) && t <= |picks|
    requires forall u, i :: 0 <= u < |open| && 0 <= i < n ==> i in open[u]
    ensures forall i :: 0 <= i < n ==>
              Count(picks[..t], i) == q + if Dist(n, cursors[0], i) < Dist(n, cursors[0], cursors[t]) then 1 else 0
  {
    q := 0;
    if t > 0 {
      q := Shares(n, cursors, open, picks, t - 1);
      var c := cursors[t - 1];
      assert Turn(n, c, open[t - 1], picks[t - 1], cursors[t]);
      assert c in open[t - 1] && Dist(n, c, c) == 0;
      assert picks[t - 1] == Some(c) by {
        assert picks[t - 1].Some? && Dist(n, c, picks[t - 1].value) <= 0;
      }
      assert picks[..t][..t - 1] == picks[..t - 1];
      var wraps := cursors[t] == cursors[0];
      if wraps { q := q + 1; }
    }
  }

  /** When everyone is always open, no two members' shares differ by more than one. */
  lemma TurnsShareEqually(n: nat, cursors: seq<nat>, open: seq<set<nat>>, picks: seq<Option<nat>>, i: nat, j: nat)
    requires Scans(n, cursors, open, picks) && i < n && j < n
    requires forall u, k :: 0 <= u < |open| && 0 <= k < n ==> k in open[u]
    ensures Count(picks, i) <= Count(picks, j) + 1
  {
    var q := Shares(n, cursors, open, picks, |picks|);
    assert picks[..|picks|] == picks;
  }

  // ----- runs of the pool -----

  /** What the clients say and what time it is at one dispatch. */
  datatype Moment = Moment(clients: seq<Client>, now: nat)

  /** The pool's states before its dispatches, one after another. Whatever happens between
      two of them, queries that end included, leaves the cursor where the scan put it. */
  ghost predicate Dispatches(n: nat, ss: seq<State>, ms: seq<Moment>) {
    && n > 0 && |ss| == |ms| + 1
    && (forall t :: 0 <= t < |ss| ==> Valid(ss[t]) && |ss[t].cooldowns| == n)
    && (forall t :: 0 <= t < |ms| ==> |ms[t].clients| == n)
    && forall t {:trigger ms[t]} :: 0 <= t < |ms| ==> ss[t + 1].next == Dispatched(ss[t], ms[t].clients, ms[t].now).1
  }

  /** Whom the t-th dispatch chose. */
  function Chosen(s: State, m: Moment): Option<nat>
    requires |m.clients| == |s.cooldowns|
  {
    var r := Dispatched(s, m.clients, m.now).0;
    if r.Ok? then Some(r.value) else None
  }

  predicate IsOpen(s: State, m: Moment, i: nat) {
    i < |m.clients| == |s.cooldowns| && Skipped(s, m.clients, m.now, i).None?
  }

  ghost function Picks(n: nat, ss: seq<State>, ms: seq<Moment>): seq<Option<nat>>
    requires Dispatches(n, ss, ms)
  {
    seq(|ms|, t requires 0 <= t < |ms| => Chosen(ss[t], ms[t]))
  }

  lemma DispatchIsTurn(n: nat, ss: seq<State>, ms: seq<Moment>, t: nat)
    requires Dispatches(n, ss, ms) && t < |ms|
    ensures ss[t].next < n && |ms[t].clients| == |ss[t].cooldowns|
    ensures Turn(n, ss[t].next, Open(ss[t], ms[t].clients, ms[t].now), Chosen(ss[t], ms[t]), ss[t + 1].next)
  {
    var m := ms[t];
    assert Valid(ss[t]);
    ScanIsTurn(ss[t], m.clients, m.now);
  }

  function OpenAt(s: State, m: Moment): set<nat> {
    if |m.clients| == |s.cooldowns| then Open(s, m.clients, m.now) else {}
  }

  function Cursors(ss: seq<State>): (r: seq<nat>)
    ensures |r| == |ss| && forall t :: 0 <= t < |ss| ==> r[t] == ss[t].next
  {
    seq(|ss|, t requires 0 <= t < |ss| => ss[t].next)
  }

  function Opens(ss: seq<State>, ms: seq<Moment>): (r: seq<set<nat>>)
    requires |ss| == |ms| + 1
    ensures |r| == |ms| && forall t :: 0 <= t < |ms| ==> r[t] == OpenAt(ss[t], ms[t])
  {
    seq(|ms|, t requires 0 <= t < |ms| => OpenAt(ss[t], ms[t]))
  }

  lemma TurnAt(n: nat, ss: seq<State>, ms: seq<Moment>, t: nat)
    requires Dispatches(n, ss, ms) && t < |ms|
    ensures Cursors(ss)[t] < n
    ensures Turn(n, Cursors(ss)[t], Opens(ss, ms)[t], Picks(n, ss, ms)[t], Cursors(ss)[t + 1])
  {
    DispatchIsTurn(n, ss, ms, t);
  }

  /** The dispatches of a pool are turns of the rotation. */
  lemma DispatchesAreScans(n: nat, ss: seq<State>, ms: seq<Moment>) returns (cursors: seq<nat>, open: seq<set<nat>>)
    requires Dispatches(n, ss, ms)
    ensures Scans(n, cursors, open, Picks(n, ss, ms))
    ensures forall t :: 0 <= t < |ms| ==> open[t] == OpenAt(ss[t], ms[t])
  {
    cursors, open := Cursors(ss), Opens(ss, ms);
    var picks := Picks(n, ss, ms);
    forall t | 0 <= t < |ss| ensures cursors[t] < n {
      assert Valid(ss[t]) && |ss[t].cooldowns| == n;
    }
    forall t {:trigger picks[t]} | 0 <= t < |picks| ensures Turn(n, cursors[t], open[t], picks[t], cursors[t + 1]) {
      TurnAt(n, ss, ms, t);
    }
  }

  /** A member that n dispatches in a row find open is chosen by one of them. */
  lemma ChosenWithinOneRound(n: nat, ss: seq<State>, ms: seq<Moment>, a: nat, i: nat)
    requires Dispatches(n, ss, ms) && i < n && a + n <= |ms|
    requires forall t :: a <= t < a + n ==> IsOpen(ss[t], ms[t], i)
    ensures exists t :: a <= t < a + n && Dispatched(ss[t], ms[t].clients, ms[t].now).0 == Ok(i)
  {
    var cursors, open := DispatchesAreScans(n, ss, ms);
    TurnWithinRound(n, cursors, open, Picks(n, ss, ms), a, i);
    var t :| a <= t < a + n && Picks(n, ss, ms)[t] == Some(i);
    assert Chosen(ss[t], ms[t]) == Some(i);
  }

  /** While a member that every dispatch finds open waits, no other member is chosen twice. */
  lemma NoOvertaking(n: nat, ss: seq<State>, ms: seq<Moment>, a: nat, b: nat, i: nat)
    requires Dispatches(n, ss, ms) && i < n && a < b < |ms|
    requires forall t :: a <= t <= b ==> IsOpen(ss[t], ms[t], i) && Chosen(ss[t], ms[t]) != Some(i)
    ensures Chosen(ss[a], ms[a]).Some? ==> Chosen(ss[a], ms[a]) != Chosen(ss[b], ms[b])
  {
    var cursors, open := DispatchesAreScans(n, ss, ms);
    var picks := Picks(n, ss, ms);
    forall t | a <= t <= b ensures i in open[t] && picks[t] != Some(i) {
      assert IsOpen(ss[t], ms[t], i);
    }
    TurnsDoNotOvertake(n, cursors, open, picks, a, b, i);
  }

  /** When every dispatch finds everyone open, no two members' shares differ by more than one. */
  lemma EqualShares(n: nat, ss: seq<State>, ms: seq<Moment>, i: nat, j: nat)
    requires Dispatches(n, ss, ms) && i < n && j < n
    requires forall t, k :: 0 <= t < |ms| && 0 <= k < n ==> IsOpen(ss[t], ms[t], k)
    ensures Count(Picks(n, ss, ms), i) <= Count(Picks(n, ss, ms), j) + 1
  {
    var cursors, open := DispatchesAreScans(n, ss, ms);
    forall t, k | 0 <= t < |ms| && 0 <= k < n ensures k in open[t] {
      assert IsOpen(ss[t], ms[t], k);
    }
    TurnsShareEqually(n, cursors, open, Picks(n, ss, ms), i, j);
  }

  // ----- cooldowns -----

  /** What touches the cooldowns: scans, ends of queries, and status reports. */
  datatype Touch =
    | Scan(clients: seq<Client>, now: nat)
    | Done(i: nat, begun: Gen, error: Option<Kind>, gen: Gen, now: nat)
    | Look(clients: seq<Client>, now: nat)

  predicate Transient(error: Option<Kind>) {
    error == Some(Transport) || error == Some(Timeout) || error == Some(Maintenance)
  }

  ghost predicate Touched(n: nat, before: seq<Option<Cooldown>>, e: Touch, after: seq<Option<Cooldown>>) {
    && |before| == |after| == n
    && match e
       case Done(i, begun, error, gen, now) =>
         && i < n
         && after == before[i := if n > 1 && gen == begun && Transient(error)
                                 then Some(Cooldown(now + COOLDOWN, begun, error.value)) else before[i]]
       case Scan(clients, now) => |clients| == n && Calmed(before, after, clients, now)
       case Look(clients, now) => |clients| == n && Calmed(before, after, clients, now)
  }

  /** The event sees member m in generation g. */
  predicate Sees(e: Touch, m: nat, g: Gen) {
    match e
    case Done(i, begun, _, gen, _) => i == m ==> gen == g
    case Scan(clients, _) => m < |clients| && clients[m].gen == g
    case Look(clients, _) => m < |clients| && clients[m].gen == g
  }

  /** A cooldown set at time `since` lasts five seconds, whatever is scanned, reported or
      fails in between, while the member's generation stays. */
  lemma {:induction false} CooldownLasts(n: nat, cds: seq<seq<Option<Cooldown>>>, es: seq<Touch>, k: nat, m: nat,
                                         g: Gen, since: nat)
    requires |cds| == |es| + 1 && k <= |es| && m < n
    requires forall t {:trigger es[t]} :: 0 <= t < |es| ==> Touched(n, cds[t], es[t], cds[t + 1]) && Sees(es[t], m, g)
    requires forall t :: 0 <= t < |es| ==> since <= es[t].now < since + 5_000
    requires |cds[0]| == n && cds[0][m].Some? && cds[0][m].value.gen == g && cds[0][m].value.until >= since + 5_000
    ensures |cds[k]| == n && cds[k][m].Some? && cds[k][m].value.gen == g && cds[k][m].value.until >= since + 5_000
  {
    if k > 0 {
      CooldownLasts(n, cds, es, k - 1, m, g, since);
      var e := es[k - 1];
      assert Touched(n, cds[k - 1], e, cds[k]);
    }
  }

  /** A cooling member is not chosen. */
  lemma CoolingIsNotChosen(s: State, clients: seq<Client>, now: nat, m: nat)
    requires Valid(s) && |clients| == |s.cooldowns| && |clients| > 1 && m < |clients|
    requires Cooling(s.cooldowns[m], clients[m].gen, now)
    ensures Dispatched(s, clients, now).0 != Ok(m)
  {
    ScanIsTurn(s, clients, now);
  }

  /** After a transient failure a member is not chosen for five seconds, unless its
      generation changes in the meantime. */
  lemma FailedMemberRests(n: nat, cds: seq<seq<Option<Cooldown>>>, es: seq<Touch>, m: nat, g: Gen, since: nat,
                          s: State, clients: seq<Client>, now: nat)
    requires n > 1 && m < n && |es| > 0 && |cds| == |es| + 1
    requires forall t {:trigger es[t]} :: 0 <= t < |es| ==> Touched(n, cds[t], es[t], cds[t + 1])
    requires es[0].Done? && es[0].i == m && es[0].begun == es[0].gen == g && es[0].now == since
    requires Transient(es[0].error)
    requires forall t {:trigger es[t]} :: 0 < t < |es| ==> Sees(es[t], m, g) && since <= es[t].now < since + 5_000
    requires Valid(s) && s.cooldowns == cds[|es|] && |clients| == |s.cooldowns| == n && clients[m].gen == g
    requires now < since + 5_000
    ensures Dispatched(s, clients, now).0 != Ok(m)
  {
    assert Touched(n, cds[0], es[0], cds[1]);
    forall t {:trigger es[1..][t]} | 0 <= t < |es[1..]|
      ensures Touched(n, cds[1..][t], es[1..][t], cds[1..][t + 1]) && Sees(es[1..][t], m, g)
    {
      assert es[1..][t] == es[t + 1];
    }
    CooldownLasts(n, cds[1..], es[1..], |es| - 1, m, g, since);
    CoolingIsNotChosen(s, clients, now, m);
  }
}
