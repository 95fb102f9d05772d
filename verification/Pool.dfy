/** Round robin over independent sessions (server/src/pool.rs): the scan from the
    shared cursor, skipped members and transient cooldowns. */
module Pool {
  import opened Basics
  import opened Errors

  const COOLDOWN: nat := 5_000   // milliseconds

  datatype Cooldown = Cooldown(until: nat, gen: Gen, kind: Kind)

  /** Per member: what its client says right now. */
  datatype Client = Client(gen: Gen, refused: Option<Kind>)

  datatype State = State(next: nat, cooldowns: seq<Option<Cooldown>>, requests: seq<nat>, errors: seq<nat>)

  predicate Valid(s: State) {
    && |s.cooldowns| == |s.requests| == |s.errors|
    && (|s.cooldowns| > 0 ==> s.next < |s.cooldowns|)
    && (|s.cooldowns| == 0 ==> s.next == 0)
  }

  // ----- the scan -----

  predicate Cooling(c: Option<Cooldown>, gen: Gen, now: nat) {
    c.Some? && c.value.gen == gen && now < c.value.until
  }

  /** Why a member is skipped; a single member never is. */
  function Reason(c: Option<Cooldown>, client: Client, size: nat, now: nat): Option<Kind> {
    if size <= 1 then None
    else if Cooling(c, client.gen, now) then Some(c.value.kind)
    else client.refused
  }

  function Skipped(s: State, clients: seq<Client>, now: nat, i: nat): Option<Kind>
    requires i < |clients| == |s.cooldowns|
  {
    Reason(s.cooldowns[i], clients[i], |clients|, now)
  }

  /** Cooldowns may be dropped once they no longer apply. */
  ghost predicate Calmed(before: seq<Option<Cooldown>>, after: seq<Option<Cooldown>>, clients: seq<Client>, now: nat) {
    && |after| == |before| == |clients|
    && forall i :: 0 <= i < |before| && after[i] != before[i] ==>
         after[i].None? && !Cooling(before[i], clients[i].gen, now)
  }

  function Position(next: nat, offset: nat, n: nat): nat
    requires n > 0
  {
    (next + offset) % n
  }

  /** The number of members skipped before the chosen one; n if all are. */
  function Passed(s: State, clients: seq<Client>, now: nat, offset: nat): nat
    requires offset <= |clients| == |s.cooldowns|
    ensures offset <= Passed(s, clients, now, offset) <= |clients|
    decreases |clients| - offset
  {
    if offset == |clients| then offset
    else if Skipped(s, clients, now, Position(s.next, offset, |clients|)).None? then offset
    else Passed(s, clients, now, offset + 1)
  }

  /** The outcome of a scan, and the cursor after it. */
  function Dispatched(s: State, clients: seq<Client>, now: nat): (Result<nat, Kind>, nat)
    requires |clients| == |s.cooldowns|
  {
    var n := |clients|;
    var k := Passed(s, clients, now, 0);
    if k < n then (Ok(Position(s.next, k, n)), Position(Position(s.next, k, n), 1, n))
    else if n == 0 then (Err(AuthenticationRequired), s.next)
    else
      var first := Skipped(s, clients, now, Position(s.next, 0, n));
      (Err(if first.Some? then first.value else AuthenticationRequired), s.next)
  }

  class SessionPool {
    const size: nat
    var next: nat
    var cooldowns: array<Option<Cooldown>>
    var requests: array<nat>
    var errors: array<nat>

    ghost predicate Owns()
      reads this
    {
      && cooldowns.Length == requests.Length == errors.Length == size && requests != errors
      && (if size > 0 then next < size else next == 0)
    }

    function Abs(): State
      reads this, cooldowns, requests, errors
    {
      State(next, cooldowns[..], requests[..], errors[..])
    }

    constructor (size: nat)
      ensures Owns() && fresh(cooldowns) && fresh(requests) && fresh(errors) && this.size == size
      ensures next == 0 && forall i :: 0 <= i < size ==> cooldowns[i].None? && requests[i] == 0 && errors[i] == 0
    {
      this.size := size;
      next := 0;
      cooldowns := new Option<Cooldown>[size](_ => None);
      requests := new nat[size](_ => 0);
      errors := new nat[size](_ => 0);
    }

    /** Drops a cooldown that no longer applies. */
    method CooldownError(i: nat, gen: Gen, now: nat) returns (kind: Option<Kind>)
      requires Owns() && i < size
      modifies cooldowns
      ensures kind == if Cooling(old(cooldowns[i]), gen, now) then Some(old(cooldowns[i]).value.kind) else None
      ensures cooldowns[..] == old(cooldowns[..])[i := if kind.Some? then old(cooldowns[i]) else None]
    {
      if cooldowns[i].Some? {
        var c := cooldowns[i].value;
        if c.gen == gen && now < c.until { return Some(c.kind); }
        cooldowns[i] := None;
      }
      kind := None;
    }

    method Probe(i: nat, client: Client, now: nat) returns (error: Option<Kind>)
      requires Owns() && i < size
      modifies cooldowns
      ensures error == Reason(old(cooldowns[i]), client, size, now)
      ensures
        || cooldowns[..] == old(cooldowns[..])
        || (!Cooling(old(cooldowns[i]), client.gen, now) && cooldowns[..] == old(cooldowns[..])[i := None])
    {
      error := None;
      if size > 1 {
        error := CooldownError(i, client.gen, now);
        if error.None? { error := client.refused; }
      }
    }

    /** Choose a member and move the cursor behind it, or keep the cursor and report the
        first error in rotation order. */
    method Choose(clients: seq<Client>, now: nat) returns (chosen: Result<nat, Kind>)
      requires Owns() && |clients| == size
      modifies this`next, cooldowns, requests
      ensures Owns() && Calmed(old(cooldowns[..]), cooldowns[..], clients, now) && errors[..] == old(errors[..])
      ensures Dispatched(old(Abs()), clients, now) == (chosen, next)
      ensures requests[..] ==
        if chosen.Ok? then old(requests[..])[chosen.value := old(requests[..])[chosen.value] + 1]
        else old(requests[..])
    {
      ghost var s := Abs();
      var first: Option<Kind> := None;
      var offset := 0;
      while offset < size
        invariant offset <= size && next == s.next && requests[..] == s.requests
        invariant Calmed(s.cooldowns, cooldowns[..], clients, now)
        invariant Passed(s, clients, now, 0) == Passed(s, clients, now, offset)
        invariant offset == 0 ==> first.None?
        invariant offset > 0 ==> first.Some? && first == Skipped(s, clients, now, Position(s.next, 0, size))
      {
        var index := Position(next, offset, size);
        assert Reason(cooldowns[..][index], clients[index], size, now) == Skipped(s, clients, now, index);
        var error := Probe(index, clients[index], now);
        if error.Some? {
          if first.None? { first := error; }
        } else {
          next := Position(index, 1, size);
          requests[index] := requests[index] + 1;
          return Ok(index);
        }
        offset := offset + 1;
      }
      chosen := Err(if first.Some? then first.value else AuthenticationRequired);
    }

    /** After a query on member i that began in `begun`: transient failures cool it down. */
    method Completed(i: nat, begun: Gen, error: Option<Kind>, gen: Gen, now: nat)
      requires Owns() && i < size
      modifies cooldowns, errors
      ensures Owns() && errors[..] == old(errors[..])[i := old(errors[i]) + if error.Some? then 1 else 0]
      ensures cooldowns[..] == old(cooldowns[..])[i :=
                if size > 1 && gen == begun && error.Some? && error.value in {Transport, Timeout, Maintenance}
                then Some(Cooldown(now + 5_000, begun, error.value)) else old(cooldowns[i])]
    {
      if error.Some? {
        errors[i] := errors[i] + 1;
        if size > 1 && (error.value == Transport || error.value == Timeout || error.value == Maintenance)
           && gen == begun {
          cooldowns[i] := Some(Cooldown(now + COOLDOWN, begun, error.value));
        }
      }
    }
  }
}
