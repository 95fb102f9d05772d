/** Values shared by every component of the model. */
module Basics {
  datatype Option<+T> = None | Some(value: T)

  datatype Result<+T, +E> = Ok(value: T) | Err(error: E)

  /** Generations are random identifiers in the program; here each new one is the
      next unused number, which is all that freshness means. */
  type Gen = nat

  /** What holds at first and is kept by every step holds all along. */
  lemma {:induction false} AllAlong<S>(ss: seq<S>, inv: S -> bool, k: nat)
    requires k < |ss| && inv(ss[0])
    requires forall i {:trigger ss[i]} :: 0 <= i < |ss| - 1 && inv(ss[i]) ==> inv(ss[i + 1])
    ensures inv(ss[k])
  {
    if k > 0 {
      AllAlong(ss, inv, k - 1);
      assert inv(ss[k - 1]) ==> inv(ss[k - 1 + 1]);
    }
  }

  /** `on` held at some time before n, and `off` never after that. */
  ghost predicate Since(on: nat -> bool, off: nat -> bool, n: nat) {
    exists i: nat :: i < n && on(i) && forall j: nat :: i < j < n ==> !off(j)
  }

  /** What is switched on and off step by step holds exactly since it was last switched on. */
  lemma {:induction false} LatchedSince(now: nat -> bool, on: nat -> bool, off: nat -> bool, n: nat)
    requires !now(0) && forall k: nat :: k < n ==> (now(k + 1) <==> on(k) || (now(k) && !off(k)))
    ensures now(n) <==> Since(on, off, n)
  {
    if n > 0 {
      LatchedSince(now, on, off, n - 1);
      assert now(n - 1 + 1) <==> on(n - 1) || (now(n - 1) && !off(n - 1));
      if Since(on, off, n - 1) && !off(n - 1) {
        var i: nat :| i < n - 1 && on(i) && forall j: nat :: i < j < n - 1 ==> !off(j);
        assert forall j: nat :: i < j < n ==> !off(j);
      }
      if Since(on, off, n) && !on(n - 1) {
        var i: nat :| i < n && on(i) && forall j: nat :: i < j < n ==> !off(j);
        assert i < n - 1 && forall j: nat :: i < j < n - 1 ==> !off(j);
      }
    }
  }
}
