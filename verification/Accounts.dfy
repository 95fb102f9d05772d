/** server/src/accounts.rs: what is hashed to name accounts and their directories. */
module Accounts {
  import opened Bytes

  function Pow256(k: nat): nat {
    if k == 0 then 1 else 256 * Pow256(k - 1)
  }

  /** The low k bytes of n, the most significant first. */
  function BigEndian(n: nat, k: nat): (s: seq<Byte>)
    ensures |s| == k
  {
    if k == 0 then [] else BigEndian(n / 256, k - 1) + [n % 256]
  }

  lemma {:induction false} BigEndianTells(a: nat, b: nat, k: nat)
    requires a < Pow256(k) && b < Pow256(k) && BigEndian(a, k) == BigEndian(b, k)
    ensures a == b
  {
    if k > 0 {
      assert BigEndian(a, k)[..k - 1] == BigEndian(a / 256, k - 1);
      assert BigEndian(b, k)[..k - 1] == BigEndian(b / 256, k - 1);
      assert BigEndian(a, k)[k - 1] == a % 256 && BigEndian(b, k)[k - 1] == b % 256;
      BigEndianTells(a / 256, b / 256, k - 1);
    }
  }

  function Read(s: seq<Byte>): nat {
    if s == [] then 0 else 256 * Read(s[..|s| - 1]) + s[|s| - 1]
  }

  /** The bytes are read back as the number, the most significant first. */
  lemma {:induction false} BigEndianReadsBack(n: nat, k: nat)
    requires n < Pow256(k)
    ensures Read(BigEndian(n, k)) == n
  {
    if k > 0 {
      BigEndianReadsBack(n / 256, k - 1);
      assert BigEndian(n, k)[..k - 1] == BigEndian(n / 256, k - 1);
    }
  }

  /** The bytes given to the hash: every part after its length. */
  function Preimage(parts: seq<seq<Byte>>): seq<Byte> {
    if parts == [] then [] else BigEndian(|parts[0]|, 8) + parts[0] + Preimage(parts[1..])
  }

  predicate Sized(parts: seq<seq<Byte>>) {
    forall p :: p in parts ==> |p| < Pow256(8)
  }

  lemma FirstPart(a: seq<seq<Byte>>)
    requires a != []
    ensures Preimage(a)[..8] == BigEndian(|a[0]|, 8)
    ensures Preimage(a)[8..8 + |a[0]|] == a[0] && Preimage(a)[8 + |a[0]|..] == Preimage(a[1..])
  {
  }

  /** Different lists of parts are never hashed alike: moving a byte from one part to the
      next, or splitting a part, changes what is hashed. So two accounts, or one account
      in two regions, share a state directory only if the hash collides. */
  lemma {:induction false} PreimageTells(a: seq<seq<Byte>>, b: seq<seq<Byte>>)
    requires Sized(a) && Sized(b) && Preimage(a) == Preimage(b)
    ensures a == b
  {
    if a != [] && b != [] {
      FirstPart(a);
      FirstPart(b);
      assert a[0] in a && b[0] in b;
      BigEndianTells(|a[0]|, |b[0]|, 8);
      PreimageTells(a[1..], b[1..]);
      assert a == [a[0]] + a[1..];
    } else if a != [] {
      FirstPart(a);
    } else if b != [] {
      FirstPart(b);
    }
  }
}
