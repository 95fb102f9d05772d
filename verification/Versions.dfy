/** Version texts (client/src/versions.rs, client/src/jp.rs): which ones are accepted,
    the patch releases that follow one, and the JP asset selection. */
module Versions {
  import opened Basics
  import opened Splitting

  predicate Digit(c: char) { '0' <= c <= '9' }

  predicate LowerHex(c: char) { Digit(c) || 'a' <= c <= 'f' }

  /** ASCII letters, digits and the three separators. */
  predicate Plain(c: char) {
    Digit(c) || 'a' <= c <= 'z' || 'A' <= c <= 'Z' || c == '.' || c == '_' || c == '-'
  }

  /** Text that can be an HTTP/2 metadata value. */
  predicate HeaderText(s: string) {
    forall k :: 0 <= k < |s| ==> ' ' <= s[k] <= '~' || s[k] == '\t'
  }

  predicate Valid(s: string) {
    && 0 < |s| <= 128 && s != "." && s != ".."
    && forall k :: 0 <= k < |s| ==> Plain(s[k])
  }

  predicate Digits(s: string) {
    s != "" && forall k :: 0 <= k < |s| ==> Digit(s[k])
  }

  function Number(s: string): nat
    requires forall k :: 0 <= k < |s| ==> Digit(s[k])
  {
    if s == [] then 0 else
      assert Digit(s[|s| - 1]);
      10 * Number(s[..|s| - 1]) + (s[|s| - 1] - '0') as nat
  }

  function Decimal(n: nat): (s: string)
    ensures Digits(s)
  {
    var last := ['0' + (n % 10) as char];
    if n < 10 then last else Decimal(n / 10) + last
  }

  lemma {:induction false} DecimalNumber(n: nat)
    ensures Number(Decimal(n)) == n
  {
    var s := Decimal(n);
    if n < 10 {
      assert s[..0] == [];
    } else {
      DecimalNumber(n / 10);
      assert s[..|s| - 1] == Decimal(n / 10);
    }
  }

  function Pow10(k: nat): nat {
    if k == 0 then 1 else 10 * Pow10(k - 1)
  }

  lemma {:induction false} DecimalLength(n: nat, k: nat)
    requires k > 0
    ensures |Decimal(n)| <= k <==> n < Pow10(k)
  {
    if k == 1 {
      assert Pow10(1) == 10;
    } else if n >= 10 {
      DecimalLength(n / 10, k - 1);
    } else {
      AtLeastTen(k);
    }
  }

  lemma {:induction false} AtLeastTen(k: nat)
    requires k > 0
    ensures Pow10(k) >= 10
  {
    if k > 1 { AtLeastTen(k - 1); }
  }

  // ----- patch releases -----

  const U32_MAX := 0xFFFF_FFFF
  const I32_MAX := 0x7FFF_FFFF

  predicate PatchPart(s: string) {
    Digits(s) && |s| <= 9
  }

  function PatchVersion(s: string): Option<(nat, nat, nat)> {
    var parts := Split(s, '.');
    if |parts| == 3 && PatchPart(parts[0]) && PatchPart(parts[1]) && PatchPart(parts[2])
    then Some((Number(parts[0]), Number(parts[1]), Number(parts[2])))
    else None
  }

  function Format(major: nat, minor: nat, patch: nat): string {
    Decimal(major) + "." + Decimal(minor) + "." + Decimal(patch)
  }

  /** The next `count` patch numbers that fit in 32 bits. */
  function PatchSuccessors(current: string, count: nat): seq<string> {
    match PatchVersion(current)
    case None => []
    case Some((major, minor, patch)) =>
      var fitting := if patch + count <= U32_MAX then count else if patch <= U32_MAX then U32_MAX - patch else 0;
      seq(fitting, step requires 0 <= step => Format(major, minor, patch + 1 + step))
  }

  lemma FormatSplits(major: nat, minor: nat, patch: nat)
    ensures Split(Format(major, minor, patch), '.') == [Decimal(major), Decimal(minor), Decimal(patch)]
  {
    var a, b, c := Decimal(major), Decimal(minor), Decimal(patch);
    var parts := [a, b, c];
    assert parts[1..] == [b, c] && parts[1..][1..] == [c];
    assert Join([b, c], '.') == b + ['.'] + c;
    assert Format(major, minor, patch) == Join(parts, '.');
    SplitJoin(parts, '.');
  }

  /** A formatted version is read back, unless one of its numbers has ten digits. */
  lemma FormatParses(major: nat, minor: nat, patch: nat)
    ensures PatchVersion(Format(major, minor, patch)) ==
      if major < 1_000_000_000 && minor < 1_000_000_000 && patch < 1_000_000_000 then Some((major, minor, patch))
      else None
  {
    FormatSplits(major, minor, patch);
    DecimalNumber(major); DecimalNumber(minor); DecimalNumber(patch);
    DecimalLength(major, 9); DecimalLength(minor, 9); DecimalLength(patch, 9);
    assert Pow10(9) == 1_000_000_000 by {
      assert Pow10(3) == 1000;
      assert Pow10(6) == 1000 * Pow10(3);
      assert Pow10(9) == 1000 * Pow10(6);
    }
  }

  lemma {:induction false} NumberBound(s: string)
    requires forall k :: 0 <= k < |s| ==> Digit(s[k])
    ensures Number(s) < Pow10(|s|)
  {
    if s != [] { NumberBound(s[..|s| - 1]); }
  }

  lemma {:induction false} PowMonotone(a: nat, b: nat)
    requires a <= b
    ensures Pow10(a) <= Pow10(b)
  {
    if a < b { PowMonotone(a, b - 1); }
  }

  lemma PatchPartBound(s: string)
    requires PatchPart(s)
    ensures Number(s) < 1_000_000_000
  {
    NumberBound(s);
    PowMonotone(|s|, 9);
    assert Pow10(9) == 1_000_000_000 by {
      assert Pow10(3) == 1000;
      assert Pow10(6) == 1000 * Pow10(3);
      assert Pow10(9) == 1000 * Pow10(6);
    }
  }

  /** The k-th candidate is the k-th next patch release, and adopting it is possible
      exactly when its patch number still has at most nine digits: the candidates
      after 1.0.999999999 are generated but refused by the version check. */
  lemma SuccessorsAdoptable(current: string, count: nat, k: nat)
    requires PatchVersion(current).Some? && k < |PatchSuccessors(current, count)|
    ensures var (major, minor, patch) := PatchVersion(current).value;
            && PatchSuccessors(current, count)[k] == Format(major, minor, patch + 1 + k)
            && (PatchVersion(PatchSuccessors(current, count)[k]) == Some((major, minor, patch + 1 + k))
                <==> patch + 1 + k < 1_000_000_000)
            && (PatchVersion(PatchSuccessors(current, count)[k]).None? <==> patch + 1 + k >= 1_000_000_000)
  {
    var (major, minor, patch) := PatchVersion(current).value;
    var parts := Split(current, '.');
    PatchPartBound(parts[0]);
    PatchPartBound(parts[1]);
    FormatParses(major, minor, patch + 1 + k);
  }

  /** There are as many candidates as asked for, or as fit in 32 bits; none after a text that
      is not a patch version. */
  lemma SuccessorsCounted(current: string, count: nat)
    ensures |PatchSuccessors(current, count)| ==
      match PatchVersion(current)
      case None => 0
      case Some((_, _, patch)) => if count <= 0xFFFF_FFFF - patch then count else 0xFFFF_FFFF - patch
  {
    if PatchVersion(current).Some? {
      PatchPartBound(Split(current, '.')[2]);
    }
  }

  lemma LastPatchHasNoAdoptableSuccessor()
    ensures PatchSuccessors(Format(1, 0, 999_999_999), 3) != []
    ensures forall k :: 0 <= k < |PatchSuccessors(Format(1, 0, 999_999_999), 3)| ==>
              PatchVersion(PatchSuccessors(Format(1, 0, 999_999_999), 3)[k]).None?
  {
    FormatParses(1, 0, 999_999_999);
    forall k | 0 <= k < |PatchSuccessors(Format(1, 0, 999_999_999), 3)|
      ensures PatchVersion(PatchSuccessors(Format(1, 0, 999_999_999), 3)[k]).None?
    {
      SuccessorsAdoptable(Format(1, 0, 999_999_999), 3, k);
    }
  }

  /** The parser itself, filling its three numbers in order. */
  method ParsePatch(value: string) returns (out: Option<(nat, nat, nat)>)
    ensures out == PatchVersion(value)
  {
    var numbers := new nat[3];
    var rest := Some(value);
    ghost var parts := Split(value, '.');
    for k := 0 to 3
      invariant fresh(numbers)
      invariant k <= |parts| && (rest.None? <==> k == |parts|)
      invariant rest.Some? ==> parts[k..] == Split(rest.value, '.')
      invariant forall j :: 0 <= j < k ==> PatchPart(parts[j]) && numbers[j] == Number(parts[j])
    {
      if rest.None? { return None; }
      var (text, after) := Cut(rest.value, '.');
      assert parts[k..][0] == text;
      assert parts[k + 1..] == parts[k..][1..];
      if text == "" || |text| > 9 || exists j :: 0 <= j < |text| && !Digit(text[j]) { return None; }
      numbers[k] := Number(text);
      rest := after;
    }
    out := if rest.None? then Some((numbers[0], numbers[1], numbers[2])) else None;
  }

  // ----- JP versions -----

  type Quad = (nat, nat, nat, nat)

  predicate NumericPart(s: string) {
    Digits(s) && Number(s) <= I32_MAX
  }

  /** Two to four numbers, missing ones zero. */
  function NumericVersion(s: string): Option<Quad> {
    var p := Split(s, '.');
    if 2 <= |p| <= 4 && forall k :: 0 <= k < |p| ==> NumericPart(p[k]) then
      Some((Number(p[0]), Number(p[1]), if |p| > 2 then Number(p[2]) else 0, if |p| > 3 then Number(p[3]) else 0))
    else None
  }

  predicate ValidMaster(s: string) {
    var (release, hash) := Cut(s, '/');
    && hash.Some? && |s| <= 128 && NumericVersion(release).Some?
    && |hash.value| == 32 && forall k :: 0 <= k < 32 ==> LowerHex(hash.value[k])
  }

  lemma {:induction false} NoSlashIn(numbers: seq<nat>)
    requires numbers != []
    ensures '/' !in Join(Decimals(numbers), '.')
  {
    if |numbers| > 1 {
      NoSlashIn(numbers[1..]);
      assert Decimals(numbers)[1..] == Decimals(numbers[1..]);
      assert Digits(Decimals(numbers)[0]);
    }
  }

  /** A master version is accepted exactly if it is a version of two to four numbers, a
      slash and 32 lower-case hexadecimal digits, and not too long. */
  lemma MasterReads(numbers: seq<nat>, hash: string)
    requires numbers != []
    ensures ValidMaster(Join(Decimals(numbers), '.') + "/" + hash) <==>
      && 2 <= |numbers| <= 4 && (forall k :: 0 <= k < |numbers| ==> numbers[k] < 0x8000_0000)
      && |hash| == 32 && (forall k :: 0 <= k < 32 ==> hash[k] in "0123456789abcdef")
      && |Join(Decimals(numbers), '.')| + 33 <= 128
  {
    var release := Join(Decimals(numbers), '.');
    NoSlashIn(numbers);
    CutAt(release, '/', hash);
    assert release + ['/'] + hash == release + "/" + hash;
    NumericVersionReads(numbers);
  }

  predicate Less(a: Quad, b: Quad) {
    || a.0 < b.0
    || (a.0 == b.0 && (a.1 < b.1 || (a.1 == b.1 && (a.2 < b.2 || (a.2 == b.2 && a.3 < b.3)))))
  }

  function Parts(q: Quad): seq<nat> {
    [q.0, q.1, q.2, q.3]
  }

  /** Versions are ordered by the first number that differs. */
  lemma LessAtFirstDifference(a: Quad, b: Quad)
    ensures Less(a, b) <==> exists k :: 0 <= k < 4 && Parts(a)[..k] == Parts(b)[..k] && Parts(a)[k] < Parts(b)[k]
  {
    var x, y := Parts(a), Parts(b);
    assert x[..0] == y[..0];
    if Less(a, b) {
      var k := if a.0 != b.0 then 0 else if a.1 != b.1 then 1 else if a.2 != b.2 then 2 else 3;
      assert forall j :: 0 <= j < k ==> x[j] == y[j];
      assert x[..k] == y[..k] && x[k] < y[k];
    }
    forall k | 0 <= k < 4 && x[..k] == y[..k] && x[k] < y[k] ensures Less(a, b) {
      assert forall j :: 0 <= j < k ==> x[..k][j] == y[..k][j];
      assert forall j :: 0 <= j < k ==> x[j] == y[j];
      assert (k > 0 ==> x[0] == y[0]) && (k > 1 ==> x[1] == y[1]) && (k > 2 ==> x[2] == y[2]);
    }
  }

  lemma {:induction false} DecimalsSplit(numbers: seq<nat>)
    requires numbers != []
    ensures Split(Join(Decimals(numbers), '.'), '.') == Decimals(numbers)
  {
    SplitJoin(Decimals(numbers), '.');
  }

  function Decimals(numbers: seq<nat>): seq<string> {
    seq(|numbers|, k requires 0 <= k < |numbers| => Decimal(numbers[k]))
  }

  /** Two to four numbers below 2^31, written with dots between them, are read as a version;
      missing ones are zero. Fewer, more or greater ones are not. */
  lemma NumericVersionReads(numbers: seq<nat>)
    requires numbers != []
    ensures NumericVersion(Join(Decimals(numbers), '.')) ==
      if 2 <= |numbers| <= 4 && forall k :: 0 <= k < |numbers| ==> numbers[k] < 0x8000_0000 then
        Some((numbers[0], numbers[1], if |numbers| > 2 then numbers[2] else 0, if |numbers| > 3 then numbers[3] else 0))
      else None
  {
    DecimalsSplit(numbers);
    forall k | 0 <= k < |numbers| ensures NumericPart(Decimals(numbers)[k]) <==> numbers[k] < 0x8000_0000 {
      DecimalNumber(numbers[k]);
    }
    forall k | 0 <= k < |numbers| ensures Number(Decimals(numbers)[k]) == numbers[k] {
      DecimalNumber(numbers[k]);
    }
  }

  predicate Eligible(mins: seq<Option<Quad>>, current: Quad, k: nat)
    requires k < |mins|
  {
    mins[k].Some? && !Less(current, mins[k].value)
  }

  /** The first entry with the greatest minimum client version that the client meets.
      `mins` holds the entries' parsed minima; unreadable ones are skipped. */
  method SelectAsset(mins: seq<Option<Quad>>, current: Quad) returns (best: Option<nat>)
    ensures best.None? ==> forall k :: 0 <= k < |mins| ==> !Eligible(mins, current, k)
    ensures best.Some? ==> best.value < |mins| && Eligible(mins, current, best.value)
    ensures best.Some? ==> forall k :: 0 <= k < |mins| && Eligible(mins, current, k) ==>
              !Less(mins[best.value].value, mins[k].value)
    ensures best.Some? ==> forall k :: 0 <= k < best.value && Eligible(mins, current, k) ==>
              Less(mins[k].value, mins[best.value].value)
  {
    best := None;
    for i := 0 to |mins|
      invariant best.None? ==> forall k :: 0 <= k < i ==> !Eligible(mins, current, k)
      invariant best.Some? ==> best.value < i && Eligible(mins, current, best.value)
      invariant best.Some? ==> forall k :: 0 <= k < i && Eligible(mins, current, k) ==>
                  !Less(mins[best.value].value, mins[k].value)
      invariant best.Some? ==> forall k :: 0 <= k < best.value && Eligible(mins, current, k) ==>
                  Less(mins[k].value, mins[best.value].value)
    {
      if mins[i].Some? && !Less(current, mins[i].value) && (best.None? || Less(mins[best.value].value, mins[i].value)) {
        best := Some(i);
      }
    }
  }

  // ----- accepted versions can be sent -----

  lemma ValidIsHeaderText(s: string)
    requires Valid(s)
    ensures HeaderText(s)
  {
  }

  lemma {:induction false} PartsAreHeaderText(s: string)
    requires forall k :: 0 <= k < |Split(s, '.')| ==> Digits(Split(s, '.')[k])
    ensures HeaderText(s) && s != ""
    decreases |s|
  {
    var (head, rest) := Cut(s, '.');
    CutParts(s, '.');
    assert Split(s, '.')[0] == head;
    if rest.Some? {
      forall k | 0 <= k < |Split(rest.value, '.')| ensures Digits(Split(rest.value, '.')[k]) {
        assert Split(rest.value, '.')[k] == Split(s, '.')[k + 1];
      }
      PartsAreHeaderText(rest.value);
    }
  }

  lemma PatchVersionIsHeaderText(s: string)
    requires PatchVersion(s).Some?
    ensures HeaderText(s) && s != ""
  {
    PartsAreHeaderText(s);
  }

  lemma MasterIsHeaderText(s: string)
    requires ValidMaster(s)
    ensures HeaderText(s)
  {
    var (release, hash) := Cut(s, '/');
    CutParts(s, '/');
    PartsAreHeaderText(release);
    forall k | 0 <= k < |s| ensures ' ' <= s[k] <= '~' || s[k] == '\t' {
      if k > |release| {
        assert s[k] == hash.value[k - |release| - 1];
      }
    }
  }
}
