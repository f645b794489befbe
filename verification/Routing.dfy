/**
 Model of the try-order in internal/routing/routing.go: tiers in priority
 order, each ordered by round robin, by free slots, or by least cost with the
 ties rotated. Prices and availabilities are reals, and a price may be
 infinite; a tick is a natural number, so the wrap of the counter is not modelled.
 */
module Routing {
  import opened Common
  import opened Sorting

  datatype Target = Target(provider: string, model: string, tier: int)

  datatype Price = Finite(amount: real) | Infinite

  datatype Rank = Rank(price: Price, availability: real)

  datatype Mode = ByPrice | ByAvailability | ByBoth

  datatype Strategy = RoundRobin | LeastBusy | LeastCost(mode: Mode, minAvail: real)

  predicate Cheaper(a: Price, b: Price) {
    a.Finite? && (b.Infinite? || a.amount < b.amount)
  }

  predicate LessLcr(a: Rank, b: Rank, mode: Mode, minAvail: real) {
    match mode
    case ByAvailability => a.availability > b.availability
    case ByBoth =>
      var ga, gb := a.availability >= minAvail, b.availability >= minAvail;
      if ga != gb then ga else Cheaper(a.price, b.price)
    case ByPrice => Cheaper(a.price, b.price)
  }

  predicate TiedLcr(a: Rank, b: Rank, mode: Mode, minAvail: real) {
    match mode
    case ByAvailability => a.availability == b.availability
    case ByBoth => (a.availability >= minAvail) == (b.availability >= minAvail) && a.price == b.price
    case ByPrice => a.price == b.price
  }

  function LessIn(mode: Mode, minAvail: real): (Rank, Rank) -> bool {
    (a: Rank, b: Rank) => LessLcr(a, b, mode, minAvail)
  }

  /** lessLCR is a strict weak order. */
  lemma {:induction false} LessIsStrictWeak(mode: Mode, minAvail: real)
    ensures StrictWeak(LessIn(mode, minAvail))
  {
    var less := LessIn(mode, minAvail);
    assert forall a, b :: less(a, b) <==> LessLcr(a, b, mode, minAvail);
    forall a, b, c | less(a, b) && less(b, c) ensures less(a, c) {
      assert LessLcr(a, b, mode, minAvail) && LessLcr(b, c, mode, minAvail);
    }
    forall a, b, c | less(a, c) ensures less(a, b) || less(b, c) {
      assert LessLcr(a, c, mode, minAvail);
    }
  }

  /** Two ranks tie exactly when neither is less. */
  lemma {:induction false} TiesAreExact(a: Rank, b: Rank, mode: Mode, minAvail: real)
    ensures TiedLcr(a, b, mode, minAvail) <==> !LessLcr(a, b, mode, minAvail) && !LessLcr(b, a, mode, minAvail)
  {
    if mode.ByBoth? || mode.ByPrice? {
      assert a.price == b.price <==> !Cheaper(a.price, b.price) && !Cheaper(b.price, a.price);
    }
  }

  /** a costs no more than b; nothing costs more than an infinite price. */
  ghost predicate NoDearer(a: Price, b: Price) {
    b.Finite? ==> a.Finite? && a.amount <= b.amount
  }

  /**
   What each mode promises of a rank that comes before another: it is no dearer; it is no less
   available; or it does not fall below the threshold where the other is above it, and is no dearer when both
   are on one side.
   */
  ghost predicate MayPrecede(a: Rank, b: Rank, mode: Mode, minAvail: real) {
    match mode
    case ByPrice => NoDearer(a.price, b.price)
    case ByAvailability => b.availability <= a.availability
    case ByBoth =>
      && !(a.availability < minAvail && minAvail <= b.availability)
      && (a.availability < minAvail && b.availability < minAvail ==> NoDearer(a.price, b.price))
      && (minAvail <= a.availability && minAvail <= b.availability ==> NoDearer(a.price, b.price))
  }

  /** The comparison of the sort is what the mode promises. */
  lemma {:induction false} NotLessMeans(a: Rank, b: Rank, mode: Mode, minAvail: real)
    ensures !LessLcr(b, a, mode, minAvail) <==> MayPrecede(a, b, mode, minAvail)
  {
    assert !Cheaper(b.price, a.price) <==> NoDearer(a.price, b.price);
    match mode
    case ByPrice =>
    case ByAvailability =>
    case ByBoth =>
  }

  // ---------- rotation ----------

  /** s turned so that its element k comes first. */
  function Rotated<T>(s: seq<T>, k: nat): (out: seq<T>)
    ensures |out| == |s|
  {
    if k <= |s| then s[k..] + s[..k] else s
  }

  /** How tick r turns a group. */
  function Spin<T>(r: nat): seq<T> -> seq<T> {
    (s: seq<T>) => if s == [] then s else Rotated(s, r % |s|)
  }

  lemma {:induction false} RotatedPermutes<T>(s: seq<T>, k: nat)
    ensures multiset(Rotated(s, k)) == multiset(s)
  {
    if k <= |s| {
      assert s == s[..k] + s[k..];
    }
  }

  lemma {:induction false} Times(x: int, n: nat)
    requires x >= 1
    ensures x * n >= n
  {
  }

  lemma {:induction false} NextMultiple(a: int, b: int, n: nat)
    requires a < b
    ensures a * n + n <= b * n
  {
    var d := b - a;
    Times(d, n);
    assert b * n == a * n + d * n by {
      assert b == a + d;
    }
  }

  /** A quotient and remainder are the only ones. */
  lemma {:induction false} ModIs(x: int, n: nat, q: int, m: int)
    requires n > 0 && x == q * n + m && 0 <= m < n
    ensures x % n == m
  {
    var d, e := x / n, x % n;
    assert x == d * n + e;
    if d < q {
      NextMultiple(d, q, n);
    } else if d > q {
      NextMultiple(q, d, n);
    }
  }

  lemma {:induction false} NextTurn(x: nat, k: nat)
    requires k > 0
    ensures (x + k) % k == x % k
  {
    var q := x / k;
    assert x == q * k + x % k;
    assert x + k == (q + 1) * k + x % k;
    ModIs(x + k, k, q + 1, x % k);
  }

  lemma {:induction false} SameTurn(x: nat, k: nat, m: nat)
    requires m < k
    ensures x - x % k + m >= 0 && (x - x % k + m) % k == m
  {
    var q := x / k;
    assert x - x % k == q * k;
    ModIs(q * k + m, k, q, m);
  }

  /** In k ticks in a row, each residue comes up exactly once. */
  lemma {:induction false} EachResidueOnce(from: nat, k: nat, m: nat) returns (t: nat)
    requires m < k
    ensures from <= t < from + k && t % k == m
    ensures forall u :: from <= u < from + k && u % k == m ==> u == t
  {
    SameTurn(from, k, m);
    t := from - from % k + m;
    if t < from {
      NextTurn(t, k);
      t := t + k;
    }
    forall u | from <= u < from + k && u % k == m ensures u == t {
      SameResidue(u, t, k);
    }
  }

  lemma {:induction false} SameResidue(u: nat, t: nat, k: nat)
    requires k > 0 && u % k == t % k && u < t + k && t < u + k
    ensures u == t
  {
    var a, b, m := u / k, t / k, u % k;
    assert u == a * k + m && t == b * k + m;
    if a < b {
      NextMultiple(a, b, k);
    } else if b < a {
      NextMultiple(b, a, k);
    }
  }

  // ---------- runs of ties ----------

  /** The length of the run of elements tied with the first. */
  function RunLength<T>(s: seq<T>, tied: (T, T) -> bool, j: nat): (k: nat)
    requires 1 <= j <= |s|
    ensures j <= k <= |s|
    decreases |s| - j
  {
    if j < |s| && tied(s[0], s[j]) then RunLength(s, tied, j + 1) else j
  }

  function RotateRuns<T>(s: seq<T>, tied: (T, T) -> bool, spin: seq<T> -> seq<T>): seq<T>
    decreases |s|
  {
    if s == [] then []
    else
      var k := RunLength(s, tied, 1);
      spin(s[..k]) + RotateRuns(s[k..], tied, spin)
  }

  lemma {:induction false} RunLengthMeans<T>(s: seq<T>, tied: (T, T) -> bool, j: nat)
    requires 1 <= j <= |s|
    requires forall m :: 1 <= m < j ==> tied(s[0], s[m])
    ensures var k := RunLength(s, tied, j);
      (forall m :: 1 <= m < k ==> tied(s[0], s[m])) && (k < |s| ==> !tied(s[0], s[k]))
    decreases |s| - j
  {
    if j < |s| && tied(s[0], s[j]) {
      RunLengthMeans(s, tied, j + 1);
    }
  }

  lemma {:induction false} SameSize<T>(a: seq<T>, b: seq<T>)
    requires multiset(a) == multiset(b)
    ensures |a| == |b|
  {
    assert |multiset(a)| == |a| && |multiset(b)| == |b|;
  }

  lemma {:induction false} ConcatPermutes<T>(a: seq<T>, a': seq<T>, b: seq<T>, b': seq<T>)
    requires multiset(a) == multiset(a') && multiset(b) == multiset(b')
    ensures multiset(a + b) == multiset(a' + b')
  {
  }

  lemma {:induction false} RotateRunsUnfolds<T>(s: seq<T>, tied: (T, T) -> bool, spin: seq<T> -> seq<T>, k: nat)
    requires s != [] && k == RunLength(s, tied, 1)
    ensures RotateRuns(s, tied, spin) == spin(s[..k]) + RotateRuns(s[k..], tied, spin)
  {
  }

  /** spin only rearranges. */
  ghost predicate Rearranges<T(!new)>(spin: seq<T> -> seq<T>) {
    forall s {:trigger spin(s)} :: multiset(spin(s)) == multiset(s)
  }

  lemma {:induction false} SpinRearranges<T(!new)>(r: nat)
    ensures Rearranges<T>(Spin(r))
  {
    forall s: seq<T> ensures multiset(Spin(r)(s)) == multiset(s) {
      RotatedPermutes(s, if s == [] then 0 else r % |s|);
    }
  }

  lemma {:induction false} RotateRunsPermutes<T(!new)>(s: seq<T>, tied: (T, T) -> bool, spin: seq<T> -> seq<T>)
    requires Rearranges(spin)
    ensures multiset(RotateRuns(s, tied, spin)) == multiset(s) && |RotateRuns(s, tied, spin)| == |s|
    decreases |s|
  {
    if s != [] {
      var k := RunLength(s, tied, 1);
      var first, rest := s[..k], s[k..];
      RotateRunsPermutes(rest, tied, spin);
      RotateRunsUnfolds(s, tied, spin, k);
      assert s == first + rest;
    }
  }

  /** tied is what a strict weak order leaves undecided. */
  ghost predicate TiesOf<T(!new)>(tied: (T, T) -> bool, less: (T, T) -> bool) {
    forall a, b :: tied(a, b) <==> !less(a, b) && !less(b, a)
  }

  lemma {:induction false} TiedIsSorted<T(!new)>(a: seq<T>, x: T, tied: (T, T) -> bool, less: (T, T) -> bool)
    requires StrictWeak(less) && TiesOf(tied, less)
    requires forall i :: 0 <= i < |a| ==> tied(x, a[i])
    ensures SortedBy(a, less)
  {
    assert forall y, z :: less(y, z) ==> less(y, x) || less(x, z);
  }

  lemma {:induction false} SortedConcat<T>(a: seq<T>, b: seq<T>, less: (T, T) -> bool)
    requires SortedBy(a, less) && SortedBy(b, less)
    requires forall i, j :: 0 <= i < |a| && 0 <= j < |b| ==> !less(b[j], a[i])
    ensures SortedBy(a + b, less)
  {
  }

  lemma {:induction false} RotateRunsSorted<T(!new)>(s: seq<T>, tied: (T, T) -> bool, less: (T, T) -> bool, spin: seq<T> -> seq<T>)
    requires Rearranges(spin) && StrictWeak(less) && TiesOf(tied, less) && SortedBy(s, less)
    ensures SortedBy(RotateRuns(s, tied, spin), less)
    decreases |s|
  {
    if s != [] {
      var k := RunLength(s, tied, 1);
      RunLengthMeans(s, tied, 1);
      RotateRunsSorted(s[k..], tied, less, spin);
      var a, b := spin(s[..k]), RotateRuns(s[k..], tied, spin);
      RotateRunsPermutes(s[k..], tied, spin);
      forall i | 0 <= i < |a| ensures tied(s[0], a[i]) {
        SameMembers(a, s[..k], a[i]);
      }
      TiedIsSorted(a, s[0], tied, less);
      forall i, j | 0 <= i < |a| && 0 <= j < |b| ensures !less(b[j], a[i]) {
        SameMembers(a, s[..k], a[i]);
        SameMembers(b, s[k..], b[j]);
      }
      SortedConcat(a, b, less);
    }
  }

  /** Positions i to i + k are a run of ties in s that no neighbour belongs to. */
  ghost predicate IsRun<T>(s: seq<T>, tied: (T, T) -> bool, i: nat, k: nat) {
    && 0 < k && i + k <= |s|
    && (forall p :: i <= p < i + k ==> tied(s[i], s[p]))
    && (i + k < |s| ==> !tied(s[i], s[i + k]))
    && (i > 0 ==> !tied(s[i - 1], s[i]))
  }

  lemma {:induction false} RunFromStart<T(!new)>(s: seq<T>, tied: (T, T) -> bool, k: nat)
    requires IsRun(s, tied, 0, k)
    ensures RunLength(s, tied, 1) == k
  {
    RunLengthMeans(s, tied, 1);
  }

  /** An equivalence. */
  ghost predicate Equivalence<T(!new)>(tied: (T, T) -> bool) {
    && (forall a :: tied(a, a))
    && (forall a, b :: tied(a, b) ==> tied(b, a))
    && (forall a, b, c :: tied(a, b) && tied(b, c) ==> tied(a, c))
  }

  lemma {:induction false} TiesAreEquivalence<T(!new)>(tied: (T, T) -> bool, less: (T, T) -> bool)
    requires StrictWeak(less) && TiesOf(tied, less)
    ensures Equivalence(tied)
  {
    forall a, b, c | tied(a, b) && tied(b, c) ensures tied(a, c) {
      assert less(a, c) ==> less(a, b) || less(b, c);
      assert less(c, a) ==> less(c, b) || less(b, a);
    }
  }

  lemma {:induction false} RunAfter<T(!new)>(s: seq<T>, tied: (T, T) -> bool, l: nat, i: nat, k: nat)
    requires IsRun(s, tied, i, k) && l <= i
    ensures IsRun(s[l..], tied, i - l, k)
  {
  }

  lemma {:induction false} SliceBefore<T>(a: seq<T>, b: seq<T>, i: nat, j: nat)
    requires i <= j <= |a|
    ensures (a + b)[i..j] == a[i..j]
  {
  }

  /** A later run does not begin inside the first. */
  lemma {:induction false} RunStartsLater<T(!new)>(s: seq<T>, tied: (T, T) -> bool, i: nat, k: nat)
    requires Equivalence(tied) && IsRun(s, tied, i, k) && i > 0
    ensures RunLength(s, tied, 1) <= i
  {
    RunLengthMeans(s, tied, 1);
    var x, y, z := s[0], s[i - 1], s[i];
    assert !tied(y, z) && tied(x, x);
    assert tied(x, y) && tied(x, z) ==> tied(y, x) && tied(y, z);
  }

  /** Walking s run by run comes to a run of k elements at place i. */
  ghost predicate ReachesRun<T>(s: seq<T>, tied: (T, T) -> bool, i: nat, k: nat)
    decreases |s|
  {
    s != [] &&
    var l := RunLength(s, tied, 1);
    if i == 0 then k == l else l <= i && ReachesRun(s[l..], tied, i - l, k)
  }

  lemma {:induction false} RunsAreReached<T(!new)>(s: seq<T>, tied: (T, T) -> bool, i: nat, k: nat)
    requires Equivalence(tied) && IsRun(s, tied, i, k)
    ensures ReachesRun(s, tied, i, k)
    decreases |s|
  {
    if i == 0 {
      RunFromStart(s, tied, k);
    } else {
      var l := RunLength(s, tied, 1);
      RunStartsLater(s, tied, i, k);
      RunAfter(s, tied, l, i, k);
      RunsAreReached(s[l..], tied, i - l, k);
    }
  }

  /** part stands in s from place i on. */
  ghost predicate StandsAt<T>(part: seq<T>, s: seq<T>, i: nat) {
    i + |part| <= |s| && forall m :: 0 <= m < |part| ==> s[i + m] == part[m]
  }

  lemma {:induction false} StandsLater<T>(part: seq<T>, s: seq<T>, a: seq<T>, b: seq<T>, i: nat)
    requires s == a + b && |a| <= i
    ensures StandsAt(part, s, i) <==> StandsAt(part, b, i - |a|)
  {
    if StandsAt(part, b, i - |a|) {
      forall m | 0 <= m < |part| ensures s[i + m] == part[m] {
        assert b[i - |a| + m] == part[m];
      }
    }
    if StandsAt(part, s, i) {
      forall m | 0 <= m < |part| ensures b[i - |a| + m] == part[m] {
        assert s[i + m] == part[m];
      }
    }
  }

  lemma {:induction false} StandsFirst<T>(part: seq<T>, s: seq<T>, a: seq<T>, b: seq<T>)
    requires s == a + b && |part| == |a|
    ensures StandsAt(part, s, 0) <==> part == a
  {
  }

  /** Each run that is reached is turned by itself. */
  lemma {:induction false} ReachedIsRotated<T(!new)>(s: seq<T>, tied: (T, T) -> bool, spin: seq<T> -> seq<T>, i: nat, group: seq<T>)
    requires Rearranges(spin) && ReachesRun(s, tied, i, |group|) && StandsAt(group, s, i)
    ensures StandsAt(spin(group), RotateRuns(s, tied, spin), i)
    decreases |s|
  {
    var l := RunLength(s, tied, 1);
    var first, rest := s[..l], s[l..];
    assert s == first + rest;
    RotateRunsUnfolds(s, tied, spin, l);
    SameSize(spin(first), first);
    SameSize(spin(group), group);
    if i == 0 {
      StandsFirst(group, s, first, rest);
      StandsFirst(spin(group), RotateRuns(s, tied, spin), spin(first), RotateRuns(rest, tied, spin));
    } else {
      StandsLater(group, s, first, rest, i);
      ReachedIsRotated(rest, tied, spin, i - l, group);
      StandsLater(spin(group), RotateRuns(s, tied, spin), spin(first), RotateRuns(rest, tied, spin), i);
    }
  }

  /** Each run of ties is turned by itself. */
  lemma {:induction false} RunIsRotated<T(!new)>(s: seq<T>, tied: (T, T) -> bool, spin: seq<T> -> seq<T>, i: nat, k: nat)
    requires Rearranges(spin) && Equivalence(tied) && IsRun(s, tied, i, k)
    ensures StandsAt(spin(s[i..i + k]), RotateRuns(s, tied, spin), i)
  {
    RunsAreReached(s, tied, i, k);
    ReachedIsRotated(s, tied, spin, i, s[i..i + k]);
  }

  lemma {:induction false} SpinLeads<T>(s: seq<T>, r: nat)
    requires s != []
    ensures |Spin(r)(s)| == |s| && Spin(r)(s)[0] == s[r % |s|]
  {
  }

  /** Tick r puts element r modulo k of a run of k first in it. */
  lemma {:induction false} LeaderOfRun<T(!new)>(s: seq<T>, tied: (T, T) -> bool, r: nat, i: nat, k: nat)
    requires Equivalence(tied) && IsRun(s, tied, i, k)
    ensures |RotateRuns(s, tied, Spin(r))| > i && RotateRuns(s, tied, Spin(r))[i] == s[i + r % k]
  {
    var group, out := s[i..i + k], RotateRuns(s, tied, Spin(r));
    SpinRearranges<T>(r);
    RunIsRotated(s, tied, Spin(r), i, k);
    SpinLeads(group, r);
    assert out[i + 0] == Spin(r)(group)[0];
  }

  /** Turning runs leaves a run's members in its places. */
  lemma {:induction false} MembersOfRun<T(!new)>(s: seq<T>, tied: (T, T) -> bool, spin: seq<T> -> seq<T>, i: nat, k: nat)
    requires Rearranges(spin) && Equivalence(tied) && IsRun(s, tied, i, k)
    ensures |RotateRuns(s, tied, spin)| >= i + k
    ensures multiset(RotateRuns(s, tied, spin)[i..i + k]) == multiset(s[i..i + k])
  {
    var group := s[i..i + k];
    RunIsRotated(s, tied, spin, i, k);
    SameSize(spin(group), group);
    StandsAsSlice(spin(group), RotateRuns(s, tied, spin), i);
  }

  lemma {:induction false} StandsAsSlice<T>(part: seq<T>, s: seq<T>, i: nat)
    requires StandsAt(part, s, i)
    ensures s[i..i + |part|] == part
  {
  }

  /** In sorted order a run holds every element that ties with its members. */
  lemma {:induction false} RunIsWholeClass<T(!new)>(s: seq<T>, tied: (T, T) -> bool, less: (T, T) -> bool, i: nat, k: nat, p: nat)
    requires StrictWeak(less) && TiesOf(tied, less) && SortedBy(s, less)
    requires IsRun(s, tied, i, k) && p < |s|
    ensures tied(s[i], s[p]) <==> i <= p < i + k
  {
    if p < i {
      var a, b, c := s[p], s[i - 1], s[i];
      assert less(b, c) ==> less(b, a) || less(a, c);
    } else if p >= i + k {
      var a, b, c := s[i], s[i + k], s[p];
      assert less(a, b) ==> less(a, c) || less(c, b);
    }
  }

  /** Every element is in a run. */
  lemma {:induction false} EveryElementHasARun<T(!new)>(s: seq<T>, tied: (T, T) -> bool, p: nat) returns (i: nat, k: nat)
    requires Equivalence(tied) && p < |s|
    ensures IsRun(s, tied, i, k) && i <= p < i + k
    decreases |s|
  {
    var l := RunLength(s, tied, 1);
    RunLengthMeans(s, tied, 1);
    if p < l {
      i, k := 0, l;
    } else {
      i, k := EveryElementHasARun(s[l..], tied, p - l);
      var j := i;
      i := l + j;
      if j == 0 {
        var x, y, z := s[0], s[l - 1], s[l];
        assert tied(x, y) && !tied(x, z);
        assert tied(y, z) ==> tied(x, z);
      }
    }
  }

  // ---------- one tier under least cost ----------

  /** Reading a list by position, with a default outside it. */
  function At<T>(s: seq<T>, default: T): int -> T {
    (i: int) => if 0 <= i < |s| then s[i] else default
  }

  const NO_RANK := Rank(Infinite, 0.0)

  function LessAt(ranks: seq<Rank>, mode: Mode, minAvail: real): (int, int) -> bool {
    On(At(ranks, NO_RANK), LessIn(mode, minAvail))
  }

  function TiedAt(ranks: seq<Rank>, mode: Mode, minAvail: real): (int, int) -> bool {
    (a: int, b: int) => TiedLcr(At(ranks, NO_RANK)(a), At(ranks, NO_RANK)(b), mode, minAvail)
  }

  function LcrSorted(ranks: seq<Rank>, mode: Mode, minAvail: real): seq<int> {
    Sort(Indices(|ranks|), LessAt(ranks, mode, minAvail))
  }

  /** The order of a tier's positions at tick rr. */
  function LcrOrder(ranks: seq<Rank>, mode: Mode, minAvail: real, rr: nat): (order: seq<int>)
    ensures |order| == |ranks|
  {
    SpinRearranges<int>(rr);
    RotateRunsPermutes(LcrSorted(ranks, mode, minAvail), TiedAt(ranks, mode, minAvail), Spin(rr));
    RotateRuns(LcrSorted(ranks, mode, minAvail), TiedAt(ranks, mode, minAvail), Spin(rr))
  }

  lemma {:induction false} TiesOfRanks(ranks: seq<Rank>, mode: Mode, minAvail: real)
    ensures StrictWeak(LessAt(ranks, mode, minAvail))
    ensures TiesOf(TiedAt(ranks, mode, minAvail), LessAt(ranks, mode, minAvail))
    ensures Equivalence(TiedAt(ranks, mode, minAvail))
  {
    LessIsStrictWeak(mode, minAvail);
    OnIsWeak(At(ranks, NO_RANK), LessIn(mode, minAvail));
    forall a, b ensures TiedAt(ranks, mode, minAvail)(a, b) <==> !LessAt(ranks, mode, minAvail)(a, b) && !LessAt(ranks, mode, minAvail)(b, a) {
      TiesAreExact(At(ranks, NO_RANK)(a), At(ranks, NO_RANK)(b), mode, minAvail);
    }
    TiesAreEquivalence(TiedAt(ranks, mode, minAvail), LessAt(ranks, mode, minAvail));
  }

  /** The order is a permutation of the tier's positions, best rank first. */
  lemma {:induction false} LcrOrderIsSorted(ranks: seq<Rank>, mode: Mode, minAvail: real, rr: nat)
    ensures multiset(LcrOrder(ranks, mode, minAvail, rr)) == multiset(Indices(|ranks|))
    ensures InRankOrder(ranks, LcrOrder(ranks, mode, minAvail, rr), mode, minAvail)
  {
    var less, tied := LessAt(ranks, mode, minAvail), TiedAt(ranks, mode, minAvail);
    TiesOfRanks(ranks, mode, minAvail);
    SortSorts(Indices(|ranks|), less);
    SortPermutes(Indices(|ranks|), less);
    SpinRearranges<int>(rr);
    RotateRunsSorted(LcrSorted(ranks, mode, minAvail), tied, less, Spin(rr));
    RotateRunsPermutes(LcrSorted(ranks, mode, minAvail), tied, Spin(rr));
    InRange(LcrOrder(ranks, mode, minAvail, rr), |ranks|);
    SortedRanks(ranks, LcrOrder(ranks, mode, minAvail, rr), mode, minAvail);
  }

  /** Positions of ranks, each of which may precede all that follow. */
  ghost predicate InRankOrder(ranks: seq<Rank>, idx: seq<int>, mode: Mode, minAvail: real) {
    && (forall i :: 0 <= i < |idx| ==> 0 <= idx[i] < |ranks|)
    && (forall i, j :: 0 <= i < j < |idx| ==> MayPrecede(ranks[idx[i]], ranks[idx[j]], mode, minAvail))
  }

  lemma {:induction false} SortedRanks(ranks: seq<Rank>, idx: seq<int>, mode: Mode, minAvail: real)
    requires SortedBy(idx, LessAt(ranks, mode, minAvail)) && forall i :: 0 <= i < |idx| ==> 0 <= idx[i] < |ranks|
    ensures InRankOrder(ranks, idx, mode, minAvail)
  {
    forall i, j | 0 <= i < j < |idx| ensures MayPrecede(ranks[idx[i]], ranks[idx[j]], mode, minAvail) {
      assert !LessAt(ranks, mode, minAvail)(idx[j], idx[i]);
      NotLessMeans(ranks[idx[i]], ranks[idx[j]], mode, minAvail);
    }
  }

  /** The positions sorted are distinct. */
  lemma {:induction false} SamePlace(ranks: seq<Rank>, mode: Mode, minAvail: real, a: nat, b: nat)
    requires a < |ranks| && b < |ranks|
    ensures LcrSorted(ranks, mode, minAvail)[a] == LcrSorted(ranks, mode, minAvail)[b] <==> a == b
  {
    var s := LcrSorted(ranks, mode, minAvail);
    SortPermutes(Indices(|ranks|), LessAt(ranks, mode, minAvail));
    IndicesOnce(|ranks|, s[a]);
    if a < b && s[a] == s[b] {
      SeenTwice(s, a, b);
    }
    if b < a && s[a] == s[b] {
      SeenTwice(s, b, a);
    }
  }

  lemma {:induction false} LeaderAtTick(ranks: seq<Rank>, mode: Mode, minAvail: real, rr: nat, i: nat, k: nat)
    requires IsRun(LcrSorted(ranks, mode, minAvail), TiedAt(ranks, mode, minAvail), i, k)
    ensures LcrOrder(ranks, mode, minAvail, rr)[i] == LcrSorted(ranks, mode, minAvail)[i + rr % k]
  {
    RankTiesAreEquivalence(ranks, mode, minAvail);
    LeaderOfRun(LcrSorted(ranks, mode, minAvail), TiedAt(ranks, mode, minAvail), rr, i, k);
  }

  lemma {:induction false} RankTiesAreEquivalence(ranks: seq<Rank>, mode: Mode, minAvail: real)
    ensures Equivalence(TiedAt(ranks, mode, minAvail))
  {
    TiesOfRanks(ranks, mode, minAvail);
  }

  /** Places i to i + k of the sorted tier are a group of ties, and the whole of it. */
  ghost predicate TieGroup(ranks: seq<Rank>, mode: Mode, minAvail: real, i: nat, k: nat) {
    var s, tied := LcrSorted(ranks, mode, minAvail), TiedAt(ranks, mode, minAvail);
    && IsRun(s, tied, i, k)
    && forall q :: 0 <= q < |s| ==> (tied(s[i], s[q]) <==> i <= q < i + k)
  }

  /** Every target belongs to a group of ties. */
  lemma {:induction false} EveryTargetHasAGroup(ranks: seq<Rank>, mode: Mode, minAvail: real, p: nat) returns (i: nat, k: nat)
    requires p < |ranks|
    ensures TieGroup(ranks, mode, minAvail, i, k) && i <= p < i + k
  {
    var s, less, tied := LcrSorted(ranks, mode, minAvail), LessAt(ranks, mode, minAvail), TiedAt(ranks, mode, minAvail);
    TiesOfRanks(ranks, mode, minAvail);
    SortSorts(Indices(|ranks|), less);
    i, k := EveryElementHasARun(s, tied, p);
    forall q | 0 <= q < |s| ensures tied(s[i], s[q]) <==> i <= q < i + k {
      RunIsWholeClass(s, tied, less, i, k, q);
    }
  }

  /** The target at sorted place p leads the places from i on at tick t. */
  ghost predicate Leads(ranks: seq<Rank>, mode: Mode, minAvail: real, i: nat, p: nat, t: nat)
    requires i < |ranks| && p < |ranks|
  {
    LcrOrder(ranks, mode, minAvail, t)[i] == LcrSorted(ranks, mode, minAvail)[p]
  }

  lemma {:induction false} LeadsWhen(ranks: seq<Rank>, mode: Mode, minAvail: real, i: nat, k: nat, p: nat, t: nat)
    requires TieGroup(ranks, mode, minAvail, i, k) && i <= p < i + k
    ensures Leads(ranks, mode, minAvail, i, p, t) <==> t % k == p - i
  {
    LeaderAtTick(ranks, mode, minAvail, t, i, k);
    SamePlace(ranks, mode, minAvail, i + t % k, p);
  }

  /**
   Fair rotation: a group of k tied targets keeps its places at every tick, and in any k ticks in a row each of
   its members leads it exactly once.
   */
  lemma {:induction false} RotationIsFair(ranks: seq<Rank>, mode: Mode, minAvail: real, i: nat, k: nat, p: nat, from: nat) returns (t: nat)
    requires TieGroup(ranks, mode, minAvail, i, k) && i <= p < i + k
    ensures from <= t < from + k && Leads(ranks, mode, minAvail, i, p, t)
    ensures forall u: nat :: from <= u < from + k && Leads(ranks, mode, minAvail, i, p, u) ==> u == t
  {
    t := EachResidueOnce(from, k, p - i);
    LeadsWhen(ranks, mode, minAvail, i, k, p, t);
    forall u: nat | from <= u < from + k && Leads(ranks, mode, minAvail, i, p, u) ensures u == t {
      LeadsWhen(ranks, mode, minAvail, i, k, p, u);
    }
  }

  /** At every tick a group's places hold exactly its members. */
  lemma {:induction false} GroupsKeepTheirPlaces(ranks: seq<Rank>, mode: Mode, minAvail: real, i: nat, k: nat, rr: nat)
    requires TieGroup(ranks, mode, minAvail, i, k)
    ensures multiset(LcrOrder(ranks, mode, minAvail, rr)[i..i + k]) == multiset(LcrSorted(ranks, mode, minAvail)[i..i + k])
  {
    RankTiesAreEquivalence(ranks, mode, minAvail);
    SpinRearranges<int>(rr);
    MembersOfRun(LcrSorted(ranks, mode, minAvail), TiedAt(ranks, mode, minAvail), Spin(rr), i, k);
  }

  // ---------- the orders as computed ----------

  const NO_TARGET := Target("", "", 0)

  function Picked(tier: seq<Target>, idx: seq<int>): seq<Target> {
    Mapped(idx, At(tier, NO_TARGET))
  }

  lemma {:induction false} PickedAll(tier: seq<Target>, idx: seq<int>)
    requires multiset(idx) == multiset(Indices(|tier|))
    ensures multiset(Picked(tier, idx)) == multiset(tier)
  {
    MappedPermutes(idx, Indices(|tier|), At(tier, NO_TARGET));
    assert Picked(tier, Indices(|tier|)) == tier;
  }

  function Ranks(tier: seq<Target>, rank: Target -> Rank): seq<Rank> {
    Mapped(tier, rank)
  }

  lemma {:induction false} OneStays(tier: seq<Target>, idx: seq<int>)
    requires |tier| <= 1 && multiset(idx) == multiset(Indices(|tier|))
    ensures Picked(tier, idx) == tier
  {
    assert |multiset(idx)| == |idx| == |tier|;
    if |tier| == 1 {
      assert Indices(1) == [0];
      assert idx[0] in multiset(idx);
    }
  }

  /** Reads the tier's targets in the order idx gives. */
  method Gather(tier: seq<Target>, idx: array<int>) returns (out: seq<Target>)
    requires forall i :: 0 <= i < idx.Length ==> 0 <= idx[i] < |tier|
    ensures out == Picked(tier, idx[..])
  {
    out := [];
    for i := 0 to idx.Length
      invariant out == Picked(tier, idx[..i])
    {
      out := out + [tier[idx[i]]];
      assert idx[..i + 1] == idx[..i] + [idx[i]];
    }
    assert idx[..idx.Length] == idx[..];
  }

  /** Turns idx[i..j] by rr, in place. */
  method TurnGroup(idx: array<int>, i: nat, j: nat, rr: nat)
    requires i < j <= idx.Length
    modifies idx
    ensures idx[i..j] == Spin(rr)(old(idx[i..j]))
    ensures idx[..i] == old(idx[..i]) && idx[j..] == old(idx[j..])
  {
    var group := idx[i..j];
    ghost var turned := Spin(rr)(group);
    SpinPlaces(group, rr);
    var rot := rr % |group|;
    for k := 0 to |group|
      invariant forall m :: 0 <= m < k ==> idx[i + m] == turned[m]
      invariant idx[..i] == old(idx[..i]) && idx[j..] == old(idx[j..])
    {
      idx[i + k] := group[(rot + k) % |group|];
    }
    assert idx[i..j] == turned;
  }

  /** The element the code puts at place k of a turned group. */
  lemma {:induction false} SpinPlaces<T>(group: seq<T>, r: nat)
    requires group != []
    ensures |Spin(r)(group)| == |group|
    ensures forall k :: 0 <= k < |group| ==> 0 <= (r % |group| + k) % |group| < |group| && group[(r % |group| + k) % |group|] == Spin(r)(group)[k]
  {
    forall k | 0 <= k < |group|
      ensures 0 <= (r % |group| + k) % |group| < |group| && group[(r % |group| + k) % |group|] == Spin(r)(group)[k]
    {
      PlaceTurned(group, r % |group|, k);
    }
  }

  /** The length of the first run of idx[i..]. */
  method FindRun(idx: array<int>, i: nat, tied: (int, int) -> bool) returns (j: nat)
    requires i < idx.Length
    ensures i < j <= idx.Length && j - i == RunLength(idx[i..], tied, 1)
  {
    j := i + 1;
    while j < idx.Length && tied(idx[i], idx[j])
      invariant i < j <= idx.Length
      invariant RunLength(idx[i..], tied, 1) == RunLength(idx[i..], tied, j - i)
    {
      j := j + 1;
    }
  }

  lemma {:induction false} RotateFirst(s: seq<int>, i: nat, j: nat, tied: (int, int) -> bool, spin: seq<int> -> seq<int>)
    requires i < j <= |s| && j - i == RunLength(s[i..], tied, 1)
    ensures RotateRuns(s[i..], tied, spin) == spin(s[i..j]) + RotateRuns(s[j..], tied, spin)
  {
    var t, k := s[i..], j - i;
    assert t[..k] == s[i..j] && t[k..] == s[j..];
  }

  lemma {:induction false} SpinOne<T>(s: seq<T>, r: nat)
    requires |s| == 1
    ensures Spin(r)(s) == s
  {
  }

  /** Turns the run idx[i..j] unless it is a single element. */
  method TurnRun(idx: array<int>, i: nat, j: nat, rr: nat)
    requires i < j <= idx.Length
    modifies idx
    ensures idx[..j] == old(idx[..i]) + Spin(rr)(old(idx[i..j]))
    ensures idx[j..] == old(idx[j..])
  {
    if j - i > 1 {
      TurnGroup(idx, i, j, rr);
    } else {
      SpinOne(idx[i..j], rr);
    }
    assert idx[..j] == idx[..i] + idx[i..j];
  }

  /** The runs before place i have been turned. */
  ghost predicate TurnedTo(a: seq<int>, s: seq<int>, i: nat, tied: (int, int) -> bool, spin: seq<int> -> seq<int>) {
    && i <= |a| == |s|
    && a[i..] == s[i..]
    && a[..i] + RotateRuns(s[i..], tied, spin) == RotateRuns(s, tied, spin)
  }

  lemma {:induction false} TurnedOn(a: seq<int>, b: seq<int>, s: seq<int>, i: nat, j: nat, tied: (int, int) -> bool, spin: seq<int> -> seq<int>)
    requires TurnedTo(a, s, i, tied, spin)
    requires i < j <= |a| == |b| && j - i == RunLength(a[i..], tied, 1)
    requires b[..j] == a[..i] + spin(a[i..j]) && b[j..] == a[j..]
    ensures TurnedTo(b, s, j, tied, spin)
  {
    RotateFirst(s, i, j, tied, spin);
    SameRest(a, s, i, j);
    Regroup(a[..i], spin(s[i..j]), RotateRuns(s[j..], tied, spin));
  }

  /** Rotates every run of ties of idx, in place. */
  method RotateTies(idx: array<int>, tied: (int, int) -> bool, rr: nat)
    modifies idx
    ensures idx[..] == RotateRuns(old(idx[..]), tied, Spin(rr))
  {
    var i := 0;
    ghost var s := idx[..];
    assert s[0..] == s;
    while i < idx.Length
      invariant 0 <= i <= idx.Length
      invariant TurnedTo(idx[..], s, i, tied, Spin(rr))
    {
      var j := FindRun(idx, i, tied);
      ghost var a := idx[..];
      TurnRun(idx, i, j, rr);
      TurnedOn(a, idx[..], s, i, j, tied, Spin(rr));
      i := j;
    }
    assert idx[..i] == idx[..];
  }

  lemma {:induction false} SameRest(a: seq<int>, b: seq<int>, i: nat, j: nat)
    requires i <= j <= |a| == |b| && a[i..] == b[i..]
    ensures a[i..j] == b[i..j] && a[j..] == b[j..]
  {
    assert a[i..j] == a[i..][..j - i] && b[i..j] == b[i..][..j - i];
    assert a[j..] == a[i..][j - i..] && b[j..] == b[i..][j - i..];
  }

  /** sort.SliceStable on a slice of positions. */
  method SortPositions(idx: array<int>, less: (int, int) -> bool)
    modifies idx
    ensures idx[..] == Sort(old(idx[..]), less)
  {
    var sorted := Sort(idx[..], less);
    forall i | 0 <= i < idx.Length {
      idx[i] := sorted[i];
    }
    assert idx[..] == sorted;
  }

  method NewPositions(n: nat) returns (idx: array<int>)
    ensures fresh(idx) && idx[..] == Indices(n)
  {
    idx := new int[n](i => i);
    assert idx[..] == Indices(n);
  }

  function LcrTier(tier: seq<Target>, mode: Mode, minAvail: real, rr: nat, rank: Target -> Rank): seq<Target> {
    Picked(tier, LcrOrder(Ranks(tier, rank), mode, minAvail, rr))
  }

  /** Each target of a tier's order may precede all that follow. */
  ghost predicate TargetsInOrder(out: seq<Target>, mode: Mode, minAvail: real, rank: Target -> Rank) {
    forall i, j :: 0 <= i < j < |out| ==> MayPrecede(rank(out[i]), rank(out[j]), mode, minAvail)
  }

  /** Least cost, at every tick: a permutation of the tier in which prices and availabilities run as the mode says. */
  lemma {:induction false} LcrTierIsSorted(tier: seq<Target>, mode: Mode, minAvail: real, rr: nat, rank: Target -> Rank)
    ensures multiset(LcrTier(tier, mode, minAvail, rr, rank)) == multiset(tier)
    ensures TargetsInOrder(LcrTier(tier, mode, minAvail, rr, rank), mode, minAvail, rank)
  {
    var ranks := Ranks(tier, rank);
    var idx := LcrOrder(ranks, mode, minAvail, rr);
    LcrOrderIsSorted(ranks, mode, minAvail, rr);
    PickedAll(tier, idx);
    var out := LcrTier(tier, mode, minAvail, rr, rank);
    forall i, j | 0 <= i < j < |out| ensures MayPrecede(rank(out[i]), rank(out[j]), mode, minAvail) {
      assert MayPrecede(ranks[idx[i]], ranks[idx[j]], mode, minAvail);
    }
  }

  method OrderTierLcr(tier: seq<Target>, mode: Mode, minAvail: real, rr: nat, rank: Target -> Rank) returns (out: seq<Target>)
    ensures multiset(out) == multiset(tier) && TargetsInOrder(out, mode, minAvail, rank)
    ensures out == LcrTier(tier, mode, minAvail, rr, rank)
  {
    var ranks := Ranks(tier, rank);
    LcrOrderIsSorted(ranks, mode, minAvail, rr);
    LcrTierIsSorted(tier, mode, minAvail, rr, rank);
    if |tier| <= 1 {
      OneStays(tier, LcrOrder(ranks, mode, minAvail, rr));
      return tier;
    }
    var idx := NewPositions(|tier|);
    SortPositions(idx, LessAt(ranks, mode, minAvail));
    RotateTies(idx, TiedAt(ranks, mode, minAvail), rr);
    InRange(idx[..], |tier|);
    out := Gather(tier, idx);
  }

  function More(a: int, b: int): bool {
    a > b
  }

  function FreeAt(free: string -> int): Target -> int {
    (t: Target) => free(t.provider)
  }

  /** A tier in the order of its strategy: the most free slots first, spined by the tick, or least cost first. */
  function TierOrder(tier: seq<Target>, strategy: Strategy, rr: nat, free: string -> int, rank: Target -> Rank): seq<Target> {
    match strategy
    case LeastBusy => Sort(tier, On(FreeAt(free), More))
    case RoundRobin => Spin(rr)(tier)
    case LeastCost(mode, minAvail) => LcrTier(tier, mode, minAvail, rr, rank)
  }

  /** Sorting positions by what they hold and then reading them is sorting what they hold. */
  lemma {:induction false} SortedPositions(tier: seq<Target>, less: (Target, Target) -> bool)
    ensures Picked(tier, Sort(Indices(|tier|), On(At(tier, NO_TARGET), less))) == Sort(tier, less)
    ensures multiset(Sort(Indices(|tier|), On(At(tier, NO_TARGET), less))) == multiset(Indices(|tier|))
  {
    SortByKey(Indices(|tier|), At(tier, NO_TARGET), less);
    SortPermutes(Indices(|tier|), On(At(tier, NO_TARGET), less));
    assert Mapped(Indices(|tier|), At(tier, NO_TARGET)) == tier;
  }

  method OrderBusy(tier: seq<Target>, free: string -> int) returns (out: seq<Target>)
    ensures out == Sort(tier, On(FreeAt(free), More))
  {
    var less := On(FreeAt(free), More);
    SortedPositions(tier, less);
    var idx := NewPositions(|tier|);
    SortPositions(idx, On(At(tier, NO_TARGET), less));
    InRange(idx[..], |tier|);
    out := Gather(tier, idx);
  }

  method OrderRoundRobin(tier: seq<Target>, rr: nat) returns (out: seq<Target>)
    requires |tier| > 0
    ensures out == Spin(rr)(tier)
  {
    var n := |tier|;
    var rot := rr % n;
    out := [];
    for i := 0 to n
      invariant out == Rotated(tier, rot)[..i]
    {
      PlaceTurned(tier, rot, i);
      out := out + [tier[(rot + i) % n]];
    }
  }

  lemma {:induction false} PlaceTurned<T>(s: seq<T>, rot: nat, k: nat)
    requires rot < |s| && k < |s|
    ensures 0 <= (rot + k) % |s| < |s|
    ensures s[(rot + k) % |s|] == Rotated(s, rot)[k]
  {
    var n := |s|;
    if rot + k < n {
      ModIs(rot + k, n, 0, rot + k);
    } else {
      ModIs(rot + k, n, 1, rot + k - n);
    }
  }

  method OrderTier(tier: seq<Target>, strategy: Strategy, rr: nat, free: string -> int, rank: Target -> Rank) returns (out: seq<Target>)
    ensures out == TierOrder(tier, strategy, rr, free, rank)
  {
    match strategy
    case LeastCost(mode, minAvail) =>
      out := OrderTierLcr(tier, mode, minAvail, rr, rank);
    case LeastBusy =>
      out := OrderBusy(tier, free);
    case RoundRobin =>
      if |tier| == 0 {
        return tier;
      }
      out := OrderRoundRobin(tier, rr);
  }

  function OrderOf(strategy: Strategy, rr: nat, free: string -> int, rank: Target -> Rank): seq<Target> -> seq<Target> {
    (tier: seq<Target>) => TierOrder(tier, strategy, rr, free, rank)
  }

  /** The tiers one after the other, each in its order. */
  function Flattened(tiers: seq<seq<Target>>, order: seq<Target> -> seq<Target>): seq<Target> {
    if tiers == [] then [] else Flattened(tiers[..|tiers| - 1], order) + order(tiers[|tiers| - 1])
  }

  function Ordering(tiers: seq<seq<Target>>, strategy: Strategy, rr: nat, free: string -> int, rank: Target -> Rank): seq<Target> {
    Flattened(tiers, OrderOf(strategy, rr, free, rank))
  }

  method Ordered(tiers: seq<seq<Target>>, strategy: Strategy, rr: nat, free: string -> int, rank: Target -> Rank) returns (out: seq<Target>)
    ensures out == Ordering(tiers, strategy, rr, free, rank)
  {
    out := [];
    for i := 0 to |tiers|
      invariant out == Ordering(tiers[..i], strategy, rr, free, rank)
    {
      var tier := OrderTier(tiers[i], strategy, rr, free, rank);
      assert tiers[..i + 1][..i] == tiers[..i];
      out := out + tier;
    }
    assert tiers[..|tiers|] == tiers;
  }

  // ---------- what the try-order is ----------

  lemma {:induction false} TierOrderPermutes(tier: seq<Target>, strategy: Strategy, rr: nat, free: string -> int, rank: Target -> Rank)
    ensures multiset(TierOrder(tier, strategy, rr, free, rank)) == multiset(tier)
  {
    match strategy
    case LeastBusy => SortPermutes(tier, On(FreeAt(free), More));
    case RoundRobin => SpinRearranges<Target>(rr);
    case LeastCost(mode, minAvail) =>
      LcrTierIsSorted(tier, mode, minAvail, rr, rank);
  }

  /** Least busy: a target with more free slots comes first. */
  lemma {:induction false} BusyTierIsSorted(tier: seq<Target>, free: string -> int, i: nat, j: nat)
    requires i < j < |tier|
    ensures free(Sort(tier, On(FreeAt(free), More))[j].provider) <= free(Sort(tier, On(FreeAt(free), More))[i].provider)
  {
    var less := On(FreeAt(free), More);
    assert StrictWeak(More);
    OnIsWeak(FreeAt(free), More);
    SortSorts(tier, less);
    assert !less(Sort(tier, less)[j], Sort(tier, less)[i]);
  }

  /** What each strategy promises of a tier's order. */
  ghost predicate AsPromised(out: seq<Target>, tier: seq<Target>, strategy: Strategy, rr: nat, free: string -> int, rank: Target -> Rank) {
    |out| == |tier| &&
    match strategy
    case LeastBusy => forall i, j :: 0 <= i < j < |out| ==> free(out[j].provider) <= free(out[i].provider)
    case RoundRobin => forall i :: 0 <= i < |out| ==> out[i] == tier[(rr % |tier| + i) % |tier|]
    case LeastCost(mode, minAvail) => TargetsInOrder(out, mode, minAvail, rank)
  }

  lemma {:induction false} EveryTierAsPromised(tier: seq<Target>, strategy: Strategy, rr: nat, free: string -> int, rank: Target -> Rank)
    ensures AsPromised(TierOrder(tier, strategy, rr, free, rank), tier, strategy, rr, free, rank)
  {
    TierOrderPermutes(tier, strategy, rr, free, rank);
    SameSize(TierOrder(tier, strategy, rr, free, rank), tier);
    match strategy
    case LeastBusy =>
      var out := TierOrder(tier, strategy, rr, free, rank);
      forall i, j | 0 <= i < j < |out| ensures free(out[j].provider) <= free(out[i].provider) {
        BusyTierIsSorted(tier, free, i, j);
      }
    case RoundRobin =>
      if tier != [] {
        SpinPlaces(tier, rr);
      }
    case LeastCost(mode, minAvail) => LcrTierIsSorted(tier, mode, minAvail, rr, rank);
  }

  /** Where a tier's targets begin: after those of the tiers before it. */
  function Offset(tiers: seq<seq<Target>>, i: nat): nat
    requires i <= |tiers|
  {
    if i == 0 then 0 else Offset(tiers, i - 1) + |tiers[i - 1]|
  }

  lemma {:induction false} OffsetFront(tiers: seq<seq<Target>>, n: nat, i: nat)
    requires i <= n <= |tiers|
    ensures Offset(tiers[..n], i) == Offset(tiers, i)
  {
    if i > 0 {
      OffsetFront(tiers, n, i - 1);
    }
  }

  ghost predicate KeepsSize(order: seq<Target> -> seq<Target>) {
    forall tier :: |order(tier)| == |tier|
  }

  lemma {:induction false} FlattenedSize(tiers: seq<seq<Target>>, order: seq<Target> -> seq<Target>)
    requires KeepsSize(order)
    ensures |Flattened(tiers, order)| == Offset(tiers, |tiers|)
  {
    if tiers != [] {
      var n := |tiers| - 1;
      FlattenedSize(tiers[..n], order);
      OffsetFront(tiers, n, n);
    }
  }

  lemma {:induction false} FlattenedParts(tiers: seq<seq<Target>>, order: seq<Target> -> seq<Target>, i: nat)
    requires KeepsSize(order) && i < |tiers|
    ensures Offset(tiers, i) <= Offset(tiers, i + 1) <= |Flattened(tiers, order)|
    ensures Flattened(tiers, order)[Offset(tiers, i)..Offset(tiers, i + 1)] == order(tiers[i])
  {
    var n := |tiers| - 1;
    FlattenedSize(tiers, order);
    FlattenedSize(tiers[..n], order);
    OffsetFront(tiers, n, n);
    if i < n {
      FlattenedParts(tiers[..n], order, i);
      OffsetFront(tiers, n, i);
      OffsetFront(tiers, n, i + 1);
      SliceBefore(Flattened(tiers[..n], order), order(tiers[n]), Offset(tiers, i), Offset(tiers, i + 1));
    }
  }

  /** The try-order keeps tiers together and in priority order; all of a tier's targets appear, in its strategy's order. */
  lemma {:induction false} TiersStayTogether(tiers: seq<seq<Target>>, strategy: Strategy, rr: nat, free: string -> int, rank: Target -> Rank, i: nat)
    requires i < |tiers|
    ensures Offset(tiers, i) <= Offset(tiers, i + 1) <= |Ordering(tiers, strategy, rr, free, rank)|
    ensures Ordering(tiers, strategy, rr, free, rank)[Offset(tiers, i)..Offset(tiers, i + 1)] == OrderOf(strategy, rr, free, rank)(tiers[i])
    ensures multiset(OrderOf(strategy, rr, free, rank)(tiers[i])) == multiset(tiers[i])
    ensures AsPromised(OrderOf(strategy, rr, free, rank)(tiers[i]), tiers[i], strategy, rr, free, rank)
  {
    EveryTierAsPromised(tiers[i], strategy, rr, free, rank);
    var order := OrderOf(strategy, rr, free, rank);
    forall tier ensures multiset(order(tier)) == multiset(tier) && |order(tier)| == |tier| {
      TierOrderPermutes(tier, strategy, rr, free, rank);
      SameSize(order(tier), tier);
    }
    FlattenedParts(tiers, order, i);
  }

  /** Nothing is tried that is not in the plan, and nothing in the plan is left out. */
  lemma {:induction false} OrderingPermutes(tiers: seq<seq<Target>>, strategy: Strategy, rr: nat, free: string -> int, rank: Target -> Rank)
    ensures multiset(Ordering(tiers, strategy, rr, free, rank)) == multiset(Flattened(tiers, tier => tier))
  {
    if tiers != [] {
      var n := |tiers| - 1;
      OrderingPermutes(tiers[..n], strategy, rr, free, rank);
      TierOrderPermutes(tiers[n], strategy, rr, free, rank);
      ConcatPermutes(Ordering(tiers[..n], strategy, rr, free, rank), Flattened(tiers[..n], tier => tier), TierOrder(tiers[n], strategy, rr, free, rank), tiers[n]);
    }
  }
}
