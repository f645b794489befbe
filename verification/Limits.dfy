/**
 Model of internal/limits/limits.go: rolling-window token limits kept in
 five-minute buckets, with optimistic reservations.

 A token hash is a map from bucket to count; times are whole seconds. Other
 dimensions (cost, audio seconds, characters) use the same buckets without
 reservations. `walk` is the order in which the runtime visits a hash.
 */
module Limits {
  import opened Common

  const BUCKET_SIZE := 300
  const MAX_WINDOW := 604_800

  /** A bucket, named by the second it starts at. */
  datatype Bucket = Bucket(at: int)

  type Hash = map<Bucket, int>

  /** A capped rolling window; a limit of zero or less is no limit. */
  datatype Cap = Cap(window: int, limit: int)

  function BucketStamp(t: nat): Bucket {
    Bucket(t / BUCKET_SIZE * BUCKET_SIZE)
  }

  // ---------- sums over a hash ----------

  function Part(b: Bucket, n: int, cutoff: int): int {
    if b.at >= cutoff then n else 0
  }

  lemma {:induction false} Smaller(m: Hash, b: Bucket)
    requires b in m
    ensures |m - {b}| < |m|
  {
    assert (m - {b}).Keys == m.Keys - {b};
  }

  lemma {:induction false} HasBucket(m: Hash)
    requires m != map[]
    ensures exists b :: b in m
  {
  }

  /** The tokens in the buckets that start at or after cutoff. */
  ghost function SumSince(m: Hash, cutoff: int): int
    decreases |m|
  {
    if m == map[] then 0
    else
      HasBucket(m);
      var b :| b in m;
      Smaller(m, b);
      Part(b, m[b], cutoff) + SumSince(m - {b}, cutoff)
  }

  /** Any bucket may be counted first. */
  lemma {:induction false} SumTakes(m: Hash, b: Bucket, cutoff: int)
    requires b in m
    ensures SumSince(m, cutoff) == Part(b, m[b], cutoff) + SumSince(m - {b}, cutoff)
    decreases |m|
  {
    var a :| a in m && SumSince(m, cutoff) == Part(a, m[a], cutoff) + SumSince(m - {a}, cutoff);
    if a != b {
      Smaller(m, a);
      Smaller(m, b);
      SumTakes(m - {a}, b, cutoff);
      SumTakes(m - {b}, a, cutoff);
      assert m - {a} - {b} == m - {b} - {a};
    }
  }

  function Value(m: Hash, b: Bucket): int {
    if b in m then m[b] else 0
  }

  /** HINCRBY. */
  function Bumped(m: Hash, b: Bucket, n: int): Hash {
    m[b := Value(m, b) + n]
  }

  lemma {:induction false} SumBumped(m: Hash, b: Bucket, n: int, cutoff: int)
    ensures SumSince(Bumped(m, b, n), cutoff) == SumSince(m, cutoff) + Part(b, n, cutoff)
  {
    var k := Bumped(m, b, n);
    SumTakes(k, b, cutoff);
    assert k - {b} == m - {b};
    if b in m {
      SumTakes(m, b, cutoff);
    } else {
      assert m - {b} == m;
    }
  }

  ghost predicate NonNegative(m: Hash) {
    forall b <- m :: m[b] >= 0
  }

  lemma {:induction false} SumMonotone(m: Hash, a: int, c: int)
    requires NonNegative(m) && a <= c
    ensures 0 <= SumSince(m, c) <= SumSince(m, a)
    decreases |m|
  {
    if m != map[] {
      HasBucket(m);
      var b :| b in m;
      Smaller(m, b);
      SumTakes(m, b, a);
      SumTakes(m, b, c);
      SumMonotone(m - {b}, a, c);
    }
  }

  // ---------- pruning ----------

  function PruneCutoff(now: int): int {
    now - MAX_WINDOW - BUCKET_SIZE
  }

  /** prune: drop the buckets older than any window can see. */
  function Pruned(m: Hash, cutoff: int): Hash {
    map b | b in m && b.at >= cutoff :: m[b]
  }

  lemma {:induction false} PruneKeepsSum(m: Hash, horizon: int, cutoff: int)
    requires horizon <= cutoff
    ensures SumSince(Pruned(m, horizon), cutoff) == SumSince(m, cutoff)
    decreases |m|
  {
    if m == map[] {
      assert Pruned(m, horizon) == m;
    } else {
      HasBucket(m);
      var b :| b in m;
      Smaller(m, b);
      SumTakes(m, b, cutoff);
      PruneKeepsSum(m - {b}, horizon, cutoff);
      if b.at >= horizon {
        SumTakes(Pruned(m, horizon), b, cutoff);
        assert Pruned(m, horizon) - {b} == Pruned(m - {b}, horizon);
      } else {
        assert Pruned(m, horizon) == Pruned(m - {b}, horizon);
      }
    }
  }

  /** What pruning drops: exactly the buckets that started more than a week and a bucket ago. */
  lemma {:induction false} PruneDropsTheOld(m: Hash, now: int, b: Bucket)
    ensures b in Pruned(m, PruneCutoff(now)) <==> b in m && now - b.at <= 7 * 24 * 3600 + 300
    ensures b in Pruned(m, PruneCutoff(now)) ==> Pruned(m, PruneCutoff(now))[b] == m[b]
  {
  }

  /** Pruning changes no window's sum, now or at any later time. */
  lemma {:induction false} PruningIsInvisible(m: Hash, now: int, later: int, window: int)
    requires now <= later && window <= MAX_WINDOW
    ensures SumSince(Pruned(m, PruneCutoff(now)), later - window) == SumSince(m, later - window)
  {
    PruneKeepsSum(m, PruneCutoff(now), later - window);
  }

  // ---------- buckets against the exact log ----------

  datatype Use = Use(at: nat, tokens: nat)

  /** The hash after these uses, each added to the bucket of its time. */
  function Added(uses: seq<Use>): Hash
    decreases |uses|
  {
    if uses == [] then map[]
    else
      var u := uses[|uses| - 1];
      Bumped(Added(uses[..|uses| - 1]), BucketStamp(u.at), u.tokens)
  }

  /** The exact usage at or after a time. */
  function UsedSince(uses: seq<Use>, from: int): int
    decreases |uses|
  {
    if uses == [] then 0
    else
      var u := uses[|uses| - 1];
      UsedSince(uses[..|uses| - 1], from) + if u.at >= from then u.tokens else 0
  }

  /** The first bucket edge at or after a time. */
  function Edge(t: int): int {
    (t + BUCKET_SIZE - 1) / BUCKET_SIZE * BUCKET_SIZE
  }

  lemma {:induction false} EdgeIsNear(t: int)
    ensures t <= Edge(t) < t + BUCKET_SIZE
  {
  }

  lemma {:induction false} StampAgainstEdge(t: nat, c: int)
    ensures BucketStamp(t).at >= c <==> t >= Edge(c)
  {
    var q, e := t / BUCKET_SIZE, (c + BUCKET_SIZE - 1) / BUCKET_SIZE;
    assert q * BUCKET_SIZE <= t < q * BUCKET_SIZE + BUCKET_SIZE;
    assert c <= e * BUCKET_SIZE < c + BUCKET_SIZE;
    if q >= e {
      assert q * BUCKET_SIZE >= e * BUCKET_SIZE;
    } else {
      assert q * BUCKET_SIZE <= (e - 1) * BUCKET_SIZE;
    }
  }

  /** A window's bucketed sum is the exact usage since the first bucket edge inside it. */
  lemma {:induction false} SumIsUsageSinceEdge(uses: seq<Use>, cutoff: int)
    ensures SumSince(Added(uses), cutoff) == UsedSince(uses, Edge(cutoff))
    decreases |uses|
  {
    if uses != [] {
      var u := uses[|uses| - 1];
      SumIsUsageSinceEdge(uses[..|uses| - 1], cutoff);
      SumBumped(Added(uses[..|uses| - 1]), BucketStamp(u.at), u.tokens, cutoff);
      StampAgainstEdge(u.at, cutoff);
    }
  }

  lemma {:induction false} UsedMonotone(uses: seq<Use>, a: int, c: int)
    requires a <= c
    ensures UsedSince(uses, c) <= UsedSince(uses, a)
    decreases |uses|
  {
    if uses != [] {
      UsedMonotone(uses[..|uses| - 1], a, c);
    }
  }

  /** So it lies between the usage of the whole window and that of a window one bucket shorter. */
  lemma {:induction false} SumIsSandwiched(uses: seq<Use>, now: int, window: int)
    ensures UsedSince(uses, now - window + BUCKET_SIZE) <= SumSince(Added(uses), now - window) <= UsedSince(uses, now - window)
  {
    var c := now - window;
    SumIsUsageSinceEdge(uses, c);
    EdgeIsNear(c);
    UsedMonotone(uses, c, Edge(c));
    UsedMonotone(uses, Edge(c), c + BUCKET_SIZE);
  }

  // ---------- the limiter, one call at a time ----------

  datatype Unit = Tokens | Cost | Audio | Chars

  const UNITS: seq<Unit> := [Tokens, Cost, Audio, Chars]

  /** The enforced windows in seconds: five hours, a day, a week. */
  const WINDOWS: seq<nat> := [18_000, 86_400, MAX_WINDOW]

  /** One hash per unit for one key. */
  datatype Usage = Usage(tokens: Hash, cost: Hash, audio: Hash, chars: Hash) {
    function Of(u: Unit): Hash {
      match u
      case Tokens => tokens
      case Cost => cost
      case Audio => audio
      case Chars => chars
    }

    function Prune(now: int): Usage {
      var c := PruneCutoff(now);
      Usage(Pruned(tokens, c), Pruned(cost, c), Pruned(audio, c), Pruned(chars, c))
    }
  }

  /** A policy's caps, keyed by position in WINDOWS; money in dollars. */
  datatype Policy = Policy(tokens: map<nat, int>, dollars: map<nat, real>, audio: map<nat, int>, chars: map<nat, int>) {
    predicate Unlimited() {
      tokens == map[] && dollars == map[] && audio == map[] && chars == map[]
    }

    /** The cap in force on a window in a unit, money in millionths of a dollar. */
    function CapOn(w: nat, u: Unit): Option<int> {
      match u
      case Tokens => if w in tokens && tokens[w] > 0 then Some(tokens[w]) else None
      case Cost => if w in dollars && dollars[w] > 0.0 then Some((dollars[w] * 1000000.0).Floor) else None
      case Audio => if w in audio && audio[w] > 0 then Some(audio[w]) else None
      case Chars => if w in chars && chars[w] > 0 then Some(chars[w]) else None
    }
  }

  ghost predicate Exhausted(usage: Usage, p: Policy, now: int, w: nat, u: Unit)
    requires w < |WINDOWS|
  {
    p.CapOn(w, u).Some? && SumSince(usage.Of(u), now - WINDOWS[w]) >= p.CapOn(w, u).value
  }

  /** The usage of the last five hours, day or week, as the buckets have it. */
  ghost function Used(m: Hash, now: int, w: nat): int
    requires w < |WINDOWS|
  {
    SumSince(m, now - if w == 0 then 5 * 3600 else if w == 1 then 24 * 3600 else 7 * 24 * 3600)
  }

  /**
   When a request is out of budget, by the policy's own numbers: a positive cap is set on the window and the usage has reached it. Cost is kept
   in millionths of a dollar, so the dollars are reached when less than a millionth is left.
   */
  lemma {:induction false} ExhaustedMeans(usage: Usage, p: Policy, now: int, w: nat)
    requires w < |WINDOWS|
    ensures Exhausted(usage, p, now, w, Tokens) <==> w in p.tokens && 0 < p.tokens[w] <= Used(usage.tokens, now, w)
    ensures Exhausted(usage, p, now, w, Audio) <==> w in p.audio && 0 < p.audio[w] <= Used(usage.audio, now, w)
    ensures Exhausted(usage, p, now, w, Chars) <==> w in p.chars && 0 < p.chars[w] <= Used(usage.chars, now, w)
    ensures Exhausted(usage, p, now, w, Cost) <==>
      w in p.dollars && p.dollars[w] > 0.0 && p.dollars[w] - Used(usage.cost, now, w) as real / 1000000.0 < 1.0 / 1000000.0
  {
    assert WINDOWS[0] == 5 * 3600 && WINDOWS[1] == 24 * 3600 && WINDOWS[2] == 7 * 24 * 3600;
    if w in p.dollars {
      ReachedInDollars(p.dollars[w], Used(usage.cost, now, w));
    }
  }

  lemma {:induction false} ReachedInDollars(dollars: real, micros: int)
    ensures micros >= (dollars * 1000000.0).Floor <==> dollars - micros as real / 1000000.0 < 1.0 / 1000000.0
  {
    var x, f := dollars * 1000000.0, (dollars * 1000000.0).Floor;
    assert f as real <= x < f as real + 1.0;
    assert micros >= f <==> x < micros as real + 1.0;
  }

  /** walk visits every bucket of m once. */
  ghost predicate Enumerates(walk: seq<Bucket>, m: Hash) {
    && (forall b :: b in walk <==> b in m)
    && forall i, j :: 0 <= i < j < |walk| ==> walk[i] != walk[j]
  }

  /** rest is what a walk over m has yet to visit after its first i buckets. */
  ghost predicate Remains(rest: Hash, m: Hash, walk: seq<Bucket>, i: nat)
    requires i <= |walk|
  {
    && (forall b :: b in rest <==> b in walk[i..])
    && forall b <- rest :: b in m && rest[b] == m[b]
  }

  lemma {:induction false} AllRemains(m: Hash, walk: seq<Bucket>)
    requires Enumerates(walk, m)
    ensures Remains(m, m, walk, 0)
  {
    assert walk[0..] == walk;
  }

  lemma {:induction false} OneLessRemains(rest: Hash, m: Hash, walk: seq<Bucket>, i: nat)
    requires Enumerates(walk, m) && i < |walk| && Remains(rest, m, walk, i)
    ensures walk[i] in rest && rest[walk[i]] == m[walk[i]] && Remains(rest - {walk[i]}, m, walk, i + 1)
  {
    var b, later := walk[i], walk[i + 1..];
    assert walk[i..] == [b] + later;
    assert forall k :: 0 <= k < |later| ==> later[k] != b;
  }

  lemma {:induction false} NothingRemains(rest: Hash, m: Hash, walk: seq<Bucket>)
    requires Remains(rest, m, walk, |walk|)
    ensures rest == map[]
  {
    assert walk[|walk|..] == [];
    assert rest.Keys == {};
  }

  method SumWindow(m: Hash, walk: seq<Bucket>, cutoff: int) returns (sum: int)
    requires Enumerates(walk, m)
    ensures sum == SumSince(m, cutoff)
  {
    sum := 0;
    ghost var rest := m;
    AllRemains(m, walk);
    for i := 0 to |walk|
      invariant Remains(rest, m, walk, i)
      invariant sum + SumSince(rest, cutoff) == SumSince(m, cutoff)
    {
      var b := walk[i];
      OneLessRemains(rest, m, walk, i);
      SumTakes(rest, b, cutoff);
      if b.at >= cutoff {
        sum := sum + m[b];
      }
      rest := rest - {b};
    }
    NothingRemains(rest, m, walk);
  }

  method SumWindows(m: Hash, walk: seq<Bucket>, now: int) returns (sums: seq<int>)
    requires Enumerates(walk, m)
    ensures |sums| == |WINDOWS|
    ensures forall w :: 0 <= w < |WINDOWS| ==> sums[w] == SumSince(m, now - WINDOWS[w])
  {
    sums := [];
    for w := 0 to |WINDOWS|
      invariant |sums| == w
      invariant forall v :: 0 <= v < w ==> sums[v] == SumSince(m, now - WINDOWS[v])
    {
      var sum := SumWindow(m, walk, now - WINDOWS[w]);
      sums := sums + [sum];
    }
  }

  /** The decision; a refusal names the window and unit, the cap and the sum that met it. */
  datatype Decision =
    | Allowed(reserved: int, bucket: Bucket)
    | Refused(window: nat, unit: Unit, limit: int, used: int)

  /** Nothing is exhausted before unit position k of window w. */
  ghost predicate ClearBefore(usage: Usage, p: Policy, now: int, w: nat, k: nat) {
    && (forall v, j :: 0 <= v < w && v < |WINDOWS| && 0 <= j < |UNITS| ==> !Exhausted(usage, p, now, v, UNITS[j]))
    && forall j :: w < |WINDOWS| && 0 <= j < k && j < |UNITS| ==> !Exhausted(usage, p, now, w, UNITS[j])
  }

  /** d is the verdict on this usage: the first exhausted cap, windows before units, or a pass if there is none. */
  ghost predicate Verdict(usage: Usage, p: Policy, now: int, d: Option<Decision>) {
    match d
    case None => ClearBefore(usage, p, now, |WINDOWS|, 0)
    case Some(Allowed(_, _)) => false
    case Some(Refused(w, u, limit, used)) =>
      && w < |WINDOWS|
      && Exhausted(usage, p, now, w, u)
      && (exists k :: 0 <= k < |UNITS| && UNITS[k] == u && ClearBefore(usage, p, now, w, k))
      && p.CapOn(w, u) == Some(limit)
      && used == SumSince(usage.Of(u), now - WINDOWS[w])
  }

  /** The place of a unit in the order of refusal. */
  function Turn(u: Unit): nat {
    match u
    case Tokens => 0
    case Cost => 1
    case Audio => 2
    case Chars => 3
  }

  /** A refusal names the first cap that is met: no shorter window has one, nor has the same window in a unit before. */
  lemma {:induction false} RefusalIsFirst(usage: Usage, p: Policy, now: int, d: Decision, x: nat, v: Unit)
    requires d.Refused? && Verdict(usage, p, now, Some(d)) && x < |WINDOWS|
    ensures d.window < |WINDOWS| && Exhausted(usage, p, now, d.window, d.unit)
    ensures x < d.window || (x == d.window && Turn(v) < Turn(d.unit)) ==> !Exhausted(usage, p, now, x, v)
  {
    assert UNITS[Turn(v)] == v && forall k :: 0 <= k < |UNITS| ==> Turn(UNITS[k]) == k;
  }

  class Limiter {
    var usage: Usage

    /**
     Check: refuse at the first exhausted cap, otherwise reserve headroom.
     `locked` says whether the key's lock was won when a reservation was wanted.
     */
    method Check(p: Policy, reserve: int, locked: bool, now: nat, walk: Unit -> seq<Bucket>) returns (d: Decision)
      requires forall u :: Enumerates(walk(u), usage.Of(u))
      modifies this
      ensures p.Unlimited() ==> d.Allowed? && d.reserved == 0 && usage == old(usage)
      ensures d.Refused? ==> Verdict(old(usage), p, now, Some(d)) && usage == old(usage).Prune(now)
      ensures d.Allowed? && !p.Unlimited() ==>
        && Verdict(old(usage), p, now, None)
        && var holds := reserve > 0 && p.tokens != map[] && locked;
        && d == Allowed(if holds then reserve else 0, if holds then BucketStamp(now) else Bucket(0))
        && var kept := old(usage).Prune(now);
        && usage == if holds then kept.(tokens := Bumped(kept.tokens, BucketStamp(now), reserve)) else kept
    {
      if p.Unlimited() {
        return Allowed(0, Bucket(0));
      }
      var reserving := reserve > 0 && p.tokens != map[] && locked;
      var before := usage;
      usage := before.Prune(now);
      var found := Decide(before, p, now, walk);
      if found.Some? {
        return found.value;
      }
      if reserving {
        usage := usage.(tokens := Bumped(usage.tokens, BucketStamp(now), reserve));
        return Allowed(reserve, BucketStamp(now));
      }
      return Allowed(0, Bucket(0));
    }

    /** Add: correct the reservation to the real usage in its own bucket; the rest lands in the current one. */
    method Add(tokens: int, cost: int, audio: int, chars: int, reserved: int, bucket: Bucket, now: nat)
      modifies this
      ensures Moved(old(usage.tokens), usage.tokens, if reserved != 0 then bucket else BucketStamp(now), tokens - reserved)
      ensures Moved(old(usage.cost), usage.cost, BucketStamp(now), cost)
      ensures Moved(old(usage.audio), usage.audio, BucketStamp(now), audio)
      ensures Moved(old(usage.chars), usage.chars, BucketStamp(now), chars)
    {
      var field, delta := BucketStamp(now), tokens;
      if reserved != 0 {
        delta := tokens - reserved;
        field := bucket;
      }
      CreditedMoves(usage.tokens, field, delta);
      CreditedMoves(usage.cost, BucketStamp(now), cost);
      CreditedMoves(usage.audio, BucketStamp(now), audio);
      CreditedMoves(usage.chars, BucketStamp(now), chars);
      usage := Usage(
        Credited(usage.tokens, field, delta),
        Credited(usage.cost, BucketStamp(now), cost),
        Credited(usage.audio, BucketStamp(now), audio),
        Credited(usage.chars, BucketStamp(now), chars));
    }
  }

  /** Every window's sum went up by n if the window holds b, and otherwise not at all. */
  ghost predicate Moved(before: Hash, after: Hash, b: Bucket, n: int) {
    forall c :: SumSince(after, c) == SumSince(before, c) + Part(b, n, c)
  }

  /** An increment of zero writes nothing. */
  function Credited(m: Hash, b: Bucket, n: int): Hash {
    if n == 0 then m else Bumped(m, b, n)
  }

  lemma {:induction false} SumCredited(m: Hash, b: Bucket, n: int, cutoff: int)
    ensures SumSince(Credited(m, b, n), cutoff) == SumSince(m, cutoff) + Part(b, n, cutoff)
  {
    SumBumped(m, b, n, cutoff);
  }

  lemma {:induction false} CreditedMoves(m: Hash, b: Bucket, n: int)
    ensures Moved(m, Credited(m, b, n), b, n)
  {
    forall c ensures SumSince(Credited(m, b, n), c) == SumSince(m, c) + Part(b, n, c) {
      SumCredited(m, b, n, c);
    }
  }

  /** One window: its units in order. */
  method DecideWindow(usage: Usage, p: Policy, now: int, w: nat, sums: seq<int>) returns (found: Option<Decision>)
    requires w < |WINDOWS| && |sums| == |UNITS| && ClearBefore(usage, p, now, w, 0)
    requires forall k :: 0 <= k < |UNITS| ==> sums[k] == SumSince(usage.Of(UNITS[k]), now - WINDOWS[w])
    ensures found.Some? ==> Verdict(usage, p, now, found)
    ensures found.None? ==> ClearBefore(usage, p, now, w + 1, 0)
  {
    for k := 0 to |UNITS|
      invariant ClearBefore(usage, p, now, w, k)
    {
      var cap := p.CapOn(w, UNITS[k]);
      if cap.Some? && sums[k] >= cap.value {
        return Some(Refused(w, UNITS[k], cap.value, sums[k]));
      }
    }
    return None;
  }

  method Decide(usage: Usage, p: Policy, now: int, walk: Unit -> seq<Bucket>) returns (found: Option<Decision>)
    requires forall u :: Enumerates(walk(u), usage.Of(u))
    ensures Verdict(usage, p, now, found)
  {
    var tok := SumWindows(usage.tokens, walk(Tokens), now);
    var cost := SumWindows(usage.cost, walk(Cost), now);
    var audio := SumWindows(usage.audio, walk(Audio), now);
    var chars := SumWindows(usage.chars, walk(Chars), now);
    for w := 0 to |WINDOWS|
      invariant ClearBefore(usage, p, now, w, 0)
    {
      found := DecideWindow(usage, p, now, w, [tok[w], cost[w], audio[w], chars[w]]);
      if found.Some? {
        return;
      }
    }
    return None;
  }

  // ---------- many replicas on one key ----------

  /** An amount of tokens in a bucket: a reservation outstanding, or usage settled. */
  datatype Amount = Amount(bucket: Bucket, tokens: nat)

  /** A reserving Check that holds the lock and has decided to allow, at the time it read. */
  datatype Pending = Pending(at: nat, reserve: nat)

  datatype World = World(
    hash: Hash,
    clock: nat,
    lock: Option<Pending>,
    held: seq<Amount>,
    settled: seq<Amount>)

  const START := World(map[], 0, None, [], [])

  /**
   What can happen to one key's token hash, interleaved in any way.
   - Look: a Check takes the lock, notes the time and reads; if no cap is met it keeps the lock to reserve.
   - Reserve, GiveUp: it reserves and unlocks, or its increment fails and it unlocks.
   - Settle: an Add corrects outstanding reservation i; Adds take no lock.
   - Direct: an Add without a reservation.
   - Prune: some Check, locked or not, deletes expired buckets it saw.
   */
  datatype Event =
    | Tick(seconds: nat)
    | Look(at: nat, reserve: nat)
    | Reserve
    | GiveUp
    | Settle(i: nat, tokens: nat)
    | Direct(tokens: nat)
    | Prune(at: nat, fields: set<Bucket>)

  /** No outstanding reservation sits in a bucket that a prune at this time could delete. */
  ghost predicate NoneExpired(held: seq<Amount>, at: int) {
    forall h <- held :: h.bucket.at >= PruneCutoff(at)
  }

  /**
   The events a run is made of. Three clauses are hypotheses on the callers, not on the limiter:
   usage stays within its reservation, reservations are at most r,
   and a reservation is made and settled before its bucket is prunable.
   */
  ghost predicate Enabled(w: World, e: Event, r: nat) {
    match e
    case Tick(_) => true
    case Look(at, reserve) => w.lock.None? && at <= w.clock && 0 < reserve <= r
    case Reserve => w.lock.Some? && BucketStamp(w.lock.value.at).at >= PruneCutoff(w.clock)
    case GiveUp => w.lock.Some?
    case Settle(i, tokens) => i < |w.held| && tokens <= w.held[i].tokens
    case Direct(_) => true
    case Prune(at, fields) => at <= w.clock && NoneExpired(w.held, at) && forall b <- fields :: b.at < PruneCutoff(at)
  }

  ghost predicate Passes(m: Hash, caps: seq<Cap>, at: int) {
    forall k <- caps :: k.limit > 0 ==> SumSince(m, at - k.window) < k.limit
  }

  /** A policy's token caps; a window it does not name has none. */
  function TokenCaps(p: Policy): seq<Cap> {
    seq(|WINDOWS|, w requires 0 <= w < |WINDOWS| => Cap(WINDOWS[w], if w in p.tokens then p.tokens[w] else 0))
  }

  /** What Check refuses is at least what Look refuses. */
  lemma {:induction false} AllowedPasses(usage: Usage, p: Policy, now: int)
    requires Verdict(usage, p, now, None)
    ensures Passes(usage.tokens, TokenCaps(p), now)
  {
    forall k | k in TokenCaps(p) && k.limit > 0 ensures SumSince(usage.tokens, now - k.window) < k.limit {
      var w :| 0 <= w < |WINDOWS| && TokenCaps(p)[w] == k;
      assert UNITS[0] == Tokens;
      assert !Exhausted(usage, p, now, w, Tokens);
    }
  }

  ghost function Step(w: World, e: Event, caps: seq<Cap>, r: nat): World
    requires Enabled(w, e, r)
  {
    match e
    case Tick(seconds) => w.(clock := w.clock + seconds)
    case Look(at, reserve) => if Passes(w.hash, caps, at) then w.(lock := Some(Pending(at, reserve))) else w
    case Reserve =>
      var b := BucketStamp(w.lock.value.at);
      var n := w.lock.value.reserve;
      w.(hash := Bumped(w.hash, b, n), lock := None, held := w.held + [Amount(b, n)])
    case GiveUp => w.(lock := None)
    case Settle(i, tokens) =>
      var h := w.held[i];
      w.(hash := Credited(w.hash, h.bucket, tokens - h.tokens),
         held := Without(w.held, i),
         settled := w.settled + [Amount(h.bucket, tokens)])
    case Direct(tokens) =>
      var b := BucketStamp(w.clock);
      w.(hash := Credited(w.hash, b, tokens), settled := w.settled + [Amount(b, tokens)])
    case Prune(_, fields) => w.(hash := w.hash - fields)
  }

  /** A run: the worlds after each event. */
  ghost predicate IsRun(ws: seq<World>, es: seq<Event>, caps: seq<Cap>, r: nat) {
    && |ws| == |es| + 1
    && ws[0] == START
    && forall i :: 0 <= i < |es| ==> Enabled(ws[i], es[i], r) && ws[i + 1] == Step(ws[i], es[i], caps, r)
  }

  // ---------- conservation ----------

  function Total(s: seq<Amount>, b: Bucket): nat
    decreases |s|
  {
    if s == [] then 0
    else
      var a := s[|s| - 1];
      Total(s[..|s| - 1], b) + if a.bucket == b then a.tokens else 0
  }

  lemma {:induction false} TotalSnoc(s: seq<Amount>, a: Amount, b: Bucket)
    ensures Total(s + [a], b) == Total(s, b) + if a.bucket == b then a.tokens else 0
  {
    assert (s + [a])[..|s|] == s;
  }

  lemma {:induction false} TotalWithout(s: seq<Amount>, i: nat, b: Bucket)
    requires i < |s|
    ensures Total(s, b) == Total(Without(s, i), b) + if s[i].bucket == b then s[i].tokens else 0
    decreases |s|
  {
    var n := |s| - 1;
    if i == n {
      assert Without(s, i) == s[..n];
    } else {
      TotalWithout(s[..n], i, b);
      assert Without(s, i) == Without(s[..n], i) + [s[n]];
      TotalSnoc(Without(s[..n], i), s[n], b);
    }
  }

  lemma {:induction false} NothingHeld(held: seq<Amount>, b: Bucket)
    requires forall h <- held :: h.bucket != b
    ensures Total(held, b) == 0
    decreases |held|
  {
    if held != [] {
      NothingHeld(held[..|held| - 1], b);
    }
  }

  /**
   A bucket holds exactly its settled usage and outstanding reservations.
   A bucket that is gone has no reservation, and had no usage unless it has expired.
   */
  predicate BucketBalanced(w: World, b: Bucket) {
    if b in w.hash then w.hash[b] == Total(w.settled, b) + Total(w.held, b)
    else Total(w.held, b) == 0 && (b.at < PruneCutoff(w.clock) || Total(w.settled, b) == 0)
  }

  lemma {:induction false} StampIsNear(t: nat)
    ensures t - BUCKET_SIZE < BucketStamp(t).at <= t
  {
  }

  lemma {:induction false} ReserveBalances(w: World, caps: seq<Cap>, r: nat, b: Bucket)
    requires Enabled(w, Reserve, r) && BucketBalanced(w, b)
    ensures BucketBalanced(Step(w, Reserve, caps, r), b)
  {
    TotalSnoc(w.held, Amount(BucketStamp(w.lock.value.at), w.lock.value.reserve), b);
  }

  lemma {:induction false} SettleBalances(w: World, i: nat, tokens: nat, caps: seq<Cap>, r: nat, b: Bucket)
    requires Enabled(w, Settle(i, tokens), r) && BucketBalanced(w, b) && w.held[i].tokens > 0
    ensures BucketBalanced(Step(w, Settle(i, tokens), caps, r), b)
  {
    TotalWithout(w.held, i, b);
    TotalSnoc(w.settled, Amount(w.held[i].bucket, tokens), b);
  }

  lemma {:induction false} DirectBalances(w: World, tokens: nat, caps: seq<Cap>, r: nat, b: Bucket)
    requires BucketBalanced(w, b)
    ensures BucketBalanced(Step(w, Direct(tokens), caps, r), b)
  {
    StampIsNear(w.clock);
    TotalSnoc(w.settled, Amount(BucketStamp(w.clock), tokens), b);
  }

  lemma {:induction false} PruneBalances(w: World, at: nat, fields: set<Bucket>, caps: seq<Cap>, r: nat, b: Bucket)
    requires Enabled(w, Prune(at, fields), r) && BucketBalanced(w, b)
    ensures BucketBalanced(Step(w, Prune(at, fields), caps, r), b)
  {
    if b in fields {
      NothingHeld(w.held, b);
    }
  }

  lemma {:induction false} StepBalances(w: World, e: Event, caps: seq<Cap>, r: nat, b: Bucket)
    requires Enabled(w, e, r)
    requires BucketBalanced(w, b)
    requires forall h <- w.held :: h.tokens > 0
    ensures BucketBalanced(Step(w, e, caps, r), b)
  {
    match e
    case Tick(_) =>
    case Look(_, _) =>
    case GiveUp =>
    case Reserve => ReserveBalances(w, caps, r, b);
    case Settle(i, tokens) => SettleBalances(w, i, tokens, caps, r, b);
    case Direct(tokens) => DirectBalances(w, tokens, caps, r, b);
    case Prune(at, fields) => PruneBalances(w, at, fields, caps, r, b);
  }

  ghost predicate LockSound(w: World) {
    w.lock.Some? ==> w.lock.value.reserve > 0
  }

  ghost predicate Balanced(w: World) {
    && (forall h <- w.held :: h.tokens > 0)
    && LockSound(w)
    && forall b :: BucketBalanced(w, b)
  }

  lemma {:induction false} StepKeepsBalance(w: World, e: Event, caps: seq<Cap>, r: nat)
    requires Enabled(w, e, r) && Balanced(w)
    ensures Balanced(Step(w, e, caps, r))
  {
    forall b ensures BucketBalanced(Step(w, e, caps, r), b) {
      StepBalances(w, e, caps, r, b);
    }
  }

  lemma {:induction false} RunBalanced(ws: seq<World>, es: seq<Event>, caps: seq<Cap>, r: nat, i: nat)
    requires IsRun(ws, es, caps, r) && i < |ws|
    ensures Balanced(ws[i])
  {
    if i == 0 {
      assert forall b :: BucketBalanced(START, b);
    } else {
      RunBalanced(ws, es, caps, r, i - 1);
      StepKeepsBalance(ws[i - 1], es[i - 1], caps, r);
    }
  }

  /** In every world of every run, a bucket is its settled usage plus its outstanding reservations. */
  lemma {:induction false} BucketsConserve(ws: seq<World>, es: seq<Event>, caps: seq<Cap>, r: nat, i: nat, b: Bucket)
    requires IsRun(ws, es, caps, r) && i < |ws|
    requires b.at >= PruneCutoff(ws[i].clock)
    ensures Value(ws[i].hash, b) == Total(ws[i].settled, b) + Total(ws[i].held, b)
  {
    RunBalanced(ws, es, caps, r, i);
    assert BucketBalanced(ws[i], b);
  }

  // ---------- the overshoot bound ----------

  lemma {:induction false} SumOfFewer(k: Hash, m: Hash, cutoff: int)
    requires NonNegative(m)
    requires forall b <- k :: b in m && k[b] == m[b]
    ensures SumSince(k, cutoff) <= SumSince(m, cutoff)
    decreases |m|
  {
    if m == map[] {
      assert k == m;
    } else {
      HasBucket(m);
      var b :| b in m;
      Smaller(m, b);
      SumTakes(m, b, cutoff);
      SumOfFewer(k - {b}, m - {b}, cutoff);
      if b in k {
        SumTakes(k, b, cutoff);
      } else {
        assert k - {b} == k;
      }
    }
  }

  lemma {:induction false} BalancedIsNonNegative(w: World)
    requires Balanced(w)
    ensures NonNegative(w.hash)
  {
    forall b | b in w.hash ensures w.hash[b] >= 0 {
      assert BucketBalanced(w, b);
    }
  }

  /** The cap is overshot by less than one reservation; a decided but unfinished Check saw it unmet. */
  ghost predicate Within(w: World, k: Cap, r: nat) {
    && SumSince(w.hash, w.clock - k.window) <= k.limit - 1 + r
    && (w.lock.Some? ==>
          && w.lock.value.at <= w.clock
          && w.lock.value.reserve <= r
          && SumSince(w.hash, w.lock.value.at - k.window) <= k.limit - 1)
  }

  lemma {:induction false} StepStaysWithin(w: World, e: Event, caps: seq<Cap>, r: nat, k: Cap)
    requires Enabled(w, e, r) && !e.Direct?
    requires Balanced(w) && k in caps && k.limit > 0
    requires Within(w, k, r)
    ensures Within(Step(w, e, caps, r), k, r)
  {
    StepKeepsBalance(w, e, caps, r);
    var v := Step(w, e, caps, r);
    BalancedIsNonNegative(w);
    BalancedIsNonNegative(v);
    match e
    case Tick(_) => SumMonotone(w.hash, w.clock - k.window, v.clock - k.window);
    case Look(_, _) =>
    case GiveUp =>
    case Reserve =>
      var p := w.lock.value;
      SumBumped(w.hash, BucketStamp(p.at), p.reserve, p.at - k.window);
      SumMonotone(v.hash, p.at - k.window, w.clock - k.window);
    case Settle(i, tokens) =>
      CreditedMoves(w.hash, w.held[i].bucket, tokens - w.held[i].tokens);
    case Prune(_, fields) =>
      SumOfFewer(v.hash, w.hash, w.clock - k.window);
      if w.lock.Some? {
        SumOfFewer(v.hash, w.hash, w.lock.value.at - k.window);
      }
  }

  lemma {:induction false} RunStaysWithin(ws: seq<World>, es: seq<Event>, caps: seq<Cap>, r: nat, k: Cap, i: nat)
    requires IsRun(ws, es, caps, r) && i < |ws|
    requires forall e <- es :: !e.Direct?
    requires k in caps && k.limit > 0
    ensures Within(ws[i], k, r)
  {
    if i > 0 {
      RunBalanced(ws, es, caps, r, i - 1);
      RunStaysWithin(ws, es, caps, r, k, i - 1);
      StepStaysWithin(ws[i - 1], es[i - 1], caps, r, k);
    }
  }

  /** The amounts in buckets that start at or after cutoff. */
  function TotalSince(s: seq<Amount>, cutoff: int): nat
    decreases |s|
  {
    if s == [] then 0
    else
      var a := s[|s| - 1];
      TotalSince(s[..|s| - 1], cutoff) + Part(a.bucket, a.tokens, cutoff)
  }

  lemma {:induction false} SinceSnoc(s: seq<Amount>, a: Amount, cutoff: int)
    ensures TotalSince(s + [a], cutoff) == TotalSince(s, cutoff) + Part(a.bucket, a.tokens, cutoff)
  {
    assert (s + [a])[..|s|] == s;
  }

  lemma {:induction false} SinceWithout(s: seq<Amount>, i: nat, cutoff: int)
    requires i < |s|
    ensures TotalSince(s, cutoff) == TotalSince(Without(s, i), cutoff) + Part(s[i].bucket, s[i].tokens, cutoff)
    decreases |s|
  {
    var n := |s| - 1;
    if i == n {
      assert Without(s, i) == s[..n];
    } else {
      SinceWithout(s[..n], i, cutoff);
      assert Without(s, i) == Without(s[..n], i) + [s[n]];
      SinceSnoc(Without(s[..n], i), s[n], cutoff);
    }
  }

  lemma {:induction false} SumWithoutExpired(m: Hash, fields: set<Bucket>, cutoff: int)
    requires forall b <- fields :: b.at < cutoff
    ensures SumSince(m - fields, cutoff) == SumSince(m, cutoff)
    decreases |m|
  {
    if m == map[] {
      assert m - fields == m;
    } else {
      HasBucket(m);
      var b :| b in m;
      Smaller(m, b);
      SumTakes(m, b, cutoff);
      SumWithoutExpired(m - {b}, fields, cutoff);
      if b in fields {
        assert m - {b} - fields == m - fields;
      } else {
        SumTakes(m - fields, b, cutoff);
        assert m - {b} - fields == m - fields - {b};
      }
    }
  }

  /** The sum since cutoff is exactly what was settled and what is reserved there. */
  ghost predicate SumConserved(w: World, cutoff: int) {
    SumSince(w.hash, cutoff) == TotalSince(w.settled, cutoff) + TotalSince(w.held, cutoff)
  }

  lemma {:induction false} PartsAdd(b: Bucket, n: int, m: int, cutoff: int)
    ensures Part(b, n - m, cutoff) == Part(b, n, cutoff) - Part(b, m, cutoff)
  {
  }

  lemma {:induction false} SettleKeepsSum(w: World, i: nat, tokens: nat, caps: seq<Cap>, r: nat, cutoff: int)
    requires Enabled(w, Settle(i, tokens), r) && SumConserved(w, cutoff)
    ensures SumConserved(Step(w, Settle(i, tokens), caps, r), cutoff)
  {
    var h := w.held[i];
    var v := Step(w, Settle(i, tokens), caps, r);
    assert SumSince(v.hash, cutoff) == SumSince(w.hash, cutoff) + Part(h.bucket, tokens - h.tokens, cutoff) by {
      SumCredited(w.hash, h.bucket, tokens - h.tokens, cutoff);
    }
    assert TotalSince(w.held, cutoff) == TotalSince(v.held, cutoff) + Part(h.bucket, h.tokens, cutoff) by {
      SinceWithout(w.held, i, cutoff);
    }
    assert TotalSince(v.settled, cutoff) == TotalSince(w.settled, cutoff) + Part(h.bucket, tokens, cutoff) by {
      SinceSnoc(w.settled, Amount(h.bucket, tokens), cutoff);
    }
    PartsAdd(h.bucket, tokens, h.tokens, cutoff);
  }

  lemma {:induction false} DirectKeepsSum(w: World, tokens: nat, caps: seq<Cap>, r: nat, cutoff: int)
    requires SumConserved(w, cutoff)
    ensures SumConserved(Step(w, Direct(tokens), caps, r), cutoff)
  {
    SumCredited(w.hash, BucketStamp(w.clock), tokens, cutoff);
    SinceSnoc(w.settled, Amount(BucketStamp(w.clock), tokens), cutoff);
  }

  lemma {:induction false} StepKeepsSum(w: World, e: Event, caps: seq<Cap>, r: nat, cutoff: int)
    requires Enabled(w, e, r)
    requires cutoff >= PruneCutoff(w.clock)
    requires SumConserved(w, cutoff)
    ensures SumConserved(Step(w, e, caps, r), cutoff)
  {
    match e
    case Tick(_) =>
    case Look(_, _) =>
    case GiveUp =>
    case Reserve =>
      var b, n := BucketStamp(w.lock.value.at), w.lock.value.reserve;
      SumBumped(w.hash, b, n, cutoff);
      SinceSnoc(w.held, Amount(b, n), cutoff);
    case Settle(i, tokens) => SettleKeepsSum(w, i, tokens, caps, r, cutoff);
    case Direct(tokens) => DirectKeepsSum(w, tokens, caps, r, cutoff);
    case Prune(_, fields) => SumWithoutExpired(w.hash, fields, cutoff);
  }

  lemma {:induction false} RunKeepsSum(ws: seq<World>, es: seq<Event>, caps: seq<Cap>, r: nat, cutoff: int, i: nat)
    requires IsRun(ws, es, caps, r) && i < |ws|
    requires cutoff >= PruneCutoff(ws[i].clock)
    ensures SumConserved(ws[i], cutoff)
  {
    if i > 0 {
      RunKeepsSum(ws, es, caps, r, cutoff, i - 1);
      StepKeepsSum(ws[i - 1], es[i - 1], caps, r, cutoff);
    }
  }

  /**
   The overshoot bound: in every run in which every Add settles a reservation, no capped window ever
   shows more than the cap less one plus one reservation, and the usage
   billed in the window plus what is still reserved there is exactly that sum.
   */
  lemma {:induction false} OvershootIsOneReservation(ws: seq<World>, es: seq<Event>, caps: seq<Cap>, r: nat, k: Cap, i: nat)
    requires IsRun(ws, es, caps, r) && i < |ws|
    requires forall e <- es :: !e.Direct?
    requires k in caps && k.limit > 0 && k.window <= MAX_WINDOW
    ensures var cutoff := ws[i].clock - k.window;
      && SumConserved(ws[i], cutoff)
      && TotalSince(ws[i].settled, cutoff) + TotalSince(ws[i].held, cutoff) <= k.limit - 1 + r
  {
    RunStaysWithin(ws, es, caps, r, k, i);
    RunKeepsSum(ws, es, caps, r, ws[i].clock - k.window, i);
  }
}
