/**
 Model of internal/breaker/breaker.go: the circuit breaker of one tier.

 A `Rec` is the stored record. `Admitted`, `Reported` and `Abandoned` are the
 closures `admit`, `Record` and `AbandonProbe` hand to `update`, as functions
 of the record; `MemStore` is the in-process store that runs them under its
 mutex. Times and durations are milliseconds. An empty stored state reads as
 closed, so the model has no separate empty state.
 */
module Breakers {
  import opened Common

  datatype State = Closed | Open | HalfOpen

  datatype Reason = NoReason | ConsecutiveFailures | ErrorRate | ProbeFailed

  datatype Settings = Settings(
    failures: int, errorRate: real, window: int, minRequests: int,
    cooldown: int, maxCooldown: int, stable: int, probeLease: int)

  datatype Rec = Rec(
    state: State, reason: Reason, consecutive: nat,
    windowStart: int, windowReqs: nat, windowFails: nat,
    trips: nat, cooldownMs: int, openUntil: int, probeUntil: int, closedAt: int)

  /** The record of a tier nothing is stored for. */
  const NEW := Rec(Closed, NoReason, 0, 0, 0, 0, 0, 0, 0, 0, 0)

  datatype Admission = Admission(skip: bool, probe: bool, openUntil: Option<int>)

  const PASS := Admission(false, false, None)

  datatype Cause = Tripped(reason: Reason) | Probed | Manual | CooledDown | Forced

  datatype Transition = Transition(from: State, to: State, cause: Cause, cooldown: int)

  /** What a closure given to update does: commit says whether rec is stored. */
  datatype Effect = Effect(commit: bool, rec: Rec, adm: Admission, tr: Option<Transition>)

  const MIN_PROBE_LEASE := 30_000

  function Lease(cfg: Settings): int {
    Max(cfg.probeLease, MIN_PROBE_LEASE)
  }

  predicate CoolingDown(r: Rec, now: int) {
    match r.state
    case Open => now < r.openUntil
    case HalfOpen => now < r.probeUntil
    case Closed => false
  }

  predicate Blocks(r: Rec, now: int, force: bool) {
    !(force && r.state.Open?) && CoolingDown(r, now)
  }

  function Skip(r: Rec): Admission {
    Admission(true, false, if r.state.Open? then Some(r.openUntil) else None)
  }

  function Admitted(r: Rec, cfg: Settings, now: int, force: bool): Effect {
    if r.state.Closed? then Effect(false, r, PASS, None)
    else if Blocks(r, now, force) then Effect(false, r, Skip(r), None)
    else
      var cause := if force && CoolingDown(r, now) then Forced else CooledDown;
      Effect(true, r.(state := HalfOpen, probeUntil := now + Lease(cfg)),
             PASS.(probe := true), Some(Transition(r.state, HalfOpen, cause, 0)))
  }

  /**
   What a request is told, by the clock: a closed tier lets it pass; an open one skips it until its cooldown has run
   out, and says when that is, unless it is forced; a probed one skips it until the lease has run out, forced or not.
   */
  ghost predicate ToldRightly(r: Rec, cfg: Settings, now: int, force: bool, adm: Admission) {
    match r.state
    case Closed => adm == Admission(false, false, None)
    case Open => adm == if now < r.openUntil && !force then Admission(true, false, Some(r.openUntil)) else Admission(false, true, None)
    case HalfOpen => adm == if now < r.probeUntil then Admission(true, false, None) else Admission(false, true, None)
  }

  /** The record while a probe granted at now is out: for ProbeLease, but no less than half a minute. */
  ghost function Lent(r: Rec, cfg: Settings, now: int): Rec {
    r.(state := HalfOpen, probeUntil := now + if cfg.probeLease < 30_000 then 30_000 else cfg.probeLease)
  }

  /** What admit says and stores: nothing, unless it grants the probe; a grant before the cooldown ran out is reported as forced. */
  lemma {:induction false} AdmitMeans(r: Rec, cfg: Settings, now: int, force: bool)
    ensures var e := Apply(r, Admit(now, cfg, force));
      && ToldRightly(r, cfg, now, force, e.adm)
      && e.commit == e.tr.Some? == e.adm.probe && e.rec == (if e.adm.probe then Lent(r, cfg, now) else r)
      && (e.adm.probe ==> e.tr == Some(Transition(r.state, HalfOpen, if r.state.Open? && now < r.openUntil then Forced else CooledDown, 0)))
  {
  }

  // ---------- the doubling cooldown ----------

  /** The loop of trip: double while below max, at most n times. */
  function Grown(cooldown: int, max: int, n: nat): int
    decreases n
  {
    if n == 0 || cooldown >= max then cooldown else Grown(2 * cooldown, max, n - 1)
  }

  function NextCooldown(cfg: Settings, trips: nat): int
    requires trips >= 1
  {
    var c := Grown(cfg.cooldown, cfg.maxCooldown, trips - 1);
    if cfg.maxCooldown > 0 && c > cfg.maxCooldown then cfg.maxCooldown else c
  }

  function NextTrips(r: Rec, cfg: Settings, now: int): (n: nat)
    ensures n >= 1
  {
    if r.state.Closed? && r.closedAt > 0 && now - r.closedAt >= cfg.stable then 1 else r.trips + 1
  }

  function TripRec(r: Rec, cfg: Settings, now: int, reason: Reason): Rec {
    var trips := NextTrips(r, cfg, now);
    var cooldown := NextCooldown(cfg, trips);
    NEW.(state := Open, reason := reason, trips := trips, cooldownMs := cooldown,
         openUntil := now + cooldown, closedAt := r.closedAt)
  }

  function TripEffect(r: Rec, cfg: Settings, now: int, reason: Reason): Effect {
    var t := TripRec(r, cfg, now, reason);
    Effect(true, t, PASS, Some(Transition(r.state, Open, Tripped(reason), t.cooldownMs)))
  }

  method Trip(r: Rec, cfg: Settings, now: int, reason: Reason) returns (out: Rec, tr: Transition)
    ensures Effect(true, out, PASS, Some(tr)) == TripEffect(r, cfg, now, reason)
  {
    var from := r.state;
    var trips := r.trips;
    if from.Closed? && r.closedAt > 0 && now - r.closedAt >= cfg.stable {
      trips := 0;
    }
    trips := trips + 1;
    var cooldown := cfg.cooldown;
    var i := 1;
    while i < trips && cooldown < cfg.maxCooldown
      invariant 1 <= i <= trips
      invariant Grown(cooldown, cfg.maxCooldown, trips - i) == Grown(cfg.cooldown, cfg.maxCooldown, trips - 1)
    {
      cooldown := cooldown * 2;
      i := i + 1;
    }
    if cfg.maxCooldown > 0 && cooldown > cfg.maxCooldown {
      cooldown := cfg.maxCooldown;
    }
    out := NEW.(state := Open, reason := reason, trips := trips, cooldownMs := cooldown,
                openUntil := now + cooldown, closedAt := r.closedAt);
    tr := Transition(from, Open, Tripped(reason), cooldown);
  }

  function Pow2(n: nat): (p: nat)
    ensures p >= 1
  {
    if n == 0 then 1 else 2 * Pow2(n - 1)
  }

  lemma {:induction false} GrownIsCapped(c: int, max: int, n: nat)
    requires c > 0
    ensures Min(Grown(c, max, n), max) == Min(c * Pow2(n), max)
    decreases n
  {
    if n > 0 && c < max {
      GrownIsCapped(2 * c, max, n - 1);
      assert 2 * c * Pow2(n - 1) == c * Pow2(n);
    } else if n > 0 {
      assert c * Pow2(n) >= c by { assert c * (Pow2(n) - 1) >= 0; }
    }
  }

  /** The n-th trip of a run of trips stays open min(Cooldown * 2^(n-1), MaxCooldown). */
  lemma {:induction false} CooldownClosedForm(cfg: Settings, trips: nat)
    requires cfg.cooldown > 0 && cfg.maxCooldown > 0 && trips >= 1
    ensures NextCooldown(cfg, trips) == Min(cfg.cooldown * Pow2(trips - 1), cfg.maxCooldown)
  {
    GrownIsCapped(cfg.cooldown, cfg.maxCooldown, trips - 1);
  }

  // ---------- reporting an outcome ----------

  predicate RateExceeded(cfg: Settings, reqs: nat, fails: nat) {
    cfg.minRequests > 0 && reqs >= cfg.minRequests && fails as real > cfg.errorRate * reqs as real
  }

  /** The record once this outcome is in its window. */
  function Counted(r: Rec, cfg: Settings, now: int, failed: bool): Rec {
    var w := if r.windowStart == 0 || now - r.windowStart >= cfg.window
             then r.(windowStart := now, windowReqs := 0, windowFails := 0) else r;
    if failed
    then w.(windowReqs := w.windowReqs + 1, windowFails := w.windowFails + 1, consecutive := w.consecutive + 1)
    else w.(windowReqs := w.windowReqs + 1, consecutive := 0)
  }

  function Reported(r: Rec, cfg: Settings, now: int, failed: bool, probe: bool): Effect {
    match r.state
    case HalfOpen =>
      if !probe then Effect(false, r, PASS, None)
      else if failed then TripEffect(r, cfg, now, ProbeFailed)
      else Effect(true, NEW.(trips := r.trips, cooldownMs := r.cooldownMs, closedAt := now),
                  PASS, Some(Transition(HalfOpen, Closed, Probed, 0)))
    case Open => Effect(false, r, PASS, None)
    case Closed =>
      var c := Counted(r, cfg, now, failed);
      if failed && cfg.failures > 0 && c.consecutive >= cfg.failures
      then TripEffect(c, cfg, now, ConsecutiveFailures)
      else if failed && RateExceeded(cfg, c.windowReqs, c.windowFails)
      then TripEffect(c, cfg, now, ErrorRate)
      else Effect(true, c, PASS, None)
  }

  function Abandoned(r: Rec, now: int): Effect {
    if !r.state.HalfOpen? then Effect(false, r, PASS, None)
    else Effect(true, r.(probeUntil := 0, state := if now < r.openUntil then Open else HalfOpen), PASS, None)
  }

  /**
   What an outcome does to a tier that is not closed: only the probe of a half-open one counts; a success closes the tier with its row of trips
   remembered and its counters at zero, and a failure opens it for the next cooldown of the row.
   */
  lemma {:induction false} ReportMeans(r: Rec, cfg: Settings, now: int, failed: bool, probe: bool)
    requires !r.state.Closed?
    ensures var e := Reported(r, cfg, now, failed, probe);
      if r.state.Open? || !probe then e == Effect(false, r, PASS, None)
      else if failed then
        && e.commit && e.rec.state.Open? && e.rec.reason == ProbeFailed && e.rec.trips == r.trips + 1
        && (cfg.cooldown > 0 && cfg.maxCooldown > 0 ==>
              e.rec.openUntil == now + Min(cfg.cooldown * Pow2(r.trips), cfg.maxCooldown))
      else
        e.commit && e.rec == Rec(Closed, NoReason, 0, 0, 0, 0, r.trips, r.cooldownMs, 0, 0, now)
  {
    if cfg.cooldown > 0 && cfg.maxCooldown > 0 {
      CooldownClosedForm(cfg, r.trips + 1);
    }
  }

  /** After a probe is handed back at `back` the next request is the probe exactly when it is forced, or one of the two came past the cooldown. */
  lemma {:induction false} HandBackFreesProbe(r: Rec, back: int, cfg: Settings, now: nat, force: bool)
    requires r.state.HalfOpen?
    ensures Admitted(Abandoned(r, back).rec, cfg, now, force).adm ==
      if force || back >= r.openUntil || now >= r.openUntil then Admission(false, true, None) else Admission(true, false, Some(r.openUntil))
  {
  }

  // ---------- the in-process store ----------

  datatype Key = Key(alias: string, tier: int)

  /** One atomic memStore.update: the record f leaves for k, if it commits. */
  function Updated(recs: map<Key, Rec>, k: Key, e: Effect): map<Key, Rec> {
    if e.commit then recs[k := e.rec] else recs
  }

  function Load(recs: map<Key, Rec>, k: Key): Rec {
    if k in recs then recs[k] else NEW
  }

  class MemStore {
    var recs: map<Key, Rec>

    constructor ()
      ensures recs == map[]
    {
      recs := map[];
    }

    method Admit(k: Key, cfg: Settings, now: int, force: bool) returns (adm: Admission, tr: Option<Transition>)
      modifies this
      ensures var e := Admitted(Load(old(recs), k), cfg, now, force);
        recs == Updated(old(recs), k, e) && adm == e.adm && tr == e.tr
      ensures ToldRightly(Load(old(recs), k), cfg, now, force, adm)
      ensures recs == if adm.probe then old(recs)[k := Lent(Load(old(recs), k), cfg, now)] else old(recs)
    {
      var r := Load(recs, k);
      adm, tr := PASS, None;
      if r.state.Closed? {
        return;
      }
      if Blocks(r, now, force) {
        adm := Skip(r);
        return;
      }
      var cause := CooledDown;
      if force && CoolingDown(r, now) {
        cause := Forced;
      }
      tr := Some(Transition(r.state, HalfOpen, cause, 0));
      r := r.(state := HalfOpen, probeUntil := now + Lease(cfg));
      adm := adm.(probe := true);
      recs := recs[k := r];
    }

    method Record(k: Key, cfg: Settings, now: int, failed: bool, probe: bool) returns (tr: Option<Transition>)
      modifies this
      ensures var e := Reported(Load(old(recs), k), cfg, now, failed, probe);
        recs == Updated(old(recs), k, e) && tr == e.tr
    {
      var r := Load(recs, k);
      tr := None;
      if r.state.HalfOpen? {
        if !probe {
          return;
        }
        if failed {
          var t;
          r, t := Trip(r, cfg, now, ProbeFailed);
          tr := Some(t);
        } else {
          tr := Some(Transition(HalfOpen, Closed, Probed, 0));
          r := NEW.(trips := r.trips, cooldownMs := r.cooldownMs, closedAt := now);
        }
        recs := recs[k := r];
        return;
      }
      if r.state.Open? {
        return;
      }
      if r.windowStart == 0 || now - r.windowStart >= cfg.window {
        r := r.(windowStart := now, windowReqs := 0, windowFails := 0);
      }
      r := r.(windowReqs := r.windowReqs + 1);
      if !failed {
        recs := recs[k := r.(consecutive := 0)];
        return;
      }
      r := r.(consecutive := r.consecutive + 1, windowFails := r.windowFails + 1);
      if cfg.failures > 0 && r.consecutive >= cfg.failures {
        var t;
        r, t := Trip(r, cfg, now, ConsecutiveFailures);
        tr := Some(t);
      } else if RateExceeded(cfg, r.windowReqs, r.windowFails) {
        var t;
        r, t := Trip(r, cfg, now, ErrorRate);
        tr := Some(t);
      }
      recs := recs[k := r];
    }

    method AbandonProbe(k: Key, now: int)
      modifies this
      ensures recs == Updated(old(recs), k, Abandoned(Load(old(recs), k), now))
    {
      var r := Load(recs, k);
      if !r.state.HalfOpen? {
        return;
      }
      r := r.(probeUntil := 0);
      if now < r.openUntil {
        r := r.(state := Open);
      }
      recs := recs[k := r];
    }

    method Release(k: Key)
      modifies this
      ensures recs == old(recs) - {k} && Load(recs, k) == NEW
    {
      recs := recs - {k};
    }
  }

  // ---------- runs on one key ----------

  datatype Event =
    | Admit(now: int, cfg: Settings, force: bool)
    | Report(now: int, cfg: Settings, failed: bool, probe: bool)
    | Abandon(now: int)
    | Release(now: int)

  function Apply(r: Rec, e: Event): Effect {
    match e
    case Admit(now, cfg, force) => Admitted(r, cfg, now, force)
    case Report(now, cfg, failed, probe) => Reported(r, cfg, now, failed, probe)
    case Abandon(now) => Abandoned(r, now)
    case Release(_) =>
      Effect(true, NEW, PASS, if r.state.Closed? then None else Some(Transition(r.state, Closed, Manual, 0)))
  }

  function Final(r: Rec, run: seq<Event>): Rec
    decreases |run|
  {
    if run == [] then r else Final(Apply(r, run[0]).rec, run[1..])
  }

  /** A tier leaves open or half-open for closed only by a successful probe or by hand. */
  lemma {:induction false} ClosesOnlyByProbeOrRelease(r: Rec, e: Event)
    requires !r.state.Closed? && Apply(r, e).rec.state.Closed?
    ensures e.Release? || (r.state.HalfOpen? && e.Report? && e.probe && !e.failed)
    ensures Apply(r, e).tr == Some(Transition(r.state, Closed, if e.Release? then Manual else Probed, 0))
  {
  }

  // ---------- a forced probe handed back ----------

  /** What every stored record satisfies: only a probed tier has a lease. */
  predicate Sound(r: Rec) {
    !r.state.HalfOpen? ==> r.probeUntil == 0
  }

  lemma {:induction false} RunsAreSound(r: Rec, run: seq<Event>)
    requires Sound(r)
    ensures Sound(Final(r, run))
    decreases |run|
  {
    if run != [] {
      RunsAreSound(Apply(r, run[0]).rec, run[1..]);
    }
  }

  /**
   On every record a run can reach: forcing the probe of an open tier and
   handing it back gives the open record again exactly when the hand-back comes
   before the cooldown ran out.
   */
  lemma {:induction false} ForceThenAbandonRestores(run: seq<Event>, cfg: Settings, at: int, back: int)
    requires Final(NEW, run).state.Open?
    ensures var r := Final(NEW, run);
      var forced := Admitted(r, cfg, at, true);
      forced.adm.probe && (Abandoned(forced.rec, back).rec == r <==> back < r.openUntil)
  {
    RunsAreSound(NEW, run);
  }

  // ---------- at most one probe ----------

  /** An event that gives its caller the probe. */
  predicate Grants(r: Rec, e: Event) {
    Apply(r, e).adm.probe
  }

  /** An event by which some probe's holder ends it, or an operator does. */
  predicate Settles(e: Event) {
    e.Abandon? || e.Release? || (e.Report? && e.probe)
  }

  function Until(r: Rec, run: seq<Event>, i: nat): Rec
    requires i <= |run|
  {
    Final(r, run[..i])
  }

  lemma {:induction false} FinalAppend(r: Rec, a: seq<Event>, b: seq<Event>)
    ensures Final(r, a + b) == Final(Final(r, a), b)
    decreases |a|
  {
    if a == [] {
      assert a + b == b;
    } else {
      assert (a + b)[1..] == a[1..] + b;
      FinalAppend(Apply(r, a[0]).rec, a[1..], b);
    }
  }

  lemma {:induction false} LeaseKept(r: Rec, e: Event)
    requires r.state.HalfOpen? && !Settles(e)
    ensures Apply(r, e).rec.state.HalfOpen? && Apply(r, e).rec.probeUntil >= r.probeUntil
  {
  }

  /** What is not stored is not changed. */
  lemma {:induction false} UncommittedKeeps(r: Rec, e: Event)
    ensures !Apply(r, e).commit ==> Apply(r, e).rec == r
  {
  }

  /** While nothing settles the probe the tier stays probed, and its lease only moves on. */
  lemma {:induction false} LeaseOnlyGrows(r: Rec, run: seq<Event>)
    requires r.state.HalfOpen?
    requires forall e <- run :: !Settles(e)
    ensures Final(r, run).state.HalfOpen? && Final(r, run).probeUntil >= r.probeUntil
    decreases |run|
  {
    if run != [] {
      assert run[0] in run;
      LeaseOnlyGrows(Apply(r, run[0]).rec, run[1..]);
    }
  }

  /** From a grant at i, for as long as nothing settles it. */
  lemma {:induction false} StillProbed(r: Rec, run: seq<Event>, i: nat, j: nat)
    requires i < j <= |run| && Grants(Until(r, run, i), run[i])
    requires forall k :: i < k < j ==> !Settles(run[k])
    ensures Until(r, run, j).state.HalfOpen?
    ensures Until(r, run, j).probeUntil >= Apply(Until(r, run, i), run[i]).rec.probeUntil
  {
    var mid := run[i + 1..j];
    forall e | e in mid
      ensures !Settles(e)
    {
      var k :| 0 <= k < |mid| && e == mid[k];
      assert e == run[i + 1 + k];
    }
    LeaseOnlyGrows(Apply(Until(r, run, i), run[i]).rec, mid);
    assert run[..j] == run[..i] + ([run[i]] + mid);
    FinalAppend(r, run[..i], [run[i]] + mid);
    assert ([run[i]] + mid)[1..] == mid;
  }

  /**
   Two grants with no settlement between them are a lease apart, forced or not, in whatever
   order their clocks were read. Settings may differ from one event to the next.
   */
  lemma {:induction false} GrantsAreALeaseApart(r: Rec, run: seq<Event>, i: nat, j: nat)
    requires i < j < |run|
    requires Grants(Until(r, run, i), run[i]) && Grants(Until(r, run, j), run[j])
    requires forall k :: i < k < j ==> !Settles(run[k])
    ensures run[j].now >= run[i].now + Lease(run[i].cfg)
  {
    StillProbed(r, run, i, j);
  }

  // ---------- the cooldown of a run ----------

  /** Event i of the run trips the tier for a cooldown that ends at `until`. */
  ghost predicate OpensAt(r: Rec, run: seq<Event>, i: nat, until: int) {
    i < |run| &&
    var tr := Apply(Until(r, run, i), run[i]).tr;
    tr.Some? && tr.value.to.Open? && until == run[i].now + tr.value.cooldown
  }

  lemma {:induction false} UntilNext(r: Rec, run: seq<Event>, i: nat)
    requires i < |run|
    ensures Until(r, run, i + 1) == Apply(Until(r, run, i), run[i]).rec
  {
    assert run[..i + 1] == run[..i] + [run[i]];
    FinalAppend(r, run[..i], [run[i]]);
  }

  lemma {:induction false} TripOpens(r: Rec, e: Event)
    requires var tr := Apply(r, e).tr; tr.Some? && tr.value.to.Open?
    ensures var a := Apply(r, e); a.rec.state.Open? && a.rec.openUntil == e.now + a.tr.value.cooldown
  {
  }

  /** An open tier that lends no probe and is not released keeps its record. */
  lemma {:induction false} OpenKeeps(r: Rec, e: Event)
    requires r.state.Open? && !e.Release? && !Grants(r, e)
    ensures Apply(r, e).rec == r
  {
  }

  lemma {:induction false} OpenStays(r: Rec, run: seq<Event>, i: nat, j: nat, until: int)
    requires OpensAt(r, run, i, until) && i < j <= |run|
    requires forall k :: i < k < j ==> !run[k].Release? && !Grants(Until(r, run, k), run[k])
    ensures Until(r, run, j).state.Open? && Until(r, run, j).openUntil == until
    decreases j
  {
    UntilNext(r, run, j - 1);
    if j == i + 1 {
      TripOpens(Until(r, run, i), run[i]);
    } else {
      OpenStays(r, run, i, j - 1, until);
      OpenKeeps(Until(r, run, j - 1), run[j - 1]);
    }
  }

  /**
   From a trip until the first probe since, with no release: a request is turned away, and told when the cooldown ends,
   exactly while the cooldown runs and the request is not forced; otherwise it is the probe. In every run, in any order of clock readings.
   */
  lemma {:induction false} FirstProbeWaits(r: Rec, run: seq<Event>, i: nat, j: nat, until: int)
    requires OpensAt(r, run, i, until) && i < j < |run| && run[j].Admit?
    requires forall k :: i < k < j ==> !run[k].Release? && !Grants(Until(r, run, k), run[k])
    ensures Apply(Until(r, run, j), run[j]).adm ==
      if run[j].now < until && !run[j].force then Admission(true, false, Some(until)) else Admission(false, true, None)
  {
    OpenStays(r, run, i, j, until);
    AdmitMeans(Until(r, run, j), run[j].cfg, run[j].now, run[j].force);
  }

  /** While no request has been forced or made past the cooldown, and nothing released the tier, no probe is granted. */
  lemma {:induction false} NoneGranted(r: Rec, run: seq<Event>, i: nat, j: nat, until: int)
    requires OpensAt(r, run, i, until) && i < j <= |run|
    requires forall k :: i < k < j ==> !run[k].Release? && (run[k].Admit? ==> !run[k].force && run[k].now < until)
    ensures forall k :: i < k < j ==> !Grants(Until(r, run, k), run[k])
    decreases j
  {
    if j > i + 1 {
      NoneGranted(r, run, i, j - 1, until);
      if run[j - 1].Admit? {
        FirstProbeWaits(r, run, i, j - 1, until);
      }
    }
  }

  /** With clocks read in order, a tier that was tripped turns every request away until its cooldown ends, unless one is forced or it is released. */
  lemma {:induction false} CooldownHolds(r: Rec, run: seq<Event>, i: nat, j: nat, until: int)
    requires OpensAt(r, run, i, until) && i < j < |run| && Monotone(run)
    requires forall k :: i < k <= j ==> !run[k].Release? && (run[k].Admit? ==> !run[k].force)
    requires run[j].Admit? && run[j].now < until
    ensures Apply(Until(r, run, j), run[j]).adm == Admission(true, false, Some(until))
  {
    NoneGranted(r, run, i, j, until);
    FirstProbeWaits(r, run, i, j, until);
  }

  /** The tier neither closes nor trips again. */
  ghost predicate Undecided(r: Rec, e: Event) {
    var tr := Apply(r, e).tr;
    tr.None? || tr.value.to.HalfOpen?
  }

  lemma {:induction false} UndecidedKeeps(r: Rec, e: Event)
    requires !r.state.Closed? && Undecided(r, e)
    ensures !Apply(r, e).rec.state.Closed? && Apply(r, e).rec.openUntil == r.openUntil
  {
  }

  lemma {:induction false} CooldownKept(r: Rec, run: seq<Event>, i: nat, j: nat, until: int)
    requires OpensAt(r, run, i, until) && i < j <= |run|
    requires forall k :: i < k < j ==> Undecided(Until(r, run, k), run[k])
    ensures !Until(r, run, j).state.Closed? && Until(r, run, j).openUntil == until
    decreases j
  {
    UntilNext(r, run, j - 1);
    if j == i + 1 {
      TripOpens(Until(r, run, i), run[i]);
    } else {
      CooldownKept(r, run, i, j - 1, until);
      UndecidedKeeps(Until(r, run, j - 1), run[j - 1]);
    }
  }

  /** A probe granted at k was handed back before j; with a limit, at a clock before it. */
  ghost predicate HandedBack(run: seq<Event>, k: nat, j: nat, limit: Option<int>)
    requires j <= |run|
  {
    exists m :: k < m < j && run[m].Abandon? && (limit.Some? ==> run[m].now < limit.value)
  }

  lemma {:induction false} HandedBackNext(run: seq<Event>, k: nat, j: nat, limit: Option<int>)
    requires k < j < |run|
    ensures HandedBack(run, k, j + 1, limit) <==>
      HandedBack(run, k, j, limit) || (run[j].Abandon? && (limit.Some? ==> run[j].now < limit.value))
  {
  }

  /** What the tier is like after the last grant so far, at k. */
  ghost predicate SinceGrant(r: Rec, run: seq<Event>, k: nat, j: nat, until: int)
    requires k < j <= |run| && run[k].Admit?
  {
    if HandedBack(run, k, j, Some(until)) then r.state.Open?
    else r.state.HalfOpen? && r.probeUntil == if HandedBack(run, k, j, None) then 0 else run[k].now + Lease(run[k].cfg)
  }

  lemma {:induction false} SinceGrantNext(r: Rec, run: seq<Event>, k: nat, j: nat, until: int)
    requires k < j < |run| && run[k].Admit? && SinceGrant(r, run, k, j, until)
    requires r.openUntil == until && Undecided(r, run[j]) && !Grants(r, run[j])
    ensures SinceGrant(Apply(r, run[j]).rec, run, k, j + 1, until)
  {
    HandedBackNext(run, k, j, Some(until));
    HandedBackNext(run, k, j, None);
  }

  lemma {:induction false} AfterGrant(r: Rec, run: seq<Event>, i: nat, k: nat, j: nat, until: int)
    requires OpensAt(r, run, i, until) && i < k < j <= |run| && Grants(Until(r, run, k), run[k])
    requires forall m :: i < m < j ==> Undecided(Until(r, run, m), run[m])
    requires forall m :: k < m < j ==> !Grants(Until(r, run, m), run[m])
    ensures SinceGrant(Until(r, run, j), run, k, j, until)
    decreases j
  {
    UntilNext(r, run, j - 1);
    if j > k + 1 {
      AfterGrant(r, run, i, k, j - 1, until);
      CooldownKept(r, run, i, j - 1, until);
      SinceGrantNext(Until(r, run, j - 1), run, k, j - 1, until);
    }
  }

  /**
   After a probe since the trip, the last of them granted at k, and while the tier has neither closed nor tripped again: an unforced
   request before the end of the cooldown is a probe all the same exactly when the one granted at k was lost (its lease ran
   out unsettled) or was handed back, each time at a clock past the cooldown.
   */
  lemma {:induction false} LaterProbesExactly(r: Rec, run: seq<Event>, i: nat, k: nat, j: nat, until: int)
    requires OpensAt(r, run, i, until) && i < k < j < |run| && Grants(Until(r, run, k), run[k])
    requires forall m :: i < m < j ==> Undecided(Until(r, run, m), run[m])
    requires forall m :: k < m < j ==> !Grants(Until(r, run, m), run[m])
    requires run[j].Admit? && !run[j].force && 0 <= run[j].now < until
    ensures Grants(Until(r, run, j), run[j]) <==>
      !HandedBack(run, k, j, Some(until)) && (HandedBack(run, k, j, None) || run[k].now + Lease(run[k].cfg) <= run[j].now)
  {
    AfterGrant(r, run, i, k, j, until);
    CooldownKept(r, run, i, j, until);
    AdmitMeans(Until(r, run, j), run[j].cfg, run[j].now, run[j].force);
  }

  /** With clocks read in order, only a probe lost within the cooldown lets an unforced request through inside it, and the first probe was forced. */
  lemma {:induction false} ProbeInsideCooldown(r: Rec, run: seq<Event>, i: nat, k: nat, j: nat, until: int)
    requires OpensAt(r, run, i, until) && i < k < j < |run| && Monotone(run) && Grants(Until(r, run, k), run[k])
    requires forall m :: i < m < j ==> Undecided(Until(r, run, m), run[m])
    requires forall m :: k < m < j ==> !Grants(Until(r, run, m), run[m])
    requires run[j].Admit? && !run[j].force && 0 <= run[j].now < until
    ensures Grants(Until(r, run, j), run[j]) <==>
      !HandedBack(run, k, j, None) && run[k].now + Lease(run[k].cfg) <= run[j].now
  {
    LaterProbesExactly(r, run, i, k, j, until);
    if HandedBack(run, k, j, None) {
      var m :| k < m < j && run[m].Abandon?;
      assert run[m].now < until;
    }
  }

  /** A failing input: a forced probe is lost, and an unforced request is let through half a minute on, inside the cooldown. */
  lemma {:induction false} LostProbeInsideCooldown(cfg: Settings) returns (run: seq<Event>)
    requires cfg.failures == 1 && cfg.cooldown == 60_000 && cfg.maxCooldown == 60_000 && cfg.probeLease == 0
    ensures |run| == 3 && OpensAt(NEW, run, 0, 60_001) && run[2] == Admit(30_002, cfg, false)
    ensures Grants(Until(NEW, run, 2), run[2])
  {
    run := [Report(1, cfg, true, false), Admit(2, cfg, true), Admit(30_002, cfg, false)];
    UntilNext(NEW, run, 0);
    UntilNext(NEW, run, 1);
    assert Until(NEW, run, 0) == NEW;
    assert Until(NEW, run, 1).state.Open?;
    assert Until(NEW, run, 2).probeUntil == 30_002;
  }

  // ---------- one holder at a time ----------

  /** The record and the probes that are out, each with the end of its lease. */
  datatype Held = Held(rec: Rec, out: map<nat, int>, next: nat)

  datatype Ending = Answered | Broke | HandedBack

  /** A run in which each probe is told apart by the number it was granted under. */
  datatype Step =
    | Ask(now: int, cfg: Settings, force: bool)
    | Other(now: int, cfg: Settings, failed: bool)
    | End(id: nat, how: Ending, now: int, cfg: Settings)

  function Asked(s: Step): Event {
    match s
    case Ask(now, cfg, force) => Admit(now, cfg, force)
    case Other(now, cfg, failed) => Report(now, cfg, failed, false)
    case End(_, Answered, now, cfg) => Report(now, cfg, false, true)
    case End(_, Broke, now, cfg) => Report(now, cfg, true, true)
    case End(_, HandedBack, now, cfg) => Abandon(now)
  }

  function Next(h: Held, s: Step): Held {
    var e := Apply(h.rec, Asked(s));
    if e.adm.probe then Held(e.rec, h.out[h.next := s.now + Lease(s.cfg)], h.next + 1)
    else if s.End? then Held(e.rec, h.out - {s.id}, h.next)
    else Held(e.rec, h.out, h.next)
  }

  /** Only a probe that is out is ended, and none outlives its lease. */
  predicate Timely(h: Held, s: Step) {
    (s.End? ==> s.id in h.out) && forall id <- h.out :: s.now < h.out[id]
  }

  ghost predicate TimelyRun(h: Held, run: seq<Step>)
    decreases |run|
  {
    run == [] || (Timely(h, run[0]) && TimelyRun(Next(h, run[0]), run[1..]))
  }

  function After(h: Held, run: seq<Step>): Held
    decreases |run|
  {
    if run == [] then h else After(Next(h, run[0]), run[1..])
  }

  /** At most one probe is out, and then the record carries its lease. */
  ghost predicate OneProbe(h: Held) {
    h.out == map[] || exists id :: h.out == map[id := h.rec.probeUntil] && h.rec.state.HalfOpen?
  }

  lemma {:induction false} OneProbeKept(h: Held, s: Step)
    requires OneProbe(h) && Timely(h, s)
    ensures OneProbe(Next(h, s))
  {
    if h.out == map[] {
      if Next(h, s).out != map[] {
        assert Next(h, s).out == map[h.next := Next(h, s).rec.probeUntil];
      }
    } else {
      var id :| h.out == map[id := h.rec.probeUntil];
      assert id in h.out;
      if s.End? {
        assert Next(h, s).out == map[];
      } else {
        assert Next(h, s) == h;
      }
    }
  }

  /** If each probe is settled within its lease, at most one is ever out. */
  lemma {:induction false} AtMostOneProbe(h: Held, run: seq<Step>)
    requires OneProbe(h) && TimelyRun(h, run)
    ensures OneProbe(After(h, run)) && |After(h, run).out| <= 1
    decreases |run|
  {
    if run != [] {
      OneProbeKept(h, run[0]);
      AtMostOneProbe(Next(h, run[0]), run[1..]);
    }
  }

  // ---------- the history behind a record ----------

  datatype Change = Opened(at: int, cooldown: int) | ClosedByProbe(at: int) | Released

  datatype Outcome = Outcome(at: int, failed: bool)

  /** A record with the openings and closings of its tier, and the outcomes counted since the last. */
  datatype Watched = Watched(rec: Rec, log: seq<Change>, outs: seq<Outcome>)

  function Watch(w: Watched, e: Event): Watched {
    var eff := Apply(w.rec, e);
    var log := match eff.tr
      case Some(Transition(_, Open, _, cooldown)) => w.log + [Opened(e.now, cooldown)]
      case Some(Transition(_, Closed, Probed, _)) => w.log + [ClosedByProbe(e.now)]
      case _ => if e.Release? then w.log + [Released] else w.log;
    var outs :=
      if eff.rec.state.Closed? && w.rec.state.Closed? && e.Report? then w.outs + [Outcome(e.now, e.failed)]
      else if !eff.rec.state.Closed? || !w.rec.state.Closed? || e.Release? then []
      else w.outs;
    Watched(eff.rec, log, outs)
  }

  function WatchAll(w: Watched, run: seq<Event>): Watched
    decreases |run|
  {
    if run == [] then w else WatchAll(Watch(w, run[0]), run[1..])
  }

  const UNSEEN := Watched(NEW, [], [])

  predicate Positive(cfg: Settings) {
    cfg.cooldown > 0 && cfg.maxCooldown > 0 && cfg.window > 0 && cfg.stable > 0
  }

  /** The settings an outcome is judged by; the probe lease follows the target and plays no part. */
  predicate SameRules(a: Settings, b: Settings) {
    a.(probeLease := b.probeLease) == b
  }

  /** Every event runs at a positive time, and every outcome is judged by the same settings. */
  ghost predicate Fixed(run: seq<Event>, cfg: Settings) {
    forall e <- run :: e.now > 0 && (e.Report? ==> SameRules(e.cfg, cfg))
  }

  /** Trips in a row at the end of the log: a stable spell or a release starts over. */
  function TripsInARow(log: seq<Change>, stable: int): nat
    decreases |log|
  {
    if log == [] then 0
    else
      var n := |log| - 1;
      match log[n]
      case Released => 0
      case ClosedByProbe(_) => TripsInARow(log[..n], stable)
      case Opened(at, _) =>
        if n > 0 && log[n - 1].ClosedByProbe? && at - log[n - 1].at >= stable then 1
        else TripsInARow(log[..n], stable) + 1
  }

  /** The opening at i, if it is one, had the cooldown of its place in its row of trips. */
  ghost predicate OpeningFits(log: seq<Change>, i: nat, cfg: Settings)
    requires i < |log|
  {
    log[i].Opened? ==>
      var n := TripsInARow(log[..i + 1], cfg.stable);
      n >= 1 && log[i].cooldown == Min(cfg.cooldown * Pow2(n - 1), cfg.maxCooldown)
  }

  ghost predicate CooldownsDouble(log: seq<Change>, cfg: Settings) {
    forall i :: 0 <= i < |log| ==> OpeningFits(log, i, cfg)
  }

  /** How the record sums up its log. */
  ghost predicate LogMatches(w: Watched, cfg: Settings) {
    && w.rec.trips == TripsInARow(w.log, cfg.stable)
    && CooldownsDouble(w.log, cfg)
    && (w.rec.state.Closed? ==>
          if w.log == [] || w.log[|w.log| - 1].Released? then w.rec.closedAt == 0
          else w.log[|w.log| - 1] == ClosedByProbe(w.rec.closedAt) && w.rec.closedAt > 0)
    && (!w.rec.state.Closed? ==>
          w.log != [] && w.log[|w.log| - 1] == Opened(w.rec.openUntil - w.rec.cooldownMs, w.rec.cooldownMs))
  }

  lemma {:induction false} LogGrows(log: seq<Change>, c: Change, cfg: Settings)
    requires CooldownsDouble(log, cfg)
    requires c.Opened? ==>
      var n := TripsInARow(log + [c], cfg.stable);
      n >= 1 && c.cooldown == Min(cfg.cooldown * Pow2(n - 1), cfg.maxCooldown)
    ensures CooldownsDouble(log + [c], cfg)
  {
    var grown := log + [c];
    forall i | 0 <= i < |grown|
      ensures OpeningFits(grown, i, cfg)
    {
      if i < |log| {
        assert grown[..i + 1] == log[..i + 1] && OpeningFits(log, i, cfg);
      } else {
        assert grown[..i + 1] == grown;
      }
    }
  }

  /** A trip continues the row the record counts, or starts a new one. */
  lemma {:induction false} TripContinuesRow(w: Watched, r: Rec, cfg: Settings, now: int)
    requires LogMatches(w, cfg) && cfg.stable > 0
    requires r.state == w.rec.state && r.trips == w.rec.trips && r.closedAt == w.rec.closedAt
    ensures forall cooldown ::
      TripsInARow(w.log + [Opened(now, cooldown)], cfg.stable) == NextTrips(r, cfg, now)
  {
    forall cooldown
      ensures TripsInARow(w.log + [Opened(now, cooldown)], cfg.stable) == NextTrips(r, cfg, now)
    {
      var grown := w.log + [Opened(now, cooldown)];
      assert grown[..|w.log|] == w.log;
    }
  }

  lemma {:induction false} TripLogged(w: Watched, r: Rec, cfg: Settings, now: int, reason: Reason)
    requires LogMatches(w, cfg) && Positive(cfg)
    requires r.state == w.rec.state && r.trips == w.rec.trips && r.closedAt == w.rec.closedAt
    ensures var t := TripRec(r, cfg, now, reason);
      LogMatches(Watched(t, w.log + [Opened(now, t.cooldownMs)], []), cfg)
  {
    TripContinuesRow(w, r, cfg, now);
    CooldownClosedForm(cfg, NextTrips(r, cfg, now));
    var t := TripRec(r, cfg, now, reason);
    LogGrows(w.log, Opened(now, t.cooldownMs), cfg);
  }

  lemma {:induction false} ClosingLogged(w: Watched, c: Change, cfg: Settings)
    requires LogMatches(w, cfg) && !c.Opened?
    ensures CooldownsDouble(w.log + [c], cfg)
    ensures TripsInARow(w.log + [c], cfg.stable) == if c.Released? then 0 else w.rec.trips
  {
    LogGrows(w.log, c, cfg);
    assert (w.log + [c])[..|w.log|] == w.log;
  }

  lemma {:induction false} LogKept(w: Watched, e: Event, cfg: Settings)
    requires LogMatches(w, cfg) && Positive(cfg) && e.now > 0
    requires e.Report? ==> SameRules(e.cfg, cfg)
    ensures LogMatches(Watch(w, e), cfg)
  {
    if e.Release? {
      ClosingLogged(w, Released, cfg);
    } else if e.Report? && w.rec.state.HalfOpen? {
      ProbeReportLogged(w, e, cfg);
    } else if e.Report? && w.rec.state.Closed? {
      ClosedReportLogged(w, e, cfg);
    }
  }

  lemma {:induction false} ProbeReportLogged(w: Watched, e: Event, cfg: Settings)
    requires LogMatches(w, cfg) && Positive(cfg) && e.now > 0
    requires e.Report? && SameRules(e.cfg, cfg) && w.rec.state.HalfOpen?
    ensures LogMatches(Watch(w, e), cfg)
  {
    if !e.probe {
      assert Watch(w, e).log == w.log;
    } else if e.failed {
      var t := TripRec(w.rec, cfg, e.now, ProbeFailed);
      assert Watch(w, e) == Watched(t, w.log + [Opened(e.now, t.cooldownMs)], []);
      TripLogged(w, w.rec, cfg, e.now, ProbeFailed);
    } else {
      ClosingLogged(w, ClosedByProbe(e.now), cfg);
    }
  }

  lemma {:induction false} ClosedReportLogged(w: Watched, e: Event, cfg: Settings)
    requires LogMatches(w, cfg) && Positive(cfg)
    requires e.Report? && SameRules(e.cfg, cfg) && w.rec.state.Closed?
    ensures LogMatches(Watch(w, e), cfg)
  {
    var c := Counted(w.rec, cfg, e.now, e.failed);
    assert Reported(w.rec, e.cfg, e.now, e.failed, e.probe) == Reported(w.rec, cfg, e.now, e.failed, e.probe);
    if Watch(w, e).rec.state.Open? {
      var reason := Watch(w, e).rec.reason;
      var t := TripRec(c, cfg, e.now, reason);
      assert Watch(w, e) == Watched(t, w.log + [Opened(e.now, t.cooldownMs)], []);
      TripLogged(w, c, cfg, e.now, reason);
    } else {
      assert Watch(w, e).log == w.log;
    }
  }

  // ---------- the counters of a closed tier ----------

  function TrailingFailures(outs: seq<Outcome>): nat
    decreases |outs|
  {
    if outs == [] || !outs[|outs| - 1].failed then 0 else TrailingFailures(outs[..|outs| - 1]) + 1
  }

  function Failures(outs: seq<Outcome>): nat
    decreases |outs|
  {
    if outs == [] then 0 else Failures(outs[..|outs| - 1]) + if outs[|outs| - 1].failed then 1 else 0
  }

  /**
   The outcomes of the current window, in the order they were reported: an outcome begins a new window
   when it comes a window's length or more after the one that began the last.
   */
  function CurrentWindow(outs: seq<Outcome>, window: int): seq<Outcome>
    decreases |outs|
  {
    if outs == [] then []
    else
      var o, before := outs[|outs| - 1], CurrentWindow(outs[..|outs| - 1], window);
      if before == [] || o.at - before[0].at >= window then [o] else before + [o]
  }

  /** What the counters of a closed tier's record mean. */
  ghost predicate CountsMatch(w: Watched, cfg: Settings) {
    w.rec.state.Closed? ==>
      var current := CurrentWindow(w.outs, cfg.window);
      && w.rec.consecutive == TrailingFailures(w.outs)
      && w.rec.windowReqs == |current|
      && w.rec.windowFails == Failures(current)
      && w.rec.windowStart == (if current == [] then 0 else current[0].at)
      && (cfg.failures > 0 ==> w.rec.consecutive < cfg.failures)
      && (forall o <- w.outs :: o.at > 0)
  }

  lemma {:induction false} WindowIsPart(outs: seq<Outcome>, window: int)
    ensures (CurrentWindow(outs, window) == [] <==> outs == [])
    ensures forall o <- CurrentWindow(outs, window) :: o in outs
    decreases |outs|
  {
    if outs != [] {
      WindowIsPart(outs[..|outs| - 1], window);
    }
  }

  lemma {:induction false} FailuresSnoc(outs: seq<Outcome>, o: Outcome)
    ensures Failures(outs + [o]) == Failures(outs) + if o.failed then 1 else 0
  {
    assert (outs + [o])[..|outs|] == outs;
  }

  lemma {:induction false} WindowSnoc(outs: seq<Outcome>, o: Outcome, window: int)
    ensures var before, after := CurrentWindow(outs, window), CurrentWindow(outs + [o], window);
      if before == [] || o.at - before[0].at >= window
      then after == [o] && Failures(after) == if o.failed then 1 else 0
      else after == before + [o] && Failures(after) == Failures(before) + if o.failed then 1 else 0
  {
    assert (outs + [o])[..|outs|] == outs;
    FailuresSnoc(CurrentWindow(outs, window), o);
    FailuresSnoc([], o);
    assert [] + [o] == [o];
  }

  lemma {:induction false} TrailingSnoc(outs: seq<Outcome>, o: Outcome)
    ensures TrailingFailures(outs + [o]) == if o.failed then TrailingFailures(outs) + 1 else 0
  {
    assert (outs + [o])[..|outs|] == outs;
  }

  lemma {:induction false} OutcomeCounted(w: Watched, cfg: Settings, now: int, failed: bool)
    requires w.rec.state.Closed? && CountsMatch(w, cfg) && now > 0
    ensures var c := Counted(w.rec, cfg, now, failed);
      (failed && cfg.failures > 0 ==> c.consecutive < cfg.failures) ==>
        CountsMatch(Watched(c, w.log, w.outs + [Outcome(now, failed)]), cfg)
  {
    WindowIsPart(w.outs, cfg.window);
    WindowSnoc(w.outs, Outcome(now, failed), cfg.window);
    TrailingSnoc(w.outs, Outcome(now, failed));
  }

  lemma {:induction false} CountsKept(w: Watched, e: Event, cfg: Settings)
    requires CountsMatch(w, cfg) && e.now > 0
    requires e.Report? ==> SameRules(e.cfg, cfg)
    ensures CountsMatch(Watch(w, e), cfg)
  {
    if e.Report? && w.rec.state.Closed? {
      OutcomeCounted(w, cfg, e.now, e.failed);
    }
  }

  lemma {:induction false} LogHistory(w: Watched, run: seq<Event>, cfg: Settings)
    requires LogMatches(w, cfg) && Positive(cfg) && Fixed(run, cfg)
    ensures LogMatches(WatchAll(w, run), cfg)
    decreases |run|
  {
    if run != [] {
      assert run[0] in run;
      LogKept(w, run[0], cfg);
      LogHistory(Watch(w, run[0]), run[1..], cfg);
    }
  }

  lemma {:induction false} CountHistory(w: Watched, run: seq<Event>, cfg: Settings)
    requires CountsMatch(w, cfg) && Fixed(run, cfg)
    ensures CountsMatch(WatchAll(w, run), cfg)
    decreases |run|
  {
    if run != [] {
      assert run[0] in run;
      CountsKept(w, run[0], cfg);
      CountHistory(Watch(w, run[0]), run[1..], cfg);
    }
  }

  /** The outcomes end in a row of failures that is long enough to trip. */
  ghost predicate FailedInARow(outs: seq<Outcome>, cfg: Settings) {
    cfg.failures > 0 && TrailingFailures(outs) >= cfg.failures
  }

  /** Enough outcomes in the current window, and more than the allowed share of them failures. */
  ghost predicate FailedTooOften(outs: seq<Outcome>, cfg: Settings) {
    var current := CurrentWindow(outs, cfg.window);
    cfg.minRequests > 0 && |current| >= cfg.minRequests && Failures(current) as real > cfg.errorRate * |current| as real
  }

  lemma {:induction false} CountedMeans(w: Watched, cfg: Settings, now: int, failed: bool)
    requires w.rec.state.Closed? && CountsMatch(w, cfg) && now > 0
    ensures var c, outs := Counted(w.rec, cfg, now, failed), w.outs + [Outcome(now, failed)];
      && c.consecutive == TrailingFailures(outs) && c.windowReqs == |CurrentWindow(outs, cfg.window)|
      && c.windowFails == Failures(CurrentWindow(outs, cfg.window))
  {
    WindowIsPart(w.outs, cfg.window);
    WindowSnoc(w.outs, Outcome(now, failed), cfg.window);
    TrailingSnoc(w.outs, Outcome(now, failed));
  }

  lemma {:induction false} FailuresByCounters(outs: seq<Outcome>, cfg: Settings, consecutive: nat, reqs: nat, fails: nat)
    requires consecutive == TrailingFailures(outs) && reqs == |CurrentWindow(outs, cfg.window)|
    requires fails == Failures(CurrentWindow(outs, cfg.window))
    ensures FailedInARow(outs, cfg) <==> cfg.failures > 0 && consecutive >= cfg.failures
    ensures FailedTooOften(outs, cfg) <==> RateExceeded(cfg, reqs, fails)
  {
  }

  lemma {:induction false} ClosedReport(r: Rec, cfg: Settings, now: int, failed: bool, probe: bool)
    requires r.state.Closed?
    ensures var c, after := Counted(r, cfg, now, failed), Reported(r, cfg, now, failed, probe);
      var inARow, tooOften := cfg.failures > 0 && c.consecutive >= cfg.failures, RateExceeded(cfg, c.windowReqs, c.windowFails);
      && (after.rec.state.Open? <==> failed && (inARow || tooOften))
      && (after.rec.state.Open? ==> after.rec.reason == if inARow then ConsecutiveFailures else ErrorRate)
      && (!after.rec.state.Open? ==> after.rec.state.Closed? && after.tr.None?)
  {
  }

  lemma {:induction false} SameRulesSameReport(r: Rec, a: Settings, b: Settings, now: int, failed: bool, probe: bool)
    requires SameRules(a, b)
    ensures Reported(r, a, now, failed, probe) == Reported(r, b, now, failed, probe)
  {
  }

  /**
   Over every run under fixed positive settings: an outcome trips a closed tier exactly when it is a failure that completes a full row of
   failures or leaves too many in the window, and the reason given is the first of these that holds.
   */
  lemma {:induction false} TripsExactly(run: seq<Event>, e: Event, cfg: Settings)
    requires Positive(cfg) && Fixed(run, cfg) && e.Report? && e.now > 0 && SameRules(e.cfg, cfg)
    requires Final(NEW, run).state.Closed?
    ensures var outs, after := WatchAll(UNSEEN, run).outs + [Outcome(e.now, e.failed)], Apply(Final(NEW, run), e);
      && (after.rec.state.Open? <==> e.failed && (FailedInARow(outs, cfg) || FailedTooOften(outs, cfg)))
      && (after.rec.state.Open? ==> after.rec.reason == if FailedInARow(outs, cfg) then ConsecutiveFailures else ErrorRate)
      && (!after.rec.state.Open? ==> after.rec.state.Closed? && after.tr.None?)
  {
    CountHistory(UNSEEN, run, cfg);
    WatchingChangesNothing(UNSEEN, run);
    var w := WatchAll(UNSEEN, run);
    CountedMeans(w, cfg, e.now, e.failed);
    var c := Counted(w.rec, cfg, e.now, e.failed);
    FailuresByCounters(w.outs + [Outcome(e.now, e.failed)], cfg, c.consecutive, c.windowReqs, c.windowFails);
    ClosedReport(w.rec, cfg, e.now, e.failed, e.probe);
    SameRulesSameReport(w.rec, e.cfg, cfg, e.now, e.failed, e.probe);
  }

  /** What a record says of the run that led to it. */
  ghost predicate HistoryTold(run: seq<Event>, cfg: Settings) {
    var w := WatchAll(UNSEEN, run);
    && w.rec == Final(NEW, run)
    && CooldownsDouble(w.log, cfg)
    && w.rec.trips == TripsInARow(w.log, cfg.stable)
    && (w.rec.state.Closed? ==>
          && w.rec.consecutive == TrailingFailures(w.outs)
          && (cfg.failures > 0 ==> w.rec.consecutive < cfg.failures)
          && w.rec.windowReqs == |CurrentWindow(w.outs, cfg.window)|
          && w.rec.windowFails == Failures(CurrentWindow(w.outs, cfg.window))
          && (w.outs != [] ==> CurrentWindow(w.outs, cfg.window) != [] && w.rec.windowStart == CurrentWindow(w.outs, cfg.window)[0].at))
  }

  /**
   Over every run under fixed positive settings, in whatever order its clocks were read: each opening had the
   cooldown of its place in its row of trips, and while the tier is closed its counters
   say what they claim about the outcomes since it last closed.
   */
  lemma {:induction false} EveryRecordKeepsItsHistory(run: seq<Event>, cfg: Settings)
    requires Positive(cfg) && Fixed(run, cfg)
    ensures HistoryTold(run, cfg)
  {
    LogHistory(UNSEEN, run, cfg);
    CountHistory(UNSEEN, run, cfg);
    WatchingChangesNothing(UNSEEN, run);
    WindowIsPart(WatchAll(UNSEEN, run).outs, cfg.window);
  }

  lemma {:induction false} WatchingChangesNothing(w: Watched, run: seq<Event>)
    ensures WatchAll(w, run).rec == Final(w.rec, run)
    decreases |run|
  {
    if run != [] {
      WatchingChangesNothing(Watch(w, run[0]), run[1..]);
    }
  }

  // ---------- the window by the clock ----------

  /** Outcomes at or after from; only the failed ones when failedOnly. */
  function CountSince(outs: seq<Outcome>, from: int, failedOnly: bool): nat
    decreases |outs|
  {
    if outs == [] then 0
    else
      var o := outs[|outs| - 1];
      CountSince(outs[..|outs| - 1], from, failedOnly)
      + if o.at >= from && (o.failed || !failedOnly) then 1 else 0
  }

  ghost predicate InTimeOrder(outs: seq<Outcome>) {
    forall i, j :: 0 <= i < j < |outs| ==> outs[i].at <= outs[j].at
  }

  lemma {:induction false} CountsNoneBefore(outs: seq<Outcome>, from: int, failedOnly: bool)
    requires forall o <- outs :: o.at < from
    ensures CountSince(outs, from, failedOnly) == 0
    decreases |outs|
  {
    if outs != [] {
      assert outs[|outs| - 1] in outs;
      CountsNoneBefore(outs[..|outs| - 1], from, failedOnly);
    }
  }

  predicate Counts(o: Outcome, failedOnly: bool) {
    o.failed || !failedOnly
  }

  /** The counter of a window: its outcomes, or its failures. */
  function Counter(current: seq<Outcome>, failedOnly: bool): nat {
    if failedOnly then Failures(current) else |current|
  }

  /** No counted outcome of the window was read before the window's start. */
  ghost predicate NoneEarly(current: seq<Outcome>, failedOnly: bool) {
    forall i :: 0 <= i < |current| && Counts(current[i], failedOnly) ==> current[i].at >= current[0].at
  }

  lemma {:induction false} CountSnoc(outs: seq<Outcome>, o: Outcome, from: int, failedOnly: bool)
    ensures CountSince(outs + [o], from, failedOnly)
         == CountSince(outs, from, failedOnly) + if o.at >= from && Counts(o, failedOnly) then 1 else 0
  {
    assert (outs + [o])[..|outs|] == outs;
  }

  lemma {:induction false} NoneEarlySnoc(current: seq<Outcome>, o: Outcome, failedOnly: bool)
    requires current != []
    ensures NoneEarly(current + [o], failedOnly) <==> NoneEarly(current, failedOnly) && (Counts(o, failedOnly) ==> o.at >= current[0].at)
  {
    var more := current + [o];
    assert more[|current|] == o && forall i :: 0 <= i < |current| ==> more[i] == current[i];
  }

  /** What holds of a window and its counter, for either counter: no outcome lies a window past the start. */
  ghost predicate WindowCounted(outs: seq<Outcome>, window: int, failedOnly: bool) {
    var current := CurrentWindow(outs, window);
    && current != []
    && CountSince(outs, current[0].at, failedOnly) <= Counter(current, failedOnly)
    && (CountSince(outs, current[0].at, failedOnly) == Counter(current, failedOnly) <==> NoneEarly(current, failedOnly))
    && forall o <- outs :: o.at < current[0].at + window
  }

  /**
   By the clock, the outcomes since the start of the current window are at most those its counter counts, and just as many exactly when none
   of those was read before the start.
   */
  lemma {:induction false} WindowByTheClock(outs: seq<Outcome>, window: int, failedOnly: bool)
    requires outs != [] && window > 0
    ensures WindowCounted(outs, window, failedOnly)
    decreases |outs|
  {
    var n := |outs| - 1;
    var front, o := outs[..n], outs[n];
    assert outs == front + [o];
    var before := CurrentWindow(front, window);
    WindowSnoc(front, o, window);
    if front == [] {
      CountSnoc([], o, o.at, failedOnly);
    } else {
      WindowByTheClock(front, window, failedOnly);
      if o.at - before[0].at >= window {
        CountsNoneBefore(front, o.at, failedOnly);
        CountSnoc(front, o, o.at, failedOnly);
      } else {
        CountSnoc(front, o, before[0].at, failedOnly);
        NoneEarlySnoc(before, o, failedOnly);
      }
    }
  }

  /** A failing input: an outcome read before the start of the window it is counted in. */
  lemma {:induction false} EarlyOutcomeIsNotSince(first: Outcome, second: Outcome, window: int)
    requires second.at < first.at && window > 0
    ensures var outs := [first, second];
      |CurrentWindow(outs, window)| == 2 && CountSince(outs, CurrentWindow(outs, window)[0].at, false) == 1
  {
    assert [first][..0] == [] && [first, second] == [first] + [second];
    assert CurrentWindow([first], window) == [first];
    WindowSnoc([first], second, window);
    assert CountSince([first], first.at, false) == 1;
    CountSnoc([first], second, first.at, false);
  }

  ghost predicate Monotone(run: seq<Event>) {
    forall i, j :: 0 <= i < j < |run| ==> run[i].now <= run[j].now
  }

  lemma {:induction false} OutcomesInOrder(w: Watched, run: seq<Event>)
    requires Monotone(run) && InTimeOrder(w.outs)
    requires forall o, e :: o in w.outs && e in run ==> o.at <= e.now
    ensures InTimeOrder(WatchAll(w, run).outs)
    decreases |run|
  {
    if run != [] {
      assert run[0] in run;
      var v := Watch(w, run[0]);
      forall o, e | o in v.outs && e in run[1..]
        ensures o.at <= e.now
      {
        var i :| 0 <= i < |run[1..]| && e == run[1..][i];
        assert e == run[i + 1];
      }
      OutcomesInOrder(v, run[1..]);
    }
  }

  /** What the window counters of a closed tier say by the clock: never less than the outcomes since WindowStart, and exactly when the same. */
  ghost predicate ClockTold(run: seq<Event>, cfg: Settings) {
    var w := WatchAll(UNSEEN, run);
    var current := CurrentWindow(w.outs, cfg.window);
    w.rec.state.Closed? ==>
      && CountSince(w.outs, w.rec.windowStart, false) <= w.rec.windowReqs
      && CountSince(w.outs, w.rec.windowStart, true) <= w.rec.windowFails
      && (CountSince(w.outs, w.rec.windowStart, false) == w.rec.windowReqs <==> NoneEarly(current, false))
      && (CountSince(w.outs, w.rec.windowStart, true) == w.rec.windowFails <==> NoneEarly(current, true))
  }

  /** Over every run under fixed positive settings, in whatever order its clocks were read. */
  lemma {:induction false} WindowCountsSinceItsStart(run: seq<Event>, cfg: Settings)
    requires Positive(cfg) && Fixed(run, cfg)
    ensures ClockTold(run, cfg)
  {
    var w := WatchAll(UNSEEN, run);
    EveryRecordKeepsItsHistory(run, cfg);
    if w.outs != [] {
      WindowByTheClock(w.outs, cfg.window, false);
      WindowByTheClock(w.outs, cfg.window, true);
    }
  }

  lemma {:induction false} OrderedHasNoneEarly(outs: seq<Outcome>, window: int, failedOnly: bool)
    requires InTimeOrder(outs)
    ensures NoneEarly(CurrentWindow(outs, window), failedOnly) && InTimeOrder(CurrentWindow(outs, window))
    ensures outs != [] ==> CurrentWindow(outs, window) != [] && CurrentWindow(outs, window)[|CurrentWindow(outs, window)| - 1] == outs[|outs| - 1]
    decreases |outs|
  {
    if outs != [] {
      OrderedHasNoneEarly(outs[..|outs| - 1], window, failedOnly);
    }
  }

  /** So if clocks were read in the order the outcomes were stored, the counters count all outcomes since WindowStart. */
  lemma {:induction false} OrderedClocksCountAll(run: seq<Event>, cfg: Settings)
    requires Positive(cfg) && Fixed(run, cfg) && Monotone(run)
    ensures var w := WatchAll(UNSEEN, run);
      w.rec.state.Closed? ==>
        && w.rec.windowReqs == CountSince(w.outs, w.rec.windowStart, false)
        && w.rec.windowFails == CountSince(w.outs, w.rec.windowStart, true)
  {
    var w := WatchAll(UNSEEN, run);
    WindowCountsSinceItsStart(run, cfg);
    OutcomesInOrder(UNSEEN, run);
    OrderedHasNoneEarly(w.outs, cfg.window, false);
    OrderedHasNoneEarly(w.outs, cfg.window, true);
  }
}
