/**
 Model of executePlan (internal/httpapi/failover.go): the nested pass, retry
 and target loops that serve one request.

 Everything outside the loops answers through oracles: `ask(n)` holds what the
 breaker, the availability marks, the slot semaphore and the upstream call say
 to the n-th target of the try-orders, and `walk` is the order in which the
 runtime visits a map. The methods keep a log of what they did, and `Judge` is
 the rule book the log is checked against, event by event.
 */
module Executors {
  import opened Common
  import Breakers

  const BUSY_RETRIES := 4

  datatype Target = Target(tier: nat, provider: string, model: string)

  /** How the upstream call came back. */
  datatype CallError =
    | Fine
    | ServedWithoutCall
    | Failure(fallsThrough: bool, countsAgainstTier: bool)

  /** What the surroundings say to one target. */
  datatype Answer = Answer(
    registered: bool, supported: bool, adm: Breakers.Admission, marked: bool, slot: bool,
    commits: bool, error: CallError, clientGone: bool)

  /** What the executor takes from the breaker: an admission that skips grants no probe. */
  predicate Plausible(a: Answer) {
    !(a.adm.skip && a.adm.probe)
  }

  lemma {:induction false} BreakerIsPlausible(r: Breakers.Rec, cfg: Breakers.Settings, now: int, force: bool)
    ensures var adm := Breakers.Admitted(r, cfg, now, force).adm; !(adm.skip && adm.probe)
  {
  }

  /** The breaker verdict a call calls for: a success, a failure, or none. */
  function VerdictDue(a: Answer): Option<bool> {
    if a.commits then Some(true)
    else if a.error.ServedWithoutCall? then None
    else if a.error.Fine? then Some(true)
    else if a.clientGone || !a.error.countsAgainstTier then None
    else Some(false)
  }

  datatype Error = NoError | CallFailed | ClientLeft | AllBusy | AllQuarantined | AllUnavailable | Unsupported

  /** Whether a call ends the request, and how. */
  function EndsWith(a: Answer): Option<Error> {
    if !a.error.Failure? then Some(NoError)
    else if a.commits then Some(CallFailed)
    else if a.clientGone then Some(ClientLeft)
    else if !a.error.fallsThrough then Some(CallFailed)
    else None
  }

  /** What a request met on its way. */
  datatype Met = Met(failed: bool, busy: bool, quarantined: bool, unavailable: bool, unsupported: bool)

  /** The error of a request that no call ended. */
  function Exhausted(m: Met): Error {
    if m.failed then CallFailed
    else if m.busy then AllBusy
    else if m.quarantined then AllQuarantined
    else if m.unavailable then AllUnavailable
    else if m.unsupported then Unsupported
    else AllBusy
  }

  // ---------- the rule book ----------

  datatype Event =
    | Looked(target: Target, n: nat)
    | Acquired(provider: string)
    | Called(target: Target, n: nat)
    | Released(provider: string)
    | Recorded(tier: int, ok: bool, probe: bool)
    | Abandoned(tier: int)
    | ForcedPass(tier: int)

  /**
   Where a request is: the probe and slot it holds, the call it still owes, the
   verdict due, who has written to the client, and what it has met; `again` is a probe that will be
   abandoned although it has been recorded, and `twice` counts those that were.
   */
  datatype Desk =
    | Broken
    | Desk(next: nat, looked: Option<Target>, probe: Option<int>, slot: Option<string>,
           owes: Option<Target>, due: Option<bool>, spoken: Option<Target>, over: Option<Error>,
           served: bool, calls: nat, met: Met, open: map<int, int>, forcing: Option<int>,
           again: Option<int>, twice: nat)

  const CLEAN := Desk(0, None, None, None, None, None, None, None, false, 0, Met(false, false, false, false, false), map[], None, None, 0)

  predicate Sooner(open: map<int, int>, a: int, b: int)
    requires a in open && b in open
  {
    open[a] < open[b] || (open[a] == open[b] && a <= b)
  }

  /** tier is the open tier whose cooldown ends first, the lowest on a tie. */
  ghost predicate IsSoonest(open: map<int, int>, tier: int) {
    tier in open && forall t <- open :: Sooner(open, tier, t)
  }

  /** Nothing is held, owed or due. */
  predicate AtRest(d: Desk) {
    d.Desk? && d.probe.None? && d.slot.None? && d.owes.None? && d.due.None? && d.again.None?
  }

  /** A target may be looked at: the session's floor and a forced pass allow it, and nobody has spoken. */
  predicate MayLook(floor: Option<int>, d: Desk, t: Target) {
    && AtRest(d) && d.spoken.None? && d.over.None?
    && (floor.Some? ==> floor.value <= t.tier)
    && (d.forcing.Some? ==> d.forcing == Some(t.tier as int) && d.calls == 0)
  }

  /** What looking at t means, given what the surroundings say to it. */
  function Look(d: Desk, t: Target, a: Answer): Desk
    requires d.Desk?
  {
    if !a.registered then d.(met := d.met.(failed := true))
    else if !a.supported then d.(met := d.met.(unsupported := true))
    else if a.adm.skip then
      if d.forcing.Some? then d
      else d.(met := d.met.(quarantined := true),
              open := if a.adm.openUntil.None? then d.open else d.open[t.tier := a.adm.openUntil.value])
    else
      var p := d.(probe := if a.adm.probe then Some(t.tier) else None);
      if a.marked then p.(met := d.met.(unavailable := true))
      else if !a.slot then p.(met := d.met.(busy := true))
      else p.(owes := Some(t))
  }

  /**
   One probe out at a time, settled once, and a second time only after a call that committed and then
   said it was served without one; one slot held at a time, given back
   once; a call exactly where one is owed and with the slot of its provider,
   and then exactly the verdict it calls for; no target after one has spoken or
   ended the request; a forced pass only when nothing was called or busy, only
   on the tier that opens soonest, and one call in it.
   */
  ghost function Rule(floor: Option<int>, ask: nat -> Answer, d: Desk, e: Event): Desk {
    if d.Broken? then Broken
    else match e
      case Looked(t, n) =>
        if MayLook(floor, d, t) && n >= d.next then Look(d, t, ask(n)).(next := n + 1, looked := Some(t)) else Broken
      case Acquired(p) =>
        if d.slot.None? && d.owes.Some? && d.owes.value.provider == p then d.(slot := Some(p)) else Broken
      case Called(t, n) =>
        if d.slot == Some(t.provider) && d.owes == Some(t) && n + 1 == d.next
        then d.(owes := None, calls := d.calls + 1, due := VerdictDue(ask(n)), over := EndsWith(ask(n)),
                spoken := if ask(n).commits then Some(t) else None, served := ask(n).error.ServedWithoutCall?,
                again := if ask(n).commits && ask(n).error.ServedWithoutCall? then d.probe else None,
                met := d.met.(failed := d.met.failed || EndsWith(ask(n)).None?))
        else Broken
      case Released(p) => if d.slot == Some(p) && d.owes.None? then d.(slot := None) else Broken
      case Recorded(tier, ok, probe) =>
        if d.due == Some(ok) && d.looked.Some? && d.looked.value.tier == tier
           && d.probe == (if probe then Some(tier) else None)
        then d.(due := None, probe := None) else Broken
      case Abandoned(tier) =>
        if d.probe == Some(tier) && d.owes.None? && d.due.None? then d.(probe := None)
        else if d.again == Some(tier) && d.owes.None? && d.due.None? then d.(again := None, twice := d.twice + 1)
        else Broken
      case ForcedPass(tier) =>
        if AtRest(d) && d.calls == 0 && !d.met.busy && d.over.None? && d.forcing.None? && IsSoonest(d.open, tier)
        then d.(forcing := Some(tier)) else Broken
  }

  ghost function Judge(floor: Option<int>, ask: nat -> Answer, log: seq<Event>): Desk
    decreases |log|
  {
    if log == [] then CLEAN else Rule(floor, ask, Judge(floor, ask, log[..|log| - 1]), log[|log| - 1])
  }

  lemma {:induction false} Judged(floor: Option<int>, ask: nat -> Answer, log: seq<Event>, e: Event)
    ensures Judge(floor, ask, log + [e]) == Rule(floor, ask, Judge(floor, ask, log), e)
  {
    assert (log + [e])[..|log|] == log;
  }

  /** A log kept by the rule book makes one call at most once it is forcing. */
  lemma {:induction false} ForcedOnce(floor: Option<int>, ask: nat -> Answer, log: seq<Event>)
    ensures var d := Judge(floor, ask, log);
      d.Desk? && d.forcing.Some? ==> d.calls <= 1 && (d.owes.Some? ==> d.calls == 0)
    decreases |log|
  {
    if log != [] {
      ForcedOnce(floor, ask, log[..|log| - 1]);
    }
  }

  lemma {:induction false} SpokenOwesNothing(floor: Option<int>, ask: nat -> Answer, log: seq<Event>)
    ensures var d := Judge(floor, ask, log); d.Desk? && d.spoken.Some? ==> d.owes.None?
    decreases |log|
  {
    if log != [] {
      SpokenOwesNothing(floor, ask, log[..|log| - 1]);
    }
  }

  lemma {:induction false} KeptSoFar(floor: Option<int>, ask: nat -> Answer, log: seq<Event>, k: nat)
    requires Judge(floor, ask, log).Desk? && k <= |log|
    ensures Judge(floor, ask, log[..k]).Desk?
    decreases |log|
  {
    if k < |log| {
      assert log[..|log| - 1][..k] == log[..k];
      KeptSoFar(floor, ask, log[..|log| - 1], k);
    } else {
      assert log[..k] == log;
    }
  }

  lemma {:induction false} SpokenStays(floor: Option<int>, ask: nat -> Answer, log: seq<Event>, i: nat)
    requires Judge(floor, ask, log).Desk? && i < |log| && log[i].Called? && ask(log[i].n).commits
    ensures Judge(floor, ask, log).spoken == Some(log[i].target)
    decreases |log|
  {
    var n := |log| - 1;
    if i < n {
      KeptSoFar(floor, ask, log, n);
      SpokenStays(floor, ask, log[..n], i);
      SpokenOwesNothing(floor, ask, log[..n]);
    }
  }

  /** In a log kept by the rule book, once a target has written to the client no other is tried. */
  lemma {:induction false} NothingAfterSpoken(floor: Option<int>, ask: nat -> Answer, log: seq<Event>, i: nat, j: nat)
    requires Judge(floor, ask, log).Desk? && i < j < |log|
    requires log[i].Called? && ask(log[i].n).commits
    ensures !log[j].Looked? && !log[j].Called?
  {
    KeptSoFar(floor, ask, log, j + 1);
    KeptSoFar(floor, ask, log, j);
    assert log[..j + 1][..j] == log[..j];
    SpokenStays(floor, ask, log[..j], i);
    SpokenOwesNothing(floor, ask, log[..j]);
  }

  // ---------- what a kept rule book means, in counts ----------

  predicate GrantsProbe(a: Answer) {
    a.registered && a.supported && !a.adm.skip && a.adm.probe
  }

  /** The probes granted to the request. */
  function Grants(ask: nat -> Answer, log: seq<Event>): nat
    decreases |log|
  {
    if log == [] then 0
    else
      var e := log[|log| - 1];
      Grants(ask, log[..|log| - 1]) + if e.Looked? && GrantsProbe(ask(e.n)) then 1 else 0
  }

  /** The probes recorded or abandoned. */
  function Settlements(log: seq<Event>): nat
    decreases |log|
  {
    if log == [] then 0
    else
      var e := log[|log| - 1];
      Settlements(log[..|log| - 1]) + if e.Abandoned? || (e.Recorded? && e.probe) then 1 else 0
  }

  /** Slots of a provider taken less slots given back. */
  function SlotsOut(log: seq<Event>, provider: string): int
    decreases |log|
  {
    if log == [] then 0
    else
      var e := log[|log| - 1];
      SlotsOut(log[..|log| - 1], provider) +
      if e == Acquired(provider) then 1 else if e == Released(provider) then -1 else 0
  }

  function Calls(log: seq<Event>): nat
    decreases |log|
  {
    if log == [] then 0 else Calls(log[..|log| - 1]) + if log[|log| - 1].Called? then 1 else 0
  }

  function One(b: bool): nat {
    if b then 1 else 0
  }

  /** A call that held the probe, committed, and then said it was served without a call. */
  predicate SettlesTwice(a: Answer) {
    GrantsProbe(a) && a.commits && a.error.ServedWithoutCall?
  }

  /** The calls of that kind. */
  function Doubles(ask: nat -> Answer, log: seq<Event>): nat
    decreases |log|
  {
    if log == [] then 0
    else
      var e := log[|log| - 1];
      Doubles(ask, log[..|log| - 1]) + if e.Called? && SettlesTwice(ask(e.n)) then 1 else 0
  }

  /** A call is owed only right after its target was looked at, with the probe that look granted. */
  predicate OwesSoundly(ask: nat -> Answer, d: Desk) {
    d.Desk? && (d.owes.Some? ==>
      d.again.None? && d.due.None? && d.next > 0 && (d.probe.Some? <==> GrantsProbe(ask(d.next - 1))))
  }

  lemma {:induction false} OwesStep(floor: Option<int>, ask: nat -> Answer, d: Desk, e: Event)
    requires OwesSoundly(ask, d) && Rule(floor, ask, d, e).Desk?
    ensures OwesSoundly(ask, Rule(floor, ask, d, e))
  {
  }

  lemma {:induction false} ProbeStep(floor: Option<int>, ask: nat -> Answer, d: Desk, e: Event)
    requires OwesSoundly(ask, d) && Rule(floor, ask, d, e).Desk?
    ensures var n := Rule(floor, ask, d, e);
      One(d.probe.Some?) + One(e.Looked? && GrantsProbe(ask(e.n))) + n.twice
        == One(n.probe.Some?) + One(e.Abandoned? || (e.Recorded? && e.probe)) + d.twice
    ensures var n := Rule(floor, ask, d, e);
      n.twice + One(n.again.Some?) == d.twice + One(d.again.Some?) + One(e.Called? && SettlesTwice(ask(e.n)))
  {
    match e
    case Looked(_, _) =>
    case Called(_, _) =>
    case _ =>
  }

  lemma {:induction false} SlotStep(floor: Option<int>, ask: nat -> Answer, d: Desk, e: Event, provider: string)
    requires Rule(floor, ask, d, e).Desk?
    ensures One(d.slot == Some(provider)) + One(e == Acquired(provider))
         == One(Rule(floor, ask, d, e).slot == Some(provider)) + One(e == Released(provider))
  {
    match e
    case Looked(_, _) =>
    case _ =>
  }

  lemma {:induction false} OwesKept(floor: Option<int>, ask: nat -> Answer, log: seq<Event>)
    requires Judge(floor, ask, log).Desk?
    ensures OwesSoundly(ask, Judge(floor, ask, log))
    decreases |log|
  {
    if log != [] {
      var n := |log| - 1;
      KeptSoFar(floor, ask, log, n);
      OwesKept(floor, ask, log[..n]);
      OwesStep(floor, ask, Judge(floor, ask, log[..n]), log[n]);
    }
  }

  /** At every point of a kept log at most one probe is out, and settlements exceed grants only by calls that settle twice. */
  lemma {:induction false} ProbesOut(floor: Option<int>, ask: nat -> Answer, log: seq<Event>)
    requires Judge(floor, ask, log).Desk?
    ensures var d := Judge(floor, ask, log);
      && Grants(ask, log) + d.twice == Settlements(log) + One(d.probe.Some?)
      && d.twice + One(d.again.Some?) == Doubles(ask, log)
    decreases |log|
  {
    if log != [] {
      var n := |log| - 1;
      KeptSoFar(floor, ask, log, n);
      ProbesOut(floor, ask, log[..n]);
      OwesKept(floor, ask, log[..n]);
      ProbeStep(floor, ask, Judge(floor, ask, log[..n]), log[n]);
    }
  }

  /** At every point of a kept log at most one slot is out. */
  lemma {:induction false} SlotOut(floor: Option<int>, ask: nat -> Answer, log: seq<Event>, provider: string)
    requires Judge(floor, ask, log).Desk?
    ensures SlotsOut(log, provider) == One(Judge(floor, ask, log).slot == Some(provider))
    decreases |log|
  {
    if log != [] {
      var n := |log| - 1;
      KeptSoFar(floor, ask, log, n);
      SlotOut(floor, ask, log[..n], provider);
      SlotStep(floor, ask, Judge(floor, ask, log[..n]), log[n], provider);
    }
  }

  /** The desk counts the calls. */
  lemma {:induction false} CallsMade(floor: Option<int>, ask: nat -> Answer, log: seq<Event>)
    requires Judge(floor, ask, log).Desk?
    ensures Calls(log) == Judge(floor, ask, log).calls
    decreases |log|
  {
    if log != [] {
      KeptSoFar(floor, ask, log, |log| - 1);
      CallsMade(floor, ask, log[..|log| - 1]);
    }
  }

  lemma {:induction false} OwedAboveFloor(floor: Option<int>, ask: nat -> Answer, log: seq<Event>)
    requires Judge(floor, ask, log).Desk? && floor.Some?
    ensures var d := Judge(floor, ask, log); d.owes.Some? ==> d.owes.value.tier >= floor.value
    decreases |log|
  {
    if log != [] {
      KeptSoFar(floor, ask, log, |log| - 1);
      OwedAboveFloor(floor, ask, log[..|log| - 1]);
    }
  }

  /** No call of a pinned request goes below its floor. */
  lemma {:induction false} FloorRespected(floor: Option<int>, ask: nat -> Answer, log: seq<Event>, i: nat)
    requires Judge(floor, ask, log).Desk? && floor.Some? && i < |log| && log[i].Called?
    ensures log[i].target.tier >= floor.value
  {
    KeptSoFar(floor, ask, log, i + 1);
    KeptSoFar(floor, ask, log, i);
    assert log[..i + 1][..i] == log[..i];
    OwedAboveFloor(floor, ask, log[..i]);
  }

  /**
   Over a whole request, whatever the calls do: every slot taken is given back exactly once, with at most one out at
   any point, and the one target that may have written to the client is the last one called and the one
   reported. Every probe granted is settled once, and once more by each call that held it, committed and
   then said it was served without a call: so settlements equal grants if and only if there is no such call.
   */
  lemma {:induction false} EverySettledRunBalances(floor: Option<int>, ask: nat -> Answer, log: seq<Event>, r: Result, k: nat, provider: string)
    requires Settled(floor, ask, log, r) && k <= |log|
    ensures Settlements(log) == Grants(ask, log) + Doubles(ask, log)
    ensures Settlements(log) == Grants(ask, log) <==> forall i :: 0 <= i < |log| && log[i].Called? ==> !SettlesTwice(ask(log[i].n))
    ensures Grants(ask, log[..k]) - 1 <= Settlements(log[..k]) <= Grants(ask, log[..k]) + Doubles(ask, log[..k])
    ensures SlotsOut(log, provider) == 0 && 0 <= SlotsOut(log[..k], provider) <= 1
    ensures Calls(log) == Judge(floor, ask, log).calls
    ensures forall i :: 0 <= i < |log| && log[i].Called? && ask(log[i].n).commits ==>
              r.started && r.target == Some(log[i].target) && forall j :: i < j < |log| ==> !log[j].Called?
  {
    KeptSoFar(floor, ask, log, k);
    CallsMade(floor, ask, log);
    ProbesOut(floor, ask, log);
    ProbesOut(floor, ask, log[..k]);
    SlotOut(floor, ask, log, provider);
    SlotOut(floor, ask, log[..k], provider);
    NoDoubles(ask, log);
    forall i | 0 <= i < |log| && log[i].Called? && ask(log[i].n).commits
      ensures r.started && r.target == Some(log[i].target) && forall j :: i < j < |log| ==> !log[j].Called?
    {
      SpokenStays(floor, ask, log, i);
      forall j | i < j < |log| ensures !log[j].Called? {
        NothingAfterSpoken(floor, ask, log, i, j);
      }
    }
  }

  lemma {:induction false} NoDoubles(ask: nat -> Answer, log: seq<Event>)
    ensures Doubles(ask, log) == 0 <==> forall i :: 0 <= i < |log| && log[i].Called? ==> !SettlesTwice(ask(log[i].n))
    decreases |log|
  {
    if log != [] {
      var n := |log| - 1;
      NoDoubles(ask, log[..n]);
      assert forall i :: 0 <= i < n ==> log[..n][i] == log[i];
    }
  }

  /** The targets looked at, in order. */
  function Looks(log: seq<Event>): seq<Target>
    decreases |log|
  {
    if log == [] then []
    else
      var e := log[|log| - 1];
      Looks(log[..|log| - 1]) + if e.Looked? then [e.target] else []
  }

  lemma {:induction false} LooksGrow(log: seq<Event>, e: Event)
    ensures Looks(log + [e]) == Looks(log) + if e.Looked? then [e.target] else []
  {
    assert (log + [e])[..|log|] == log;
  }

  /** The session's floor and a forced pass, if this is one, leave t to be tried. */
  predicate InReach(floor: Option<int>, forced: Option<int>, t: Target) {
    (floor.Some? ==> floor.value <= t.tier) && (forced.Some? ==> forced.value == t.tier)
  }

  /** The targets of a try-order that a pass may use, in order. */
  function Eligible(floor: Option<int>, forced: Option<int>, order: seq<Target>): seq<Target>
    decreases |order|
  {
    if order == [] then []
    else
      var t := order[|order| - 1];
      Eligible(floor, forced, order[..|order| - 1]) + if InReach(floor, forced, t) then [t] else []
  }

  /** How often t comes in s. */
  function Times(s: seq<Target>, t: Target): nat
    decreases |s|
  {
    if s == [] then 0 else Times(s[..|s| - 1], t) + One(s[|s| - 1] == t)
  }

  lemma {:induction false} OneMoreOf(s: seq<Target>, x: Target, t: Target)
    ensures Times(s + [x], t) == Times(s, t) + One(x == t)
  {
    assert (s + [x])[..|s|] == s;
  }

  /** What a pass may use of an order: all targets not below the session's floor and, if forced, on the forced tier; no fewer, no more often. */
  lemma {:induction false} EligibleExactly(floor: Option<int>, forced: Option<int>, order: seq<Target>, t: Target)
    ensures Times(Eligible(floor, forced, order), t) ==
      if (floor.None? || floor.value <= t.tier) && (forced.None? || forced.value == t.tier) then Times(order, t) else 0
    decreases |order|
  {
    if order != [] {
      var front := Eligible(floor, forced, order[..|order| - 1]);
      EligibleExactly(floor, forced, order[..|order| - 1], t);
      OneMoreOf(front, order[|order| - 1], t);
      assert front + [] == front;
    }
  }

  /** The surroundings of the failing side: a probe, a slot, and a call that commits and then says it was served without one. */
  ghost predicate AlwaysTwice(ask: nat -> Answer) {
    forall n :: SettlesTwice(ask(n)) && !ask(n).marked && ask(n).slot
  }

  lemma {:induction false} TwiceStep(floor: Option<int>, ask: nat -> Answer, d: Desk, e: Event)
    requires d.Desk? && Rule(floor, ask, d, e).Desk?
    requires e.Looked? || e.Called? ==> SettlesTwice(ask(e.n)) && !ask(e.n).marked && ask(e.n).slot
    ensures Rule(floor, ask, d, e).owes.Some? <==> e.Looked? || (d.owes.Some? && !e.Called?)
    ensures Rule(floor, ask, d, e).over.Some? <==> d.over.Some? || e.Called?
  {
  }

  /** What looking at a target leads to there: a call is owed or was made. */
  lemma {:induction false} LooksLeadToCalls(floor: Option<int>, ask: nat -> Answer, log: seq<Event>)
    requires Judge(floor, ask, log).Desk? && AlwaysTwice(ask)
    ensures var d := Judge(floor, ask, log);
      && (Looks(log) != [] ==> d.owes.Some? || Calls(log) > 0)
      && (d.over.Some? ==> Calls(log) > 0)
      && Doubles(ask, log) == Calls(log)
    decreases |log|
  {
    if log != [] {
      var n := |log| - 1;
      KeptSoFar(floor, ask, log, n);
      LooksLeadToCalls(floor, ask, log[..n]);
      TwiceStep(floor, ask, Judge(floor, ask, log[..n]), log[n]);
      assert log == log[..n] + [log[n]];
      LooksGrow(log[..n], log[n]);
    }
  }

  /**
   The failing side: against surroundings that grant the probe, have a slot, and whose call commits and then says it was
   served without a call, every run that tries an eligible target settles more probes than it was granted.
   */
  lemma {:induction false} ServedAfterCommitSettlesTwice(floor: Option<int>, ask: nat -> Answer, log: seq<Event>, r: Result, order: seq<Target>)
    requires Settled(floor, ask, log, r) && TriedInOrder(floor, ask, log, order) && Eligible(floor, None, order) != []
    requires AlwaysTwice(ask)
    ensures Settlements(log) > Grants(ask, log)
  {
    LooksLeadToCalls(floor, ask, log);
    EverySettledRunBalances(floor, ask, log, r, 0, "");
  }

  // ---------- the forced pass ----------

  /** The open tiers the breaker turned the request away from, with the latest open-until it gave for each. */
  function OpenTiers(ask: nat -> Answer, log: seq<Event>): map<int, int>
    decreases |log|
  {
    if log == [] then map[]
    else
      var e, before := log[|log| - 1], OpenTiers(ask, log[..|log| - 1]);
      if e.Looked? && ask(e.n).registered && ask(e.n).supported && ask(e.n).adm.skip && ask(e.n).adm.openUntil.Some?
      then before[e.target.tier := ask(e.n).adm.openUntil.value] else before
  }

  lemma {:induction false} OpenStep(floor: Option<int>, ask: nat -> Answer, d: Desk, e: Event)
    requires d.Desk? && Rule(floor, ask, d, e).Desk? && Rule(floor, ask, d, e).forcing.None?
    ensures d.forcing.None?
    ensures Rule(floor, ask, d, e).open ==
      if e.Looked? && ask(e.n).registered && ask(e.n).supported && ask(e.n).adm.skip && ask(e.n).adm.openUntil.Some?
      then d.open[e.target.tier := ask(e.n).adm.openUntil.value] else d.open
  {
  }

  lemma {:induction false} OpenTiersKnown(floor: Option<int>, ask: nat -> Answer, log: seq<Event>)
    requires Judge(floor, ask, log).Desk? && Judge(floor, ask, log).forcing.None?
    ensures Judge(floor, ask, log).open == OpenTiers(ask, log)
    decreases |log|
  {
    if log != [] {
      var n := |log| - 1;
      KeptSoFar(floor, ask, log, n);
      OpenStep(floor, ask, Judge(floor, ask, log[..n]), log[n]);
      OpenTiersKnown(floor, ask, log[..n]);
    }
  }

  /** The desk is forcing tier, and owes no call to another. */
  predicate ForcingOn(d: Desk, tier: int) {
    d.Desk? && d.forcing == Some(tier) && (d.owes.Some? ==> d.owes.value.tier == tier)
  }

  lemma {:induction false} ForcingStep(floor: Option<int>, ask: nat -> Answer, d: Desk, e: Event, tier: int)
    requires d.Desk? && Rule(floor, ask, d, e).Desk?
    requires ForcingOn(d, tier) || e == ForcedPass(tier)
    ensures ForcingOn(Rule(floor, ask, d, e), tier)
  {
  }

  lemma {:induction false} ForcingStays(floor: Option<int>, ask: nat -> Answer, log: seq<Event>, i: nat)
    requires Judge(floor, ask, log).Desk? && i < |log| && log[i].ForcedPass?
    ensures ForcingOn(Judge(floor, ask, log), log[i].tier)
    decreases |log|
  {
    var n := |log| - 1;
    KeptSoFar(floor, ask, log, n);
    if i < n {
      ForcingStays(floor, ask, log[..n], i);
    }
    ForcingStep(floor, ask, Judge(floor, ask, log[..n]), log[n], log[i].tier);
  }

  lemma {:induction false} NoCalls(log: seq<Event>)
    requires Calls(log) == 0
    ensures forall i :: 0 <= i < |log| ==> !log[i].Called?
    decreases |log|
  {
    if log != [] {
      NoCalls(log[..|log| - 1]);
      assert forall i :: 0 <= i < |log| - 1 ==> log[i] == log[..|log| - 1][i];
    }
  }

  /** A target worth calling had no slot. */
  predicate MeetsBusy(a: Answer) {
    a.registered && a.supported && !a.adm.skip && !a.marked && !a.slot
  }

  lemma {:induction false} BusyLook(d: Desk, t: Target, a: Answer)
    requires d.Desk?
    ensures Look(d, t, a).met.busy == (d.met.busy || MeetsBusy(a))
  {
  }

  lemma {:induction false} BusyStep(floor: Option<int>, ask: nat -> Answer, d: Desk, e: Event)
    requires d.Desk? && Rule(floor, ask, d, e).Desk?
    ensures Rule(floor, ask, d, e).met.busy == (d.met.busy || (e.Looked? && MeetsBusy(ask(e.n))))
  {
    match e
    case Looked(t, n) => BusyLook(d, t, ask(n));
    case _ =>
  }

  lemma {:induction false} BusyKnown(floor: Option<int>, ask: nat -> Answer, log: seq<Event>, i: nat)
    requires Judge(floor, ask, log).Desk? && i < |log| && log[i].Looked? && MeetsBusy(ask(log[i].n))
    ensures Judge(floor, ask, log).met.busy
    decreases |log|
  {
    var n := |log| - 1;
    KeptSoFar(floor, ask, log, n);
    BusyStep(floor, ask, Judge(floor, ask, log[..n]), log[n]);
    if i < n {
      BusyKnown(floor, ask, log[..n], i);
    }
  }

  lemma {:induction false} JudgedAt(floor: Option<int>, ask: nat -> Answer, log: seq<Event>, i: nat)
    requires Judge(floor, ask, log).Desk? && i < |log|
    ensures Judge(floor, ask, log[..i]).Desk?
    ensures Rule(floor, ask, Judge(floor, ask, log[..i]), log[i]).Desk?
  {
    KeptSoFar(floor, ask, log, i + 1);
    KeptSoFar(floor, ask, log, i);
    assert log[..i + 1][..i] == log[..i];
  }

  /**
   In a kept log a pass is forced only when no call was made and no target was busy, on the tier that opens
   soonest of those the breaker turned the request away from.
   */
  lemma {:induction false} ForcedPassMeans(floor: Option<int>, ask: nat -> Answer, log: seq<Event>, i: nat)
    requires Judge(floor, ask, log).Desk? && i < |log| && log[i].ForcedPass?
    ensures IsSoonest(OpenTiers(ask, log[..i]), log[i].tier)
    ensures forall t <- OpenTiers(ask, log[..i]) ::
              var until, soonest := OpenTiers(ask, log[..i])[t], OpenTiers(ask, log[..i])[log[i].tier];
              soonest <= until && (soonest == until ==> log[i].tier <= t)
    ensures forall j :: 0 <= j < i ==> !log[j].Called? && !(log[j].Looked? && MeetsBusy(ask(log[j].n)))
  {
    var before := log[..i];
    JudgedAt(floor, ask, log, i);
    OpenTiersKnown(floor, ask, before);
    CallsMade(floor, ask, before);
    NoCalls(before);
    forall j | 0 <= j < i ensures !log[j].Called? && !(log[j].Looked? && MeetsBusy(ask(log[j].n))) {
      assert log[j] == before[j];
      if before[j].Looked? && MeetsBusy(ask(before[j].n)) {
        BusyKnown(floor, ask, before, j);
      }
    }
  }

  /** The calls after a pass was forced, at most one, go to the forced tier. */
  lemma {:induction false} ForcedCallsStayOnTier(floor: Option<int>, ask: nat -> Answer, log: seq<Event>, i: nat)
    requires Judge(floor, ask, log).Desk? && i < |log| && log[i].ForcedPass?
    ensures Calls(log) <= 1
    ensures forall j :: i < j < |log| && log[j].Called? ==> log[j].target.tier == log[i].tier
  {
    forall j | i < j < |log| && log[j].Called? ensures log[j].target.tier == log[i].tier {
      JudgedAt(floor, ask, log, j);
      ForcingStays(floor, ask, log[..j], i);
    }
    ForcingStays(floor, ask, log, i);
    ForcedOnce(floor, ask, log);
    CallsMade(floor, ask, log);
  }

  // ---------- when the next target is tried, and what the request ends with ----------

  /** The call failed in a way its target's policy passes on, having written nothing, with the client there. */
  ghost predicate PassesOn(a: Answer) {
    a.error.Failure? && a.error.fallsThrough && !a.commits && !a.clientGone
  }

  /** What the client of any other call is told. */
  ghost predicate ToldOf(a: Answer, error: Error) {
    && (a.error.Fine? || a.error.ServedWithoutCall? ==> error == NoError)
    && (a.error.Failure? && a.commits ==> error == CallFailed)
    && (a.error.Failure? && !a.commits && a.clientGone ==> error == ClientLeft)
    && (a.error.Failure? && !a.commits && !a.clientGone ==> error == CallFailed)
  }

  lemma {:induction false} CallDecides(floor: Option<int>, ask: nat -> Answer, d: Desk, e: Event)
    requires d.Desk? && e.Called? && Rule(floor, ask, d, e).Desk?
    ensures var over := Rule(floor, ask, d, e).over;
      if PassesOn(ask(e.n)) then over.None? else over.Some? && ToldOf(ask(e.n), over.value)
  {
  }

  /** A request that is over owes no call. */
  lemma {:induction false} OverOwesNothing(floor: Option<int>, ask: nat -> Answer, log: seq<Event>)
    ensures var d := Judge(floor, ask, log); d.Desk? && d.over.Some? ==> d.owes.None?
    decreases |log|
  {
    if log != [] {
      OverOwesNothing(floor, ask, log[..|log| - 1]);
    }
  }

  lemma {:induction false} OverStep(floor: Option<int>, ask: nat -> Answer, d: Desk, e: Event)
    requires d.Desk? && d.over.Some? && d.owes.None? && Rule(floor, ask, d, e).Desk?
    ensures !e.Looked? && !e.Called? && !e.ForcedPass? && Rule(floor, ask, d, e).over == d.over
  {
  }

  lemma {:induction false} OverStays(floor: Option<int>, ask: nat -> Answer, log: seq<Event>, i: nat)
    requires Judge(floor, ask, log).Desk? && i < |log| && log[i].Called? && !PassesOn(ask(log[i].n))
    ensures var over := Judge(floor, ask, log).over; over.Some? && ToldOf(ask(log[i].n), over.value)
    decreases |log|
  {
    var n := |log| - 1;
    JudgedAt(floor, ask, log, n);
    if i < n {
      OverStays(floor, ask, log[..n], i);
      OverOwesNothing(floor, ask, log[..n]);
      OverStep(floor, ask, Judge(floor, ask, log[..n]), log[n]);
    } else {
      CallDecides(floor, ask, Judge(floor, ask, log[..n]), log[n]);
    }
  }

  lemma {:induction false} NothingAfterOver(floor: Option<int>, ask: nat -> Answer, log: seq<Event>, i: nat, j: nat)
    requires Judge(floor, ask, log).Desk? && i < j < |log| && log[i].Called? && !PassesOn(ask(log[i].n))
    ensures !log[j].Looked? && !log[j].Called? && !log[j].ForcedPass?
  {
    JudgedAt(floor, ask, log, j);
    OverStays(floor, ask, log[..j], i);
    OverOwesNothing(floor, ask, log[..j]);
    OverStep(floor, ask, Judge(floor, ask, log[..j]), log[j]);
  }

  ghost predicate AllPassOn(ask: nat -> Answer, log: seq<Event>) {
    forall i :: 0 <= i < |log| && log[i].Called? ==> PassesOn(ask(log[i].n))
  }

  lemma {:induction false} AllPassOnBefore(ask: nat -> Answer, log: seq<Event>, k: nat)
    requires AllPassOn(ask, log) && k <= |log|
    ensures AllPassOn(ask, log[..k])
  {
  }

  lemma {:induction false} OverOnlyByCalls(floor: Option<int>, ask: nat -> Answer, d: Desk, e: Event)
    requires d.Desk? && Rule(floor, ask, d, e).Desk? && !e.Called?
    ensures Rule(floor, ask, d, e).over == d.over
  {
  }

  lemma {:induction false} NotOver(floor: Option<int>, ask: nat -> Answer, log: seq<Event>)
    requires Judge(floor, ask, log).Desk? && AllPassOn(ask, log)
    ensures Judge(floor, ask, log).over.None?
    decreases |log|
  {
    if log != [] {
      var n := |log| - 1;
      JudgedAt(floor, ask, log, n);
      AllPassOnBefore(ask, log, n);
      NotOver(floor, ask, log[..n]);
      if log[n].Called? {
        CallDecides(floor, ask, Judge(floor, ask, log[..n]), log[n]);
      } else {
        OverOnlyByCalls(floor, ask, Judge(floor, ask, log[..n]), log[n]);
      }
    }
  }

  /**
   Failover, exactly: a call that failed in a way its policy passes on, before anything was written and with the client there, is
   followed by the next target, and if every call is one of those every eligible target of the first order is tried. After any other call
   nothing more is tried, and the request ends with what that call says.
   */
  lemma {:induction false} FailoverExactly(floor: Option<int>, ask: nat -> Answer, log: seq<Event>, r: Result, order: seq<Target>)
    requires Settled(floor, ask, log, r) && TriedInOrder(floor, ask, log, order)
    ensures AllPassOn(ask, log) ==> Eligible(floor, None, order) <= Looks(log)
    ensures forall i :: 0 <= i < |log| && log[i].Called? && !PassesOn(ask(log[i].n)) ==>
              ToldOf(ask(log[i].n), r.error) && forall j :: i < j < |log| ==> !log[j].Looked? && !log[j].Called? && !log[j].ForcedPass?
  {
    if AllPassOn(ask, log) {
      NotOver(floor, ask, log);
    }
    forall i | 0 <= i < |log| && log[i].Called? && !PassesOn(ask(log[i].n))
      ensures ToldOf(ask(log[i].n), r.error) && forall j :: i < j < |log| ==> !log[j].Looked? && !log[j].Called? && !log[j].ForcedPass?
    {
      OverStays(floor, ask, log, i);
      forall j | i < j < |log| ensures !log[j].Looked? && !log[j].Called? && !log[j].ForcedPass? {
        NothingAfterOver(floor, ask, log, i, j);
      }
    }
  }

  /** A request served without a call: that call was the last, and ended it. */
  predicate ServedSoundly(d: Desk) {
    d.Desk? && (d.served ==> d.over.Some?) && (d.over.Some? ==> d.owes.None?)
  }

  lemma {:induction false} ServedStep(floor: Option<int>, ask: nat -> Answer, d: Desk, e: Event)
    requires ServedSoundly(d) && Rule(floor, ask, d, e).Desk?
    ensures ServedSoundly(Rule(floor, ask, d, e))
    ensures One(Rule(floor, ask, d, e).served) == One(d.served) + One(e.Called? && ask(e.n).error.ServedWithoutCall?)
  {
  }

  /** The calls that said the request was served without one. */
  function Unmade(ask: nat -> Answer, log: seq<Event>): nat
    decreases |log|
  {
    if log == [] then 0
    else
      var e := log[|log| - 1];
      Unmade(ask, log[..|log| - 1]) + One(e.Called? && ask(e.n).error.ServedWithoutCall?)
  }

  lemma {:induction false} ServedKnown(floor: Option<int>, ask: nat -> Answer, log: seq<Event>)
    requires Judge(floor, ask, log).Desk?
    ensures ServedSoundly(Judge(floor, ask, log)) && One(Judge(floor, ask, log).served) == Unmade(ask, log)
    decreases |log|
  {
    if log != [] {
      var n := |log| - 1;
      JudgedAt(floor, ask, log, n);
      ServedKnown(floor, ask, log[..n]);
      ServedStep(floor, ask, Judge(floor, ask, log[..n]), log[n]);
    }
  }

  /** The attempts reported are the calls made, without one that was none. */
  lemma {:induction false} AttemptsAreCalls(floor: Option<int>, ask: nat -> Answer, log: seq<Event>, r: Result)
    requires Settled(floor, ask, log, r)
    ensures r.attempts == Calls(log) - Unmade(ask, log) && Unmade(ask, log) <= 1
  {
    CallsMade(floor, ask, log);
    ServedKnown(floor, ask, log);
  }

  // ---------- what each call says about its tier ----------

  /** What a call shows of its tier's health: well if anything came back, ill if it failed in a way that counts and the client was there. */
  ghost predicate ShowsHealth(a: Answer, ok: bool) {
    if ok then a.commits || a.error.Fine?
    else a.error.Failure? && a.error.countsAgainstTier && !a.commits && !a.clientGone
  }

  /** The verdicts recorded on a tier. */
  function Verdicts(log: seq<Event>, tier: int, ok: bool): nat
    decreases |log|
  {
    if log == [] then 0
    else
      var e := log[|log| - 1];
      Verdicts(log[..|log| - 1], tier, ok) + One(e.Recorded? && e.tier == tier && e.ok == ok)
  }

  /** The calls on a tier that show it well, or ill. */
  ghost function CallsShowing(ask: nat -> Answer, log: seq<Event>, tier: int, ok: bool): nat
    decreases |log|
  {
    if log == [] then 0
    else
      var e := log[|log| - 1];
      CallsShowing(ask, log[..|log| - 1], tier, ok) + One(e.Called? && e.target.tier == tier && ShowsHealth(ask(e.n), ok))
  }

  /** A call is owed to the target last looked at, with no verdict due. */
  predicate OwesLastLooked(d: Desk) {
    d.Desk? && (d.owes.Some? ==> d.looked == d.owes && d.due.None?)
  }

  predicate DueOn(d: Desk, tier: int, ok: bool) {
    d.Desk? && d.due == Some(ok) && d.looked.Some? && d.looked.value.tier == tier
  }

  lemma {:induction false} OwesLastLookedStep(floor: Option<int>, ask: nat -> Answer, d: Desk, e: Event)
    requires OwesLastLooked(d) && Rule(floor, ask, d, e).Desk?
    ensures OwesLastLooked(Rule(floor, ask, d, e))
  {
  }

  lemma {:induction false} VerdictStep(floor: Option<int>, ask: nat -> Answer, d: Desk, e: Event, tier: int, ok: bool)
    requires OwesLastLooked(d) && Rule(floor, ask, d, e).Desk?
    ensures One(DueOn(d, tier, ok)) + One(e.Called? && e.target.tier == tier && ShowsHealth(ask(e.n), ok))
         == One(DueOn(Rule(floor, ask, d, e), tier, ok)) + One(e.Recorded? && e.tier == tier && e.ok == ok)
  {
    match e
    case Looked(_, _) =>
    case Called(_, _) =>
    case _ =>
  }

  lemma {:induction false} VerdictsSoFar(floor: Option<int>, ask: nat -> Answer, log: seq<Event>, tier: int, ok: bool)
    requires Judge(floor, ask, log).Desk?
    ensures OwesLastLooked(Judge(floor, ask, log))
    ensures CallsShowing(ask, log, tier, ok) == Verdicts(log, tier, ok) + One(DueOn(Judge(floor, ask, log), tier, ok))
    decreases |log|
  {
    if log != [] {
      var n := |log| - 1;
      JudgedAt(floor, ask, log, n);
      VerdictsSoFar(floor, ask, log[..n], tier, ok);
      OwesLastLookedStep(floor, ask, Judge(floor, ask, log[..n]), log[n]);
      VerdictStep(floor, ask, Judge(floor, ask, log[..n]), log[n], tier, ok);
    }
  }

  /**
   Over a whole request, each tier is told of exactly the calls that say something of it: a success for each that came back or began to,
   a failure for each that failed in a way that counts with the client there, and nothing of the others.
   */
  lemma {:induction false} EveryCallIsJudged(floor: Option<int>, ask: nat -> Answer, log: seq<Event>, r: Result, tier: int, ok: bool)
    requires Settled(floor, ask, log, r)
    ensures Verdicts(log, tier, ok) == CallsShowing(ask, log, tier, ok)
  {
    VerdictsSoFar(floor, ask, log, tier, ok);
  }

  // ---------- the error of a request that ran out of targets ----------

  datatype Obstacle = Failing | Busy | Quarantined | Marked | Incapable

  /** What is in the way of calling a target. */
  ghost predicate Bars(a: Answer, o: Obstacle) {
    match o
    case Failing => !a.registered
    case Busy => MeetsBusy(a)
    case Quarantined => a.registered && a.supported && a.adm.skip
    case Marked => a.registered && a.supported && !a.adm.skip && a.marked
    case Incapable => a.registered && !a.supported
  }

  /** The event met this obstacle. */
  ghost predicate Meets(ask: nat -> Answer, e: Event, o: Obstacle) {
    (e.Looked? && Bars(ask(e.n), o)) || (o.Failing? && e.Called? && PassesOn(ask(e.n)))
  }

  ghost predicate Saw(ask: nat -> Answer, log: seq<Event>, o: Obstacle) {
    exists i :: 0 <= i < |log| && Meets(ask, log[i], o)
  }

  predicate Noted(m: Met, o: Obstacle) {
    match o
    case Failing => m.failed
    case Busy => m.busy
    case Quarantined => m.quarantined
    case Marked => m.unavailable
    case Incapable => m.unsupported
  }

  /** A tier that is open, or forced, was met as quarantined. */
  predicate OpenIsNoted(d: Desk) {
    d.Desk? && (d.open != map[] || d.forcing.Some? ==> d.met.quarantined)
  }

  lemma {:induction false} OpenIsNotedStep(floor: Option<int>, ask: nat -> Answer, d: Desk, e: Event)
    requires OpenIsNoted(d) && Rule(floor, ask, d, e).Desk?
    ensures OpenIsNoted(Rule(floor, ask, d, e))
  {
  }

  lemma {:induction false} LookNotes(d: Desk, t: Target, a: Answer, o: Obstacle)
    requires OpenIsNoted(d)
    ensures Noted(Look(d, t, a).met, o) <==> Noted(d.met, o) || Bars(a, o)
  {
  }

  lemma {:induction false} NotedStep(floor: Option<int>, ask: nat -> Answer, d: Desk, e: Event, o: Obstacle)
    requires OpenIsNoted(d) && Rule(floor, ask, d, e).Desk?
    ensures Noted(Rule(floor, ask, d, e).met, o) <==> Noted(d.met, o) || Meets(ask, e, o)
  {
    match e
    case Looked(t, n) => LookNotes(d, t, ask(n), o);
    case Called(_, _) =>
    case _ =>
  }

  lemma {:induction false} SawNext(ask: nat -> Answer, log: seq<Event>, o: Obstacle)
    requires log != []
    ensures Saw(ask, log, o) <==> Saw(ask, log[..|log| - 1], o) || Meets(ask, log[|log| - 1], o)
  {
    var front := log[..|log| - 1];
    assert forall i :: 0 <= i < |front| ==> front[i] == log[i];
    if Saw(ask, front, o) {
      var i :| 0 <= i < |front| && Meets(ask, front[i], o);
      assert Meets(ask, log[i], o);
    }
    if Saw(ask, log, o) {
      var i :| 0 <= i < |log| && Meets(ask, log[i], o);
      assert i < |front| ==> Meets(ask, front[i], o);
    }
  }

  lemma {:induction false} NotedExactly(floor: Option<int>, ask: nat -> Answer, log: seq<Event>, o: Obstacle)
    requires Judge(floor, ask, log).Desk?
    ensures OpenIsNoted(Judge(floor, ask, log))
    ensures Noted(Judge(floor, ask, log).met, o) <==> Saw(ask, log, o)
    decreases |log|
  {
    if log != [] {
      var n := |log| - 1;
      JudgedAt(floor, ask, log, n);
      NotedExactly(floor, ask, log[..n], o);
      OpenIsNotedStep(floor, ask, Judge(floor, ask, log[..n]), log[n]);
      NotedStep(floor, ask, Judge(floor, ask, log[..n]), log[n], o);
      SawNext(ask, log, o);
    }
  }

  /** The error of a request that tried all it could, by what it met: a failure before a busy target, that before an open tier, that before a marked target, that before an incapable one. */
  ghost predicate WorstMet(ask: nat -> Answer, log: seq<Event>, error: Error) {
    match error
    case CallFailed => Saw(ask, log, Failing)
    case AllBusy => !Saw(ask, log, Failing) && (Saw(ask, log, Busy)
                    || !(Saw(ask, log, Quarantined) || Saw(ask, log, Marked) || Saw(ask, log, Incapable)))
    case AllQuarantined => !Saw(ask, log, Failing) && !Saw(ask, log, Busy) && Saw(ask, log, Quarantined)
    case AllUnavailable => !Saw(ask, log, Failing) && !Saw(ask, log, Busy) && !Saw(ask, log, Quarantined) && Saw(ask, log, Marked)
    case Unsupported =>
      && !Saw(ask, log, Failing) && !Saw(ask, log, Busy) && !Saw(ask, log, Quarantined) && !Saw(ask, log, Marked)
      && Saw(ask, log, Incapable)
    case _ => false
  }

  /** A request that no call ended failed with the worst it met, unless the client left while it waited. */
  lemma {:induction false} ExhaustedExactly(floor: Option<int>, ask: nat -> Answer, log: seq<Event>, r: Result)
    requires Settled(floor, ask, log, r) && AllPassOn(ask, log)
    ensures r.error == ClientLeft || WorstMet(ask, log, r.error)
  {
    NotOver(floor, ask, log);
    NotedExactly(floor, ask, log, Failing);
    NotedExactly(floor, ask, log, Busy);
    NotedExactly(floor, ask, log, Quarantined);
    NotedExactly(floor, ask, log, Marked);
    NotedExactly(floor, ask, log, Incapable);
  }

  // ---------- soonestOpen ----------

  /** walk is some order in which the keys of a map may be visited. */
  ghost predicate Walks(open: map<int, int>, walk: seq<int>) {
    && (forall t <- open :: t in walk)
    && (forall i :: 0 <= i < |walk| ==> walk[i] in open)
  }

  method SoonestOpen(open: map<int, int>, walk: seq<int>) returns (tier: int, ok: bool)
    requires Walks(open, walk)
    ensures ok == (walk != [])
    ensures ok ==> IsSoonest(open, tier)
    ensures ok ==> forall t <- open :: open[tier] <= open[t] && (open[tier] == open[t] ==> tier <= t)
  {
    tier, ok := 0, false;
    for i := 0 to |walk|
      invariant ok == (i > 0)
      invariant ok ==> tier in open && forall j :: 0 <= j < i ==> Sooner(open, tier, walk[j])
    {
      var t := walk[i];
      if !ok || open[t] < open[tier] || (open[t] == open[tier] && t < tier) {
        tier := t;
        ok := true;
      }
    }
  }

  /** So the answer does not depend on the order the map is walked in. */
  lemma {:induction false} SoonestIsUnique(open: map<int, int>, a: int, b: int)
    requires IsSoonest(open, a) && IsSoonest(open, b)
    ensures a == b
  {
    assert Sooner(open, a, b) && Sooner(open, b, a);
  }

  // ---------- one target ----------

  datatype Result = Result(target: Option<Target>, attempts: nat, started: bool, error: Error)

  /** The variables of executePlan that live across targets. */
  datatype Progress = Progress(
    log: seq<Event>, attempts: nat, met: Met, openUntil: map<int, int>, forcedCall: bool, target: Option<Target>)

  const FIRST := Progress([], 0, CLEAN.met, map[], false, None)

  /** Between two targets nothing is out, and the variables say what the log says. */
  ghost predicate Idle(floor: Option<int>, ask: nat -> Answer, forced: Option<int>, p: Progress) {
    var d := Judge(floor, ask, p.log);
    && AtRest(d) && d.spoken.None? && d.over.None? && !d.served
    && d.calls == p.attempts && d.open == p.openUntil && d.forcing == forced && d.met == p.met && d.looked == p.target
    && p.forcedCall == (forced.Some? && p.attempts > 0)
  }

  /** How a request may end, calls being all the calls made. */
  ghost predicate Settled(floor: Option<int>, ask: nat -> Answer, log: seq<Event>, r: Result) {
    var d := Judge(floor, ask, log);
    && AtRest(d)
    && r.target == d.looked
    && r.started == d.spoken.Some? && (d.spoken.Some? ==> d.looked == d.spoken)
    && r.attempts == d.calls - (if d.served then 1 else 0)
    && (if d.over.Some? then r.error == d.over.value else r.error == ClientLeft || r.error == Exhausted(d.met))
  }

  datatype Verdict = GoOn(busy: bool) | Stop(result: Result)

  /** Write an event down. */
  method Note(ghost floor: Option<int>, before: seq<Event>, e: Event, ghost ask: nat -> Answer) returns (log: seq<Event>)
    requires !e.Looked?
    ensures log == before + [e]
    ensures Judge(floor, ask, log) == Rule(floor, ask, Judge(floor, ask, before), e)
    ensures Looks(log) == Looks(before)
  {
    Judged(floor, ask, before, e);
    LooksGrow(before, e);
    log := before + [e];
  }

  /** Take the slot and make the call. */
  method Dial(ghost floor: Option<int>, before: seq<Event>, t: Target, n: nat, ghost ask: nat -> Answer)
    returns (log: seq<Event>)
    requires var d := Judge(floor, ask, before); d.Desk? && d.slot.None? && d.owes == Some(t) && d.next == n + 1
    ensures var d := Judge(floor, ask, before);
      Judge(floor, ask, log) == Rule(floor, ask, d.(slot := Some(t.provider)), Called(t, n))
    ensures Looks(log) == Looks(before)
  {
    log := Note(floor, before, Acquired(t.provider), ask);
    log := Note(floor, log, Called(t, n), ask);
  }

  /** A stream that started has answered: its success is recorded at once. Then the slot goes back. */
  method Finish(ghost floor: Option<int>, before: seq<Event>, t: Target, a: Answer, ghost ask: nat -> Answer)
    returns (log: seq<Event>)
    requires var d := Judge(floor, ask, before);
      && d.Desk? && d.slot == Some(t.provider) && d.owes.None? && d.looked == Some(t) && d.due == VerdictDue(a)
      && d.probe == (if a.adm.probe then Some(t.tier as int) else None)
    ensures var d := Judge(floor, ask, before);
      Judge(floor, ask, log) ==
        if a.commits then d.(slot := None, due := None, probe := None) else d.(slot := None)
    ensures Looks(log) == Looks(before)
  {
    log := before;
    if a.commits {
      log := Note(floor, log, Recorded(t.tier, true, a.adm.probe), ask);
    }
    log := Note(floor, log, Released(t.provider), ask);
  }

  /** The slot, the call and, for a stream that starts, its success, then the slot back. */
  method MakeCall(ghost floor: Option<int>, before: seq<Event>, t: Target, n: nat, ask: nat -> Answer)
    returns (log: seq<Event>)
    requires var d := Judge(floor, ask, before);
      && d.Desk? && d.slot.None? && d.owes == Some(t) && d.looked == Some(t) && d.next == n + 1
      && d.probe == (if ask(n).adm.probe then Some(t.tier as int) else None)
    ensures var d := Judge(floor, ask, before);
      Judge(floor, ask, log) == d.(
        owes := None, calls := d.calls + 1, over := EndsWith(ask(n)), served := ask(n).error.ServedWithoutCall?,
        due := if ask(n).commits then None else VerdictDue(ask(n)),
        spoken := if ask(n).commits then Some(t) else None,
        met := d.met.(failed := d.met.failed || EndsWith(ask(n)).None?),
        again := if ask(n).commits && ask(n).error.ServedWithoutCall? then d.probe else None,
        probe := if ask(n).commits then None else d.probe)
    ensures Looks(log) == Looks(before)
  {
    log := Dial(floor, before, t, n, ask);
    log := Finish(floor, log, t, ask(n), ask);
  }

  /** The probe of t is out, or has been recorded already and is about to be abandoned as well. */
  predicate HasProbe(d: Desk, t: Target, probe: bool)
    requires d.Desk?
  {
    if probe then (d.probe == Some(t.tier as int) && d.again.None?) || (d.probe.None? && d.again == Some(t.tier as int))
    else d.probe.None? && d.again.None?
  }

  method HandBack(ghost floor: Option<int>, before: seq<Event>, t: Target, probe: bool, ghost ask: nat -> Answer)
    returns (log: seq<Event>)
    requires var d := Judge(floor, ask, before); d.Desk? && d.owes.None? && d.due.None? && HasProbe(d, t, probe)
    ensures var d := Judge(floor, ask, before);
      Judge(floor, ask, log) == d.(probe := None, again := None, twice := d.twice + if d.again.Some? then 1 else 0)
    ensures Looks(log) == Looks(before)
  {
    log := before;
    if probe {
      log := Note(floor, before, Abandoned(t.tier), ask);
    }
  }

  /** What the attempt says about the tier, once its slot is back. */
  method Settle(ghost floor: Option<int>, before: seq<Event>, t: Target, a: Answer, ghost ask: nat -> Answer)
    returns (log: seq<Event>)
    requires var d := Judge(floor, ask, before);
      && d.Desk? && d.slot.None? && d.owes.None? && d.looked == Some(t)
      && d.due == (if a.commits then None else VerdictDue(a))
      && d.probe == (if a.adm.probe && !a.commits then Some(t.tier as int) else None)
      && d.again == (if a.adm.probe && a.commits && a.error.ServedWithoutCall? then Some(t.tier as int) else None)
    ensures var d := Judge(floor, ask, before);
      Judge(floor, ask, log) == d.(probe := None, due := None, again := None, twice := d.twice + if d.again.Some? then 1 else 0)
    ensures Looks(log) == Looks(before)
  {
    if a.error.ServedWithoutCall? {
      log := HandBack(floor, before, t, a.adm.probe, ask);
    } else if a.commits {
      log := before;
    } else if a.error.Fine? {
      log := Note(floor, before, Recorded(t.tier, true, a.adm.probe), ask);
    } else if a.clientGone {
      log := HandBack(floor, before, t, a.adm.probe, ask);
    } else if a.error.countsAgainstTier {
      log := Note(floor, before, Recorded(t.tier, false, a.adm.probe), ask);
    } else {
      log := HandBack(floor, before, t, a.adm.probe, ask);
    }
  }

  /** The desk once a call that was owed has been made and settled. */
  function AfterCall(d: Desk, t: Target, a: Answer): Desk
    requires d.Desk?
  {
    d.(owes := None, slot := None, probe := None, due := None, again := None,
       calls := d.calls + 1, over := EndsWith(a), served := a.error.ServedWithoutCall?,
       spoken := if a.commits then Some(t) else None,
       met := d.met.(failed := d.met.failed || EndsWith(a).None?),
       twice := d.twice + if a.commits && a.error.ServedWithoutCall? && d.probe.Some? then 1 else 0)
  }

  /** Make the call and settle it. */
  method CallAndSettle(ghost floor: Option<int>, before: seq<Event>, t: Target, n: nat, ask: nat -> Answer)
    returns (log: seq<Event>)
    requires var d := Judge(floor, ask, before);
      && d.Desk? && d.slot.None? && d.owes == Some(t) && d.due.None? && d.looked == Some(t) && d.next == n + 1
      && d.probe == (if ask(n).adm.probe then Some(t.tier as int) else None)
    ensures Judge(floor, ask, log) == AfterCall(Judge(floor, ask, before), t, ask(n))
    ensures Looks(log) == Looks(before)
  {
    log := MakeCall(floor, before, t, n, ask);
    log := Settle(floor, log, t, ask(n), ask);
  }

  /** Make the call, settle it, and see whether the request is over. */
  method CallTarget(ghost floor: Option<int>, forced: Option<int>, p: Progress, t: Target, n: nat, ask: nat -> Answer)
    returns (q: Progress, v: Verdict)
    requires CallDue(floor, ask, forced, p, t, n)
    ensures q.attempts == p.attempts + 1 && q.met.busy == p.met.busy && Looks(q.log) == Looks(p.log)
    ensures v.GoOn? ==> !v.busy && Idle(floor, ask, forced, q)
    ensures v.Stop? ==> Settled(floor, ask, q.log, v.result) && Judge(floor, ask, q.log).calls == p.attempts + 1
    ensures v.Stop? ==> Judge(floor, ask, q.log).over.Some?
    ensures Tallies(floor, ask, forced, q) && Judge(floor, ask, q.log).next == n + 1
  {
    var a := ask(n);
    var log := CallAndSettle(floor, p.log, t, n, ask);
    q := p.(attempts := p.attempts + 1, forcedCall := forced.Some?, log := log);
    var end := EndsWith(a);
    if end.Some? {
      v := Stop(Result(q.target, if a.error.ServedWithoutCall? then q.attempts - 1 else q.attempts, a.commits, end.value));
    } else {
      q := q.(met := q.met.(failed := true));
      v := GoOn(false);
    }
  }

  /** A target is owed its call: what the desk and the variables then say. */
  ghost predicate CallDue(floor: Option<int>, ask: nat -> Answer, forced: Option<int>, p: Progress, t: Target, n: nat) {
    var d := Judge(floor, ask, p.log);
    && p.target == Some(t) && (forced.Some? ==> p.attempts == 0)
    && d.Desk? && d.slot.None? && d.owes == Some(t) && d.due.None? && d.looked == Some(t) && d.next == n + 1
    && d.probe == (if ask(n).adm.probe then Some(t.tier as int) else None)
    && d.calls == p.attempts && d.open == p.openUntil && d.forcing == forced && d.met == p.met
  }

  /** Write down that a target is looked at. */
  method NoteLook(ghost floor: Option<int>, before: seq<Event>, t: Target, n: nat, ghost ask: nat -> Answer) returns (log: seq<Event>)
    ensures Judge(floor, ask, log) == Rule(floor, ask, Judge(floor, ask, before), Looked(t, n))
    ensures Looks(log) == Looks(before) + [t]
  {
    Judged(floor, ask, before, Looked(t, n));
    LooksGrow(before, Looked(t, n));
    log := before + [Looked(t, n)];
  }

  /** Why a target is passed over without a slot being asked for, if it is. */
  predicate Unfit(a: Answer) {
    !a.registered || !a.supported || a.adm.skip
  }

  /** The variables after such a target. */
  function PassedBy(p: Progress, log: seq<Event>, t: Target, a: Answer, forced: Option<int>): Progress {
    var q := p.(target := Some(t), log := log);
    if !a.registered then q.(met := q.met.(failed := true))
    else if !a.supported then q.(met := q.met.(unsupported := true))
    else if forced.Some? then q
    else q.(met := q.met.(quarantined := true),
            openUntil := if a.adm.openUntil.None? then q.openUntil else q.openUntil[t.tier := a.adm.openUntil.value])
  }

  lemma {:induction false} PassedByIdle(floor: Option<int>, ask: nat -> Answer, forced: Option<int>, p: Progress, log: seq<Event>, t: Target, n: nat)
    requires Idle(floor, ask, forced, p) && Unfit(ask(n)) && n >= Judge(floor, ask, p.log).next
    requires MayLook(floor, Judge(floor, ask, p.log), t)
    requires Judge(floor, ask, log) == Rule(floor, ask, Judge(floor, ask, p.log), Looked(t, n))
    ensures Idle(floor, ask, forced, PassedBy(p, log, t, ask(n), forced))
    ensures Judge(floor, ask, log).Desk? && Judge(floor, ask, log).next == n + 1
  {
  }

  /** Look at one target: is it to be called? */
  method Survey(floor: Option<int>, forced: Option<int>, p: Progress, t: Target, n: nat, ask: nat -> Answer)
    returns (q: Progress, call: bool, busy: bool)
    requires Idle(floor, ask, forced, p) && Plausible(ask(n)) && n >= Judge(floor, ask, p.log).next
    requires (floor.Some? ==> floor.value <= t.tier) && (forced.Some? ==> forced == Some(t.tier as int) && !p.forcedCall)
    ensures q.attempts == p.attempts && Looks(q.log) == Looks(p.log) + [t]
    ensures call ==> CallDue(floor, ask, forced, q, t, n) && q.met.busy == p.met.busy
    ensures !call ==> Idle(floor, ask, forced, q) && q.met.busy == (p.met.busy || busy)
    ensures busy == MeetsBusy(ask(n)) && (call ==> !busy)
    ensures Judge(floor, ask, q.log).Desk? && Judge(floor, ask, q.log).next == n + 1
  {
    var a := ask(n);
    var log := NoteLook(floor, p.log, t, n, ask);
    call, busy := false, false;
    if Unfit(a) {
      PassedByIdle(floor, ask, forced, p, log, t, n);
      q := PassedBy(p, log, t, a, forced);
      return;
    }
    q := p.(target := Some(t), log := log);
    if a.marked || !a.slot {
      log := HandBack(floor, q.log, t, a.adm.probe, ask);
      q := q.(log := log, met := if a.marked then q.met.(unavailable := true) else q.met.(busy := true));
      busy := !a.marked;
      return;
    }
    call := true;
  }

  /** Look at one target: skip it, or call it and see whether the request is over. */
  method Visit(floor: Option<int>, forced: Option<int>, p: Progress, t: Target, n: nat, ask: nat -> Answer)
    returns (q: Progress, v: Verdict)
    requires Idle(floor, ask, forced, p) && Plausible(ask(n)) && n >= Judge(floor, ask, p.log).next
    requires (floor.Some? ==> floor.value <= t.tier) && (forced.Some? ==> forced == Some(t.tier as int) && !p.forcedCall)
    ensures p.attempts <= q.attempts <= p.attempts + 1 && Looks(q.log) == Looks(p.log) + [t]
    ensures v.GoOn? ==> Idle(floor, ask, forced, q) && q.met.busy == (p.met.busy || v.busy) && v.busy == MeetsBusy(ask(n))
    ensures v.Stop? ==> Settled(floor, ask, q.log, v.result) && Judge(floor, ask, q.log).calls == p.attempts + 1
    ensures v.Stop? ==> Judge(floor, ask, q.log).over.Some?
    ensures Tallies(floor, ask, forced, q) && Judge(floor, ask, q.log).next == n + 1
  {
    var call, busy;
    q, call, busy := Survey(floor, forced, p, t, n, ask);
    v := GoOn(busy);
    if call {
      q, v := CallTarget(floor, forced, q, t, n, ask);
    }
  }

  // ---------- the loops ----------

  /** The calls made after at most n more targets: one in all in a forced pass. */
  predicate Within(forced: Option<int>, before: nat, n: nat, calls: nat) {
    before <= calls <= before + n && (forced.Some? && before <= 1 ==> calls <= 1)
  }

  lemma {:induction false} EligiblePrefix(floor: Option<int>, forced: Option<int>, order: seq<Target>, i: nat)
    requires i <= |order|
    ensures Eligible(floor, forced, order[..i]) <= Eligible(floor, forced, order)
    decreases |order| - i
  {
    if i == |order| {
      assert order[..i] == order;
    } else {
      assert order[..i + 1][..i] == order[..i];
      EligiblePrefix(floor, forced, order, i + 1);
    }
  }

  /** Every target of a pass is to be looked at: it is the first, or forced and no call has been made in it. */
  predicate Open(forced: Option<int>, q: Progress) {
    forced.None? || q.attempts == 0
  }

  /** The log agrees with the variables on the pass and the calls made. */
  ghost predicate Tallies(floor: Option<int>, ask: nat -> Answer, forced: Option<int>, q: Progress) {
    var d := Judge(floor, ask, q.log);
    d.Desk? && d.forcing == forced && d.calls == q.attempts
  }

  /** What considering target t, with the answers of number n, does. */
  ghost predicate Considered(floor: Option<int>, ask: nat -> Answer, forced: Option<int>, p: Progress, q: Progress, v: Verdict, t: Target, n: nat) {
    && (v.GoOn? ==> Idle(floor, ask, forced, q) && q.met.busy == (p.met.busy || v.busy) && Judge(floor, ask, q.log).next <= n + 1)
    && (v.Stop? ==> Settled(floor, ask, q.log, v.result) && Judge(floor, ask, q.log).over.Some?)
    && Tallies(floor, ask, forced, q) && Within(forced, p.attempts, 1, q.attempts) && Looks(p.log) <= Looks(q.log)
    && (Open(forced, q) ==> Looks(q.log) == Looks(p.log) + if InReach(floor, forced, t) then [t] else [])
    && (Open(forced, q) && v.GoOn? ==> v.busy == (InReach(floor, forced, t) && MeetsBusy(ask(n))))
  }

  /** The walk passes over a target, or visits it. */
  method Consider(floor: Option<int>, forced: Option<int>, p: Progress, t: Target, n: nat, ask: nat -> Answer)
    returns (q: Progress, v: Verdict)
    requires Idle(floor, ask, forced, p) && Plausible(ask(n)) && n >= Judge(floor, ask, p.log).next
    ensures Considered(floor, ask, forced, p, q, v, t, n)
  {
    if floor.Some? && t.tier < floor.value {
      return p, GoOn(false);
    }
    if forced.Some? && (t.tier != forced.value || p.forcedCall) {
      return p, GoOn(false);
    }
    q, v := Visit(floor, forced, p, t, n, ask);
  }

  /** Some target the pass may use, of the first i of the order, had no slot; its answers begin at first. */
  ghost predicate MetBusy(floor: Option<int>, forced: Option<int>, order: seq<Target>, i: nat, first: nat, ask: nat -> Answer)
    requires i <= |order|
  {
    exists m: nat :: m < i && InReach(floor, forced, order[m]) && MeetsBusy(ask(first + m))
  }

  lemma {:induction false} MetBusyNext(floor: Option<int>, forced: Option<int>, order: seq<Target>, i: nat, first: nat, ask: nat -> Answer)
    requires i < |order|
    ensures MetBusy(floor, forced, order, i + 1, first, ask) <==>
      MetBusy(floor, forced, order, i, first, ask) || (InReach(floor, forced, order[i]) && MeetsBusy(ask(first + i)))
  {
  }

  /** What the first i targets of an order came to. */
  ghost predicate Walked(floor: Option<int>, forced: Option<int>, order: seq<Target>, first: nat, ask: nat -> Answer, p: Progress, q: Progress, i: nat, busy: bool)
    requires i <= |order|
  {
    && Idle(floor, ask, forced, q) && Within(forced, p.attempts, i, q.attempts) && Looks(p.log) <= Looks(q.log)
    && Judge(floor, ask, q.log).next <= first + i && q.met.busy == (p.met.busy || busy)
    && (Open(forced, q) ==> Looks(q.log) == Looks(p.log) + Eligible(floor, forced, order[..i]))
    && (Open(forced, q) ==> busy == MetBusy(floor, forced, order, i, first, ask))
  }

  lemma {:induction false} WalkedOn(floor: Option<int>, forced: Option<int>, order: seq<Target>, first: nat, ask: nat -> Answer,
                                    p: Progress, mid: Progress, q: Progress, i: nat, busy: bool, v: Verdict)
    requires i < |order| && Walked(floor, forced, order, first, ask, p, mid, i, busy)
    requires Considered(floor, ask, forced, mid, q, v, order[i], first + i)
    ensures Within(forced, p.attempts, i + 1, q.attempts) && Looks(p.log) <= Looks(q.log)
    ensures Open(forced, q) ==> Looks(q.log) == Looks(p.log) + Eligible(floor, forced, order[..i + 1])
    ensures v.GoOn? ==> Walked(floor, forced, order, first, ask, p, q, i + 1, busy || v.busy)
  {
    assert order[..i + 1][..i] == order[..i];
    MetBusyNext(floor, forced, order, i, first, ask);
  }

  /** What a round looked at: the whole order, unless a call ended the request on the way; and whether it met a busy target. */
  ghost predicate RoundTold(floor: Option<int>, forced: Option<int>, order: seq<Target>, first: nat, ask: nat -> Answer, p: Progress, q: Progress, v: Verdict) {
    && p.attempts <= q.attempts && Looks(p.log) <= Looks(q.log) && Tallies(floor, ask, forced, q)
    && (v.GoOn? ==> q.met.busy == (p.met.busy || v.busy))
    && (v.Stop? ==> Judge(floor, ask, q.log).over.Some?)
    && (Open(forced, q) ==>
          && Looks(q.log) <= Looks(p.log) + Eligible(floor, forced, order)
          && (v.GoOn? ==> Looks(q.log) == Looks(p.log) + Eligible(floor, forced, order)
                          && v.busy == MetBusy(floor, forced, order, |order|, first, ask)))
  }

  lemma {:induction false} WalkStops(floor: Option<int>, forced: Option<int>, order: seq<Target>, first: nat, ask: nat -> Answer,
                                     p: Progress, mid: Progress, q: Progress, i: nat, busy: bool, v: Verdict)
    requires i < |order| && Walked(floor, forced, order, first, ask, p, mid, i, busy)
    requires Considered(floor, ask, forced, mid, q, v, order[i], first + i) && v.Stop?
    ensures Stands(floor, ask, forced, p.attempts, |order|, first + |order|, q, v)
    ensures RoundTold(floor, forced, order, first, ask, p, q, v)
  {
    WalkedOn(floor, forced, order, first, ask, p, mid, q, i, busy, v);
    EligiblePrefix(floor, forced, order, i + 1);
  }

  lemma {:induction false} WalkEnds(floor: Option<int>, forced: Option<int>, order: seq<Target>, first: nat, ask: nat -> Answer, p: Progress, q: Progress, busy: bool)
    requires Walked(floor, forced, order, first, ask, p, q, |order|, busy)
    ensures Stands(floor, ask, forced, p.attempts, |order|, first + |order|, q, GoOn(busy))
    ensures RoundTold(floor, forced, order, first, ask, p, q, GoOn(busy))
  {
    assert order[..|order|] == order;
  }

  lemma {:induction false} WalkBegins(floor: Option<int>, forced: Option<int>, order: seq<Target>, first: nat, ask: nat -> Answer, p: Progress)
    requires Idle(floor, ask, forced, p) && Judge(floor, ask, p.log).next <= first
    ensures Walked(floor, forced, order, first, ask, p, p, 0, false)
  {
  }

  /** One target of the walk. */
  method Advance(floor: Option<int>, forced: Option<int>, ghost p: Progress, mid: Progress, order: seq<Target>, first: nat, i: nat, busy: bool, ask: nat -> Answer)
    returns (q: Progress, v: Verdict)
    requires i < |order| && Walked(floor, forced, order, first, ask, p, mid, i, busy) && forall n :: Plausible(ask(n))
    ensures v.GoOn? ==> Walked(floor, forced, order, first, ask, p, q, i + 1, busy || v.busy)
    ensures v.Stop? ==> Stands(floor, ask, forced, p.attempts, |order|, first + |order|, q, v)
    ensures v.Stop? ==> RoundTold(floor, forced, order, first, ask, p, q, v)
  {
    q, v := Consider(floor, forced, mid, order[i], first + i, ask);
    if v.Stop? {
      WalkStops(floor, forced, order, first, ask, p, mid, q, i, busy, v);
    } else {
      WalkedOn(floor, forced, order, first, ask, p, mid, q, i, busy, v);
    }
  }

  /** One walk over the targets in try-order. */
  method Sweep(floor: Option<int>, forced: Option<int>, p: Progress, order: seq<Target>, first: nat, ask: nat -> Answer)
    returns (q: Progress, v: Verdict)
    requires Idle(floor, ask, forced, p) && Judge(floor, ask, p.log).next <= first && forall n :: Plausible(ask(n))
    ensures Stands(floor, ask, forced, p.attempts, |order|, first + |order|, q, v)
    ensures RoundTold(floor, forced, order, first, ask, p, q, v)
  {
    q := p;
    var anyBusy := false;
    WalkBegins(floor, forced, order, first, ask, p);
    for i := 0 to |order|
      invariant Walked(floor, forced, order, first, ask, p, q, i, anyBusy)
    {
      q, v := Advance(floor, forced, p, q, order, first, i, anyBusy, ask);
      if v.Stop? {
        return;
      }
      anyBusy := anyBusy || v.busy;
    }
    WalkEnds(floor, forced, order, first, ask, p, q, anyBusy);
    v := GoOn(anyBusy);
  }

  /** A request may end wherever nothing is out. */
  lemma {:induction false} IdleSettles(floor: Option<int>, ask: nat -> Answer, forced: Option<int>, p: Progress, error: Error)
    requires Idle(floor, ask, forced, p) && (error == ClientLeft || error == Exhausted(p.met))
    ensures Settled(floor, ask, p.log, Result(p.target, p.attempts, false, error))
  {
  }

  lemma {:induction false} WithinMore(forced: Option<int>, before: nat, size: nat, retry: nat, mid: nat, calls: nat)
    requires forced.Some? ==> before == 0
    requires retry <= BUSY_RETRIES && Within(forced, before, retry * size, mid) && Within(forced, mid, size, calls)
    ensures Within(forced, before, (retry + 1) * size, calls)
    ensures Within(forced, before, (BUSY_RETRIES + 1) * size, calls)
  {
    assert (retry + 1) * size == retry * size + size;
    assert (BUSY_RETRIES + 1) * size == (retry + 1) * size + (BUSY_RETRIES - retry) * size;
  }

  /**
   What a round or a pass leaves, given the calls made before it and at most n
   targets looked at: nothing out, or a request properly over.
   */
  ghost predicate Stands(floor: Option<int>, ask: nat -> Answer, forced: Option<int>, before: nat, n: nat, asked: nat, q: Progress, v: Verdict) {
    && (v.GoOn? ==>
          && Idle(floor, ask, forced, q) && Within(forced, before, n, q.attempts)
          && Judge(floor, ask, q.log).next <= asked)
    && (v.Stop? ==> Settled(floor, ask, q.log, v.result) && Within(forced, before, n, Judge(floor, ask, q.log).calls))
  }

  lemma {:induction false} StandsMore(floor: Option<int>, ask: nat -> Answer, forced: Option<int>, p: Progress, mid: Progress, size: nat, retry: nat,
                   asked: nat, q: Progress, v: Verdict)
    requires forced.Some? ==> p.attempts == 0
    requires retry <= BUSY_RETRIES && Within(forced, p.attempts, retry * size, mid.attempts)
    requires Stands(floor, ask, forced, mid.attempts, size, asked, q, v)
    ensures Stands(floor, ask, forced, p.attempts, (retry + 1) * size, asked, q, v)
    ensures Stands(floor, ask, forced, p.attempts, (BUSY_RETRIES + 1) * size, asked, q, v)
  {
    WithinMore(forced, p.attempts, size, retry, mid.attempts, if v.Stop? then Judge(floor, ask, q.log).calls else q.attempts);
  }

  /** Where a pass stands after some rounds. */
  ghost predicate PassStands(floor: Option<int>, ask: nat -> Answer, forced: Option<int>, p: Progress, size: nat, rounds: nat,
                             asked: nat, q: Progress, v: Verdict) {
    && rounds <= BUSY_RETRIES + 1
    && Stands(floor, ask, forced, p.attempts, (BUSY_RETRIES + 1) * size, asked, q, v)
    && (v.GoOn? ==> Within(forced, p.attempts, rounds * size, q.attempts))
  }

  // ---------- rounds ----------

  /** The rounds of a pass: the try-orders they walk, from number first on, each of size targets, and the answers they get, from number start on. */
  datatype Schedule = Schedule(floor: Option<int>, forced: Option<int>, orders: nat -> seq<Target>, first: nat, start: nat, size: nat)

  /** All that the first rounds look at. */
  function AllLooks(c: Schedule, rounds: nat): seq<Target> {
    if rounds == 0 then [] else AllLooks(c, rounds - 1) + Eligible(c.floor, c.forced, c.orders(c.first + rounds - 1))
  }

  /** Round k meets a busy target. */
  ghost predicate BusyRound(c: Schedule, k: nat, ask: nat -> Answer) {
    var order := c.orders(c.first + k);
    MetBusy(c.floor, c.forced, order, |order|, c.start + k * c.size, ask)
  }

  /** The client was there after round k. */
  predicate WaitedOut(c: Schedule, gone: nat -> bool, k: nat) {
    !gone(c.first + k)
  }

  /** What the rounds so far looked at, each but the last having met a busy target. */
  ghost predicate RanSoFar(c: Schedule, ask: nat -> Answer, p: Progress, q: Progress, v: Verdict, rounds: nat) {
    && p.attempts <= q.attempts && Looks(p.log) <= Looks(q.log) && Tallies(c.floor, ask, c.forced, q)
    && (v.GoOn? && rounds > 0 && (rounds > 1 || v.busy) ==> q.met.busy)
    && (v.Stop? ==> Judge(c.floor, ask, q.log).over.Some?)
    && (Open(c.forced, q) ==>
          && (forall k: nat :: k + 1 < rounds ==> BusyRound(c, k, ask))
          && (v.GoOn? && rounds > 0 ==> v.busy == BusyRound(c, rounds - 1, ask))
          && (v.GoOn? ==> Looks(q.log) == Looks(p.log) + AllLooks(c, rounds))
          && (rounds > 0 ==> Looks(p.log) + AllLooks(c, rounds - 1) <= Looks(q.log) <= Looks(p.log) + AllLooks(c, rounds)))
  }

  lemma {:induction false} RanOn(c: Schedule, ask: nat -> Answer, p: Progress, mid: Progress, was: Verdict, q: Progress, v: Verdict, rounds: nat)
    requires RanSoFar(c, ask, p, mid, was, rounds) && was.GoOn? && (rounds > 0 ==> was.busy)
    requires RoundTold(c.floor, c.forced, c.orders(c.first + rounds), c.start + rounds * c.size, ask, mid, q, v)
    ensures RanSoFar(c, ask, p, q, v, rounds + 1)
  {
    if Open(c.forced, q) {
      assert Open(c.forced, mid);
      RanLooks(c, Looks(p.log), Looks(mid.log), Looks(q.log), rounds);
      assert v.GoOn? ==> v.busy == BusyRound(c, rounds, ask);
    }
  }

  lemma {:induction false} RanLooks(c: Schedule, base: seq<Target>, mid: seq<Target>, looks: seq<Target>, rounds: nat)
    requires mid == base + AllLooks(c, rounds)
    requires mid <= looks <= mid + Eligible(c.floor, c.forced, c.orders(c.first + rounds))
    ensures base + AllLooks(c, rounds) <= looks <= base + AllLooks(c, rounds + 1)
    ensures mid + Eligible(c.floor, c.forced, c.orders(c.first + rounds)) == base + AllLooks(c, rounds + 1)
  {
    Regroup(base, AllLooks(c, rounds), Eligible(c.floor, c.forced, c.orders(c.first + rounds)));
  }

  /**
   What a pass looked at: every target it may use, order after order, up to a call that ended the request; with another round after each
   that met a busy target, up to five in all, unless the client left meanwhile.
   */
  ghost predicate PassTold(c: Schedule, ask: nat -> Answer, gone: nat -> bool, base: seq<Target>, looks: seq<Target>, over: bool, rounds: nat) {
    && 1 <= rounds <= 5
    && (forall k: nat :: k + 1 < rounds ==> BusyRound(c, k, ask) && WaitedOut(c, gone, k))
    && base + AllLooks(c, rounds - 1) <= looks <= base + AllLooks(c, rounds)
    && (!over ==> looks == base + AllLooks(c, rounds))
    && (!over ==> rounds == 5 || !BusyRound(c, rounds - 1, ask) || !WaitedOut(c, gone, rounds - 1))
  }

  /** The client left after the last round, which met a busy target. */
  ghost predicate LeftWaiting(c: Schedule, ask: nat -> Answer, gone: nat -> bool, rounds: nat) {
    rounds > 0 && BusyRound(c, rounds - 1, ask) && !WaitedOut(c, gone, rounds - 1)
  }

  /** What a pass ends in. */
  ghost predicate PassEnds(c: Schedule, ask: nat -> Answer, gone: nat -> bool, p: Progress, q: Progress, v: Verdict, rounds: nat) {
    && Tallies(c.floor, ask, c.forced, q)
    && var d := Judge(c.floor, ask, q.log);
    && p.attempts <= q.attempts && Looks(p.log) <= Looks(q.log)
    && (v.GoOn? && rounds > 1 ==> q.met.busy)
    && (v.GoOn? ==> d.over.None?)
    && (v.Stop? && d.over.None? ==> v.result.error == ClientLeft)
    && (Open(c.forced, q) ==>
          && PassTold(c, ask, gone, Looks(p.log), Looks(q.log), d.over.Some?, rounds)
          && (d.over.None? ==> (v.Stop? <==> LeftWaiting(c, ask, gone, rounds))))
  }

  /** Where a pass stands after some rounds: after each it met a busy target and waited. */
  ghost predicate Waiting(c: Schedule, ask: nat -> Answer, gone: nat -> bool, p: Progress, q: Progress, v: Verdict, rounds: nat) {
    && v.GoOn? && PassStands(c.floor, ask, c.forced, p, c.size, rounds, c.start + rounds * c.size, q, v)
    && RanSoFar(c, ask, p, q, v, rounds) && (rounds > 0 ==> v.busy)
    && forall k: nat :: k < rounds ==> WaitedOut(c, gone, k)
  }

  lemma {:induction false} NextStart(start: nat, retry: nat, size: nat)
    ensures start + retry * size + size == start + (retry + 1) * size
  {
  }

  /** One more round of a pass. */
  method NextRound(ghost c: Schedule, ghost gone: nat -> bool, floor: Option<int>, forced: Option<int>, ghost p: Progress, mid: Progress, ghost was: Verdict,
                   rounds: nat, order: seq<Target>, asked: nat, ask: nat -> Answer)
    returns (q: Progress, v: Verdict)
    requires (forced.Some? ==> p.attempts == 0) && rounds <= BUSY_RETRIES && c.floor == floor && c.forced == forced
    requires order == c.orders(c.first + rounds) && |order| == c.size && asked == c.start + rounds * c.size
    requires Waiting(c, ask, gone, p, mid, was, rounds) && forall n :: Plausible(ask(n))
    ensures PassStands(floor, ask, forced, p, c.size, rounds + 1, c.start + (rounds + 1) * c.size, q, v)
    ensures RanSoFar(c, ask, p, q, v, rounds + 1)
  {
    q, v := Sweep(floor, forced, mid, order, asked, ask);
    NextStart(c.start, rounds, c.size);
    StandsMore(floor, ask, forced, p, mid, c.size, rounds, c.start + (rounds + 1) * c.size, q, v);
    RanOn(c, ask, p, mid, was, q, v, rounds);
  }

  /** The client goes away between two rounds. */
  lemma {:induction false} LeavingStands(floor: Option<int>, ask: nat -> Answer, forced: Option<int>, p: Progress, size: nat, rounds: nat,
                                         asked: nat, q: Progress, v: Verdict)
    requires PassStands(floor, ask, forced, p, size, rounds, asked, q, v) && v.GoOn?
    ensures PassStands(floor, ask, forced, p, size, rounds, asked, q, Stop(Result(q.target, q.attempts, false, ClientLeft)))
  {
    IdleSettles(floor, ask, forced, q, ClientLeft);
  }

  /** A pass that ends after its last round. */
  lemma {:induction false} RanOut(c: Schedule, ask: nat -> Answer, gone: nat -> bool, p: Progress, q: Progress, v: Verdict, rounds: nat)
    requires RanSoFar(c, ask, p, q, v, rounds) && 1 <= rounds <= BUSY_RETRIES + 1
    requires forall k: nat :: k + 1 < rounds ==> WaitedOut(c, gone, k)
    requires v.GoOn? ==> Judge(c.floor, ask, q.log).over.None?
    requires v.GoOn? ==> !v.busy || (rounds == BUSY_RETRIES + 1 && WaitedOut(c, gone, rounds - 1))
    ensures PassEnds(c, ask, gone, p, q, v, rounds)
  {
  }

  /** A pass that ends because the client left. */
  lemma {:induction false} RanAway(c: Schedule, ask: nat -> Answer, gone: nat -> bool, p: Progress, q: Progress, v: Verdict, rounds: nat, stop: Verdict)
    requires RanSoFar(c, ask, p, q, v, rounds) && 1 <= rounds <= BUSY_RETRIES + 1 && v == GoOn(true)
    requires (forall k: nat :: k + 1 < rounds ==> WaitedOut(c, gone, k)) && !WaitedOut(c, gone, rounds - 1)
    requires Judge(c.floor, ask, q.log).over.None? && stop.Stop? && stop.result.error == ClientLeft
    ensures PassEnds(c, ask, gone, p, q, stop, rounds)
  {
  }

  /** A pass that ends after its fifth round. */
  lemma {:induction false} RanAll(c: Schedule, ask: nat -> Answer, gone: nat -> bool, p: Progress, q: Progress, v: Verdict)
    requires Waiting(c, ask, gone, p, q, v, BUSY_RETRIES + 1)
    ensures PassEnds(c, ask, gone, p, q, v, BUSY_RETRIES + 1)
    ensures Stands(c.floor, ask, c.forced, p.attempts, (BUSY_RETRIES + 1) * c.size, c.start + (BUSY_RETRIES + 1) * c.size, q, v)
  {
    assert WaitedOut(c, gone, BUSY_RETRIES);
    RanOut(c, ask, gone, p, q, v, BUSY_RETRIES + 1);
  }

  /** How a round that is not the end of its pass leaves it waiting. */
  lemma {:induction false} StillWaiting(c: Schedule, ask: nat -> Answer, gone: nat -> bool, p: Progress, q: Progress, v: Verdict, rounds: nat)
    requires PassStands(c.floor, ask, c.forced, p, c.size, rounds + 1, c.start + (rounds + 1) * c.size, q, v)
    requires RanSoFar(c, ask, p, q, v, rounds + 1) && v == GoOn(true) && WaitedOut(c, gone, rounds)
    requires forall k: nat :: k < rounds ==> WaitedOut(c, gone, k)
    ensures Waiting(c, ask, gone, p, q, v, rounds + 1)
  {
  }

  lemma {:induction false} NotYetWaiting(c: Schedule, ask: nat -> Answer, gone: nat -> bool, p: Progress)
    requires Idle(c.floor, ask, c.forced, p) && Judge(c.floor, ask, p.log).next <= c.start && (c.forced.Some? ==> p.attempts == 0)
    ensures Waiting(c, ask, gone, p, p, GoOn(false), 0)
  {
  }

  lemma {:induction false} StandsIdle(floor: Option<int>, ask: nat -> Answer, forced: Option<int>, p: Progress, size: nat, rounds: nat,
                                      asked: nat, q: Progress, v: Verdict)
    requires PassStands(floor, ask, forced, p, size, rounds, asked, q, v)
    ensures v.GoOn? ==> Judge(floor, ask, q.log).Desk? && Judge(floor, ask, q.log).over.None?
  {
  }

  /** What the client's leaving makes of a round. */
  lemma {:induction false} LeavingEnds(c: Schedule, ask: nat -> Answer, gone: nat -> bool, p: Progress, q: Progress, w: Verdict, rounds: nat, v: Verdict)
    requires rounds <= BUSY_RETRIES && w == GoOn(true) && v == Stop(Result(q.target, q.attempts, false, ClientLeft))
    requires PassStands(c.floor, ask, c.forced, p, c.size, rounds + 1, c.start + (rounds + 1) * c.size, q, w)
    requires RanSoFar(c, ask, p, q, w, rounds + 1) && (forall k: nat :: k < rounds ==> WaitedOut(c, gone, k)) && !WaitedOut(c, gone, rounds)
    ensures PassStands(c.floor, ask, c.forced, p, c.size, rounds + 1, c.start + (rounds + 1) * c.size, q, v)
    ensures PassEnds(c, ask, gone, p, q, v, rounds + 1)
  {
    StandsIdle(c.floor, ask, c.forced, p, c.size, rounds + 1, c.start + (rounds + 1) * c.size, q, w);
    LeavingStands(c.floor, ask, c.forced, p, c.size, rounds + 1, c.start + (rounds + 1) * c.size, q, w);
    RanAway(c, ask, gone, p, q, w, rounds + 1, v);
  }

  /** What a round that needs no other makes of a pass. */
  lemma {:induction false} QuietEnds(c: Schedule, ask: nat -> Answer, gone: nat -> bool, p: Progress, q: Progress, w: Verdict, rounds: nat)
    requires rounds <= BUSY_RETRIES && (w.Stop? || !w.busy)
    requires PassStands(c.floor, ask, c.forced, p, c.size, rounds + 1, c.start + (rounds + 1) * c.size, q, w)
    requires RanSoFar(c, ask, p, q, w, rounds + 1) && forall k: nat :: k < rounds ==> WaitedOut(c, gone, k)
    ensures PassEnds(c, ask, gone, p, q, w, rounds + 1)
  {
    StandsIdle(c.floor, ask, c.forced, p, c.size, rounds + 1, c.start + (rounds + 1) * c.size, q, w);
    RanOut(c, ask, gone, p, q, w, rounds + 1);
  }

  /** The end of a pass after one more round, or its wait for the next. */
  method Conclude(ghost c: Schedule, ask: nat -> Answer, gone: nat -> bool, ghost p: Progress, q: Progress, w: Verdict, rounds: nat, first: nat)
    returns (v: Verdict, done: bool)
    requires first == c.first && rounds <= BUSY_RETRIES
    requires PassStands(c.floor, ask, c.forced, p, c.size, rounds + 1, c.start + (rounds + 1) * c.size, q, w)
    requires RanSoFar(c, ask, p, q, w, rounds + 1) && forall k: nat :: k < rounds ==> WaitedOut(c, gone, k)
    ensures PassStands(c.floor, ask, c.forced, p, c.size, rounds + 1, c.start + (rounds + 1) * c.size, q, v)
    ensures done ==> PassEnds(c, ask, gone, p, q, v, rounds + 1)
    ensures !done ==> Waiting(c, ask, gone, p, q, v, rounds + 1)
  {
    if w.Stop? || !w.busy {
      QuietEnds(c, ask, gone, p, q, w, rounds);
      return w, true;
    }
    if gone(first + rounds) {
      v := Stop(Result(q.target, q.attempts, false, ClientLeft));
      LeavingEnds(c, ask, gone, p, q, w, rounds, v);
      return v, true;
    }
    StillWaiting(c, ask, gone, p, q, w, rounds);
    return w, false;
  }

  /** A pass between two rounds, with the answers it has had. */
  ghost predicate Paused(c: Schedule, ask: nat -> Answer, gone: nat -> bool, p: Progress, q: Progress, v: Verdict, asked: nat, rounds: nat) {
    Waiting(c, ask, gone, p, q, v, rounds) && asked == c.start + rounds * c.size
  }

  /** A pass that is over. */
  ghost predicate PassDone(c: Schedule, ask: nat -> Answer, gone: nat -> bool, p: Progress, q: Progress, v: Verdict, asked: nat, rounds: nat) {
    && Stands(c.floor, ask, c.forced, p.attempts, (BUSY_RETRIES + 1) * c.size, asked, q, v)
    && PassEnds(c, ask, gone, p, q, v, rounds) && asked == c.start + rounds * c.size
  }

  lemma {:induction false} PausedAtFirst(c: Schedule, ask: nat -> Answer, gone: nat -> bool, p: Progress)
    requires Idle(c.floor, ask, c.forced, p) && Judge(c.floor, ask, p.log).next <= c.start && (c.forced.Some? ==> p.attempts == 0)
    ensures Paused(c, ask, gone, p, p, GoOn(false), c.start, 0)
  {
    NotYetWaiting(c, ask, gone, p);
  }

  lemma {:induction false} DoneAtLast(c: Schedule, ask: nat -> Answer, gone: nat -> bool, p: Progress, q: Progress, v: Verdict, asked: nat)
    requires Paused(c, ask, gone, p, q, v, asked, BUSY_RETRIES + 1)
    ensures PassDone(c, ask, gone, p, q, v, asked, BUSY_RETRIES + 1)
  {
    RanAll(c, ask, gone, p, q, v);
  }

  /** One more round, and whether it was the last. */
  method RoundAndWait(ghost c: Schedule, floor: Option<int>, forced: Option<int>, ghost p: Progress, mid: Progress, ghost was: Verdict, rounds: nat,
                      order: seq<Target>, before: nat, first: nat, ask: nat -> Answer, gone: nat -> bool)
    returns (q: Progress, v: Verdict, asked: nat, done: bool)
    requires (forced.Some? ==> p.attempts == 0) && rounds <= BUSY_RETRIES && c.floor == floor && c.forced == forced && first == c.first
    requires order == c.orders(c.first + rounds) && |order| == c.size
    requires Paused(c, ask, gone, p, mid, was, before, rounds) && forall n :: Plausible(ask(n))
    ensures done ==> PassDone(c, ask, gone, p, q, v, asked, rounds + 1)
    ensures !done ==> Paused(c, ask, gone, p, q, v, asked, rounds + 1)
  {
    q, v := NextRound(c, gone, floor, forced, p, mid, was, rounds, order, before, ask);
    v, done := Conclude(c, ask, gone, p, q, v, rounds, first);
    asked := before + |order|;
    NextStart(c.start, rounds, c.size);
  }

  /** One pass: up to five rounds, with a pause after one that met a busy target. */
  method Pass(floor: Option<int>, forced: Option<int>, p: Progress, orders: nat -> seq<Target>, first: nat, ghost size: nat,
              start: nat, ask: nat -> Answer, gone: nat -> bool)
    returns (q: Progress, v: Verdict, asked: nat, ghost rounds: nat)
    requires Idle(floor, ask, forced, p) && (forced.Some? ==> p.attempts == 0)
    requires Judge(floor, ask, p.log).next <= start
    requires (forall n :: Plausible(ask(n))) && forall n :: |orders(n)| == size
    ensures PassDone(Schedule(floor, forced, orders, first, start, size), ask, gone, p, q, v, asked, rounds)
  {
    q, v, asked, rounds := p, GoOn(false), start, BUSY_RETRIES + 1;
    ghost var c := Schedule(floor, forced, orders, first, start, size);
    PausedAtFirst(c, ask, gone, p);
    var done;
    for retry := 0 to BUSY_RETRIES + 1
      invariant rounds == BUSY_RETRIES + 1 && Paused(c, ask, gone, p, q, v, asked, retry)
    {
      q, v, asked, done := RoundAndWait(c, floor, forced, p, q, v, retry, orders(first + retry), asked, first, ask, gone);
      if done {
        rounds := retry + 1;
        return;
      }
    }
    DoneAtLast(c, ask, gone, p, q, v, asked);
  }

  // ---------- the request ----------

  /** The first pass of a request, and the forced one of a request that only open tiers turned away. */
  function FirstPass(floor: Option<int>, orders: nat -> seq<Target>, size: nat): Schedule {
    Schedule(floor, None, orders, 0, 0, size)
  }

  function LastResort(floor: Option<int>, tier: int, orders: nat -> seq<Target>, size: nat): Schedule {
    Schedule(floor, Some(tier), orders, BUSY_RETRIES + 1, size, size)
  }

  /**
   What a request looked at. In its first pass, the eligible targets of the try-orders, with a further round after each that
   met a busy target. If that made no call, met no busy target and was turned away by an open tier, then also, in a
   pass forced on the tier that opens soonest, that tier's eligible targets in the same way, up to its one call. A request that no call ended fails
   with the client's leaving exactly when it left after a round that met a busy target.
   */
  ghost predicate RequestTold(floor: Option<int>, orders: nat -> seq<Target>, size: nat, ask: nat -> Answer, gone: nat -> bool,
                              log: seq<Event>, r: Result, rounds: nat) {
    var d := Judge(floor, ask, log);
    d.Desk? &&
    match d.forcing
    case None =>
      var c := FirstPass(floor, orders, size);
      && PassTold(c, ask, gone, [], Looks(log), d.over.Some?, rounds)
      && (d.over.None? ==> (r.error == ClientLeft <==> LeftWaiting(c, ask, gone, rounds)))
      && (d.over.None? && r.error != ClientLeft ==> d.calls > 0 || d.met.busy || d.open == map[])
    case Some(tier) =>
      var c, base := LastResort(floor, tier, orders, size), Eligible(floor, None, orders(0));
      && base <= Looks(log) && !BusyRound(FirstPass(floor, orders, size), 0, ask)
      && (d.calls == 0 ==>
            && d.over.None? && PassTold(c, ask, gone, base, Looks(log), false, rounds)
            && (r.error == ClientLeft <==> LeftWaiting(c, ask, gone, rounds)))
  }

  /**
   The first try-order, as far as a log went through it: whole unless a call
   ended the request on the way.
   */
  ghost predicate TriedInOrder(floor: Option<int>, ask: nat -> Answer, log: seq<Event>, order: seq<Target>) {
    var d := Judge(floor, ask, log);
    && (Looks(log) <= Eligible(floor, None, order) || Eligible(floor, None, order) <= Looks(log))
    && (d.Desk? && d.over.None? ==> Eligible(floor, None, order) <= Looks(log))
  }

  lemma {:induction false} FirstOrderFirst(c: Schedule, rounds: nat)
    requires rounds > 0
    ensures Eligible(c.floor, c.forced, c.orders(c.first)) <= AllLooks(c, rounds)
    ensures AllLooks(c, 1) == Eligible(c.floor, c.forced, c.orders(c.first))
  {
    assert AllLooks(c, 1) == AllLooks(c, 0) + Eligible(c.floor, c.forced, c.orders(c.first));
    if rounds > 1 {
      FirstOrderFirst(c, rounds - 1);
    }
  }

  lemma {:induction false} ToldIsTried(floor: Option<int>, orders: nat -> seq<Target>, size: nat, ask: nat -> Answer, gone: nat -> bool,
                                       log: seq<Event>, r: Result, rounds: nat)
    requires RequestTold(floor, orders, size, ask, gone, log, r, rounds)
    ensures TriedInOrder(floor, ask, log, orders(0))
  {
    if Judge(floor, ask, log).forcing.None? {
      var c := FirstPass(floor, orders, size);
      FirstOrderFirst(c, rounds);
      if rounds > 1 {
        FirstOrderFirst(c, rounds - 1);
      }
      assert [] + AllLooks(c, rounds) == AllLooks(c, rounds) && [] + AllLooks(c, rounds - 1) == AllLooks(c, rounds - 1);
    }
  }

  lemma {:induction false} NotForcing(floor: Option<int>, ask: nat -> Answer, log: seq<Event>)
    requires Judge(floor, ask, log).Desk? && Judge(floor, ask, log).forcing.Some?
    ensures exists i :: 0 <= i < |log| && log[i].ForcedPass?
    decreases |log|
  {
    if log != [] {
      var n := |log| - 1;
      JudgedAt(floor, ask, log, n);
      if !log[n].ForcedPass? {
        ForcingOnlyByPass(floor, ask, Judge(floor, ask, log[..n]), log[n]);
        NotForcing(floor, ask, log[..n]);
        var i :| 0 <= i < n && log[..n][i].ForcedPass?;
        assert log[i].ForcedPass?;
      }
    }
  }

  lemma {:induction false} ForcingOnlyByPass(floor: Option<int>, ask: nat -> Answer, d: Desk, e: Event)
    requires d.Desk? && Rule(floor, ask, d, e).Desk? && !e.ForcedPass?
    ensures Rule(floor, ask, d, e).forcing == d.forcing
  {
  }

  lemma {:induction false} CallsNone(log: seq<Event>)
    requires forall i :: 0 <= i < |log| ==> !log[i].Called?
    ensures Calls(log) == 0
    decreases |log|
  {
    if log != [] {
      CallsNone(log[..|log| - 1]);
    }
  }

  /**
   The converse of ForcedPassMeans: a request that made no call, met no busy target and was turned away by an open tier does not fail before a pass
   was forced.
   */
  lemma {:induction false} LastResortIsTaken(floor: Option<int>, orders: nat -> seq<Target>, size: nat, ask: nat -> Answer, gone: nat -> bool,
                                             log: seq<Event>, r: Result, rounds: nat)
    requires Settled(floor, ask, log, r) && RequestTold(floor, orders, size, ask, gone, log, r, rounds) && r.error != ClientLeft
    requires (forall i :: 0 <= i < |log| ==> !log[i].Called?) && !Saw(ask, log, Busy)
    ensures OpenTiers(ask, log) == map[] || exists i :: 0 <= i < |log| && log[i].ForcedPass?
  {
    CallsNone(log);
    CallsMade(floor, ask, log);
    NotedExactly(floor, ask, log, Busy);
    NotOver(floor, ask, log);
    if Judge(floor, ask, log).forcing.None? {
      OpenTiersKnown(floor, ask, log);
    } else {
      NotForcing(floor, ask, log);
    }
  }

  lemma {:induction false} NothingWalked(open: map<int, int>, walk: seq<int>)
    requires Walks(open, walk) && walk == []
    ensures open == map[]
  {
    forall t ensures t !in open {
      assert t in open ==> t in walk;
    }
  }

  /** The end of a request in its first pass. */
  lemma {:induction false} FirstPassTold(floor: Option<int>, orders: nat -> seq<Target>, size: nat, ask: nat -> Answer, gone: nat -> bool,
                                         q: Progress, v: Verdict, r: Result, rounds: nat)
    requires PassEnds(FirstPass(floor, orders, size), ask, gone, FIRST, q, v, rounds)
    requires v.Stop? ==> Settled(floor, ask, q.log, v.result) && r == v.result
    requires v.GoOn? ==> Idle(floor, ask, None, q) && r.error == Exhausted(q.met) && (q.attempts > 0 || q.met.busy || q.openUntil == map[])
    ensures RequestTold(floor, orders, size, ask, gone, q.log, r, rounds)
  {
    assert Looks(FIRST.log) == [];
  }

  /** A first pass that met no busy target is one round. */
  lemma {:induction false} OneRoundOnly(floor: Option<int>, orders: nat -> seq<Target>, size: nat, ask: nat -> Answer, gone: nat -> bool, q: Progress, v: Verdict, rounds: nat)
    requires PassEnds(FirstPass(floor, orders, size), ask, gone, FIRST, q, v, rounds) && v.GoOn? && !q.met.busy
    ensures rounds == 1 && Looks(q.log) == Eligible(floor, None, orders(0)) && !BusyRound(FirstPass(floor, orders, size), 0, ask)
  {
    var c := FirstPass(floor, orders, size);
    FirstOrderFirst(c, 1);
    assert Looks(FIRST.log) == [];
    assert [] + AllLooks(c, 1) == AllLooks(c, 1);
  }

  /** The end of a request in its forced pass. */
  lemma {:induction false} LastResortTold(floor: Option<int>, tier: int, orders: nat -> seq<Target>, size: nat, ask: nat -> Answer, gone: nat -> bool,
                                          p: Progress, q: Progress, v: Verdict, r: Result, rounds: nat)
    requires PassEnds(LastResort(floor, tier, orders, size), ask, gone, p, q, v, rounds)
    requires Looks(p.log) == Eligible(floor, None, orders(0)) && !BusyRound(FirstPass(floor, orders, size), 0, ask)
    requires v.Stop? ==> Settled(floor, ask, q.log, v.result) && r == v.result && (q.attempts == 0 ==> Judge(floor, ask, q.log).over.None?)
    requires v.GoOn? ==> Idle(floor, ask, Some(tier), q) && r.error == Exhausted(q.met)
    ensures RequestTold(floor, orders, size, ask, gone, q.log, r, rounds)
  {
  }

  /** A request is over only by a call. */
  lemma {:induction false} OverByCall(floor: Option<int>, ask: nat -> Answer, log: seq<Event>)
    requires Judge(floor, ask, log).Desk? && Judge(floor, ask, log).over.Some?
    ensures Judge(floor, ask, log).calls > 0
    decreases |log|
  {
    if log != [] {
      var n := |log| - 1;
      JudgedAt(floor, ask, log, n);
      if log[n].Called? {
        assert Judge(floor, ask, log).calls > 0;
      } else {
        OverOnlyByCalls(floor, ask, Judge(floor, ask, log[..n]), log[n]);
        OverByCall(floor, ask, log[..n]);
      }
    }
  }

  /**
   executePlan. Whatever the oracles answer, the rule book is kept to the end,
   exactly the targets that are due are looked at in order, and at most five calls per target are made.
   */
  method ExecutePlan(floor: Option<int>, plan: multiset<Target>, orders: nat -> seq<Target>, ask: nat -> Answer,
                     gone: nat -> bool, walk: map<int, int> -> seq<int>)
    returns (r: Result, log: seq<Event>, ghost rounds: nat)
    requires forall n :: multiset(orders(n)) == plan
    requires forall n :: Plausible(ask(n))
    requires forall m :: Walks(m, walk(m))
    ensures Settled(floor, ask, log, r)
    ensures Judge(floor, ask, log).calls <= 5 * |plan|
    ensures Judge(floor, ask, log).forcing.Some? ==> Judge(floor, ask, log).calls <= 1
    ensures RequestTold(floor, orders, |plan|, ask, gone, log, r, rounds)
    ensures TriedInOrder(floor, ask, log, orders(0))
  {
    PermutationSize(plan, orders);
    var p, v, asked;
    p, v, asked, rounds := Pass(floor, None, FIRST, orders, 0, |plan|, 0, ask, gone);
    if v.Stop? {
      ForcedOnce(floor, ask, p.log);
      FirstPassTold(floor, orders, |plan|, ask, gone, p, v, v.result, rounds);
      ToldIsTried(floor, orders, |plan|, ask, gone, p.log, v.result, rounds);
      return v.result, p.log, rounds;
    }
    if !p.met.busy && p.attempts == 0 {
      var tier, ok := SoonestOpen(p.openUntil, walk(p.openUntil));
      if ok {
        OneRoundOnly(floor, orders, |plan|, ask, gone, p, v, rounds);
        r, log, rounds := ForcePass(floor, p, tier, orders, |plan|, asked, ask, gone);
        ToldIsTried(floor, orders, |plan|, ask, gone, log, r, rounds);
        return;
      }
      NothingWalked(p.openUntil, walk(p.openUntil));
    }
    IdleSettles(floor, ask, None, p, Exhausted(p.met));
    r, log := Result(p.target, p.attempts, false, Exhausted(p.met)), p.log;
    FirstPassTold(floor, orders, |plan|, ask, gone, p, v, r, rounds);
    ToldIsTried(floor, orders, |plan|, ask, gone, log, r, rounds);
  }

  /** The last-resort pass: one probe forced on the tier that opens soonest. */
  method ForcePass(floor: Option<int>, p: Progress, tier: int, orders: nat -> seq<Target>, ghost size: nat, start: nat,
                   ask: nat -> Answer, gone: nat -> bool)
    returns (r: Result, log: seq<Event>, ghost rounds: nat)
    requires Idle(floor, ask, None, p) && p.attempts == 0 && !p.met.busy && IsSoonest(p.openUntil, tier)
    requires Judge(floor, ask, p.log).next <= start == size
    requires Looks(p.log) == Eligible(floor, None, orders(0)) && !BusyRound(FirstPass(floor, orders, size), 0, ask)
    requires (forall n :: Plausible(ask(n))) && forall n :: |orders(n)| == size
    ensures Settled(floor, ask, log, r)
    ensures Judge(floor, ask, log).calls <= (BUSY_RETRIES + 1) * size && Judge(floor, ask, log).calls <= 1
    ensures Judge(floor, ask, log).forcing.Some? && RequestTold(floor, orders, size, ask, gone, log, r, rounds)
  {
    Judged(floor, ask, p.log, ForcedPass(tier));
    LooksGrow(p.log, ForcedPass(tier));
    var q := p.(log := p.log + [ForcedPass(tier)]);
    var v, asked;
    ghost var before := q;
    q, v, asked, rounds := Pass(floor, Some(tier), q, orders, BUSY_RETRIES + 1, size, start, ask, gone);
    log := q.log;
    if v.Stop? {
      r := v.result;
      if Judge(floor, ask, log).over.Some? {
        OverByCall(floor, ask, log);
      }
    } else {
      IdleSettles(floor, ask, Some(tier), q, Exhausted(q.met));
      r := Result(q.target, q.attempts, false, Exhausted(q.met));
    }
    LastResortTold(floor, tier, orders, size, ask, gone, before, q, v, r, rounds);
  }

  lemma {:induction false} PermutationSize(plan: multiset<Target>, orders: nat -> seq<Target>)
    requires forall n :: multiset(orders(n)) == plan
    ensures forall n :: |orders(n)| == |plan|
  {
    forall n
      ensures |orders(n)| == |plan|
    {
      assert |multiset(orders(n))| == |orders(n)|;
    }
  }
}
