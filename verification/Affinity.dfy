/**
 Model of internal/affinity/affinity.go and internal/httpapi/session_affinity.go:
 the tier a session was last served by, kept by each replica and shared
 through Redis, and never moved back while it lasts.

 A pin is kept in cells: one in each replica's memory and one in Redis. Times
 are clock readings that all cells share; `wall` is the reading the retry
 delay after a Redis error runs on. How a Redis call went is an input.
 */
module Affinity {
  import opened Common

  const RETRY_AFTER := 5_000
  const SWEEP_AT := 1024
  const SWEEP_EVERY := 60_000

  datatype Key = Key(alias: string, session: string)

  datatype Pin = Held(tier: int, until: int)

  type Pins = map<Key, Pin>

  function CellAt(pins: Pins, k: Key): Option<Pin> {
    if k in pins then Some(pins[k]) else None
  }

  /** The tier a cell shows. */
  function Live(cell: Option<Pin>, now: int): Option<int> {
    if cell.Some? && now < cell.value.until then Some(cell.value.tier) else None
  }

  /** A cell after a pin to tier for ttl: never to an earlier tier than it shows. */
  function Raised(cell: Option<Pin>, tier: int, ttl: int, now: int): Pin {
    var live := Live(cell, now);
    Held(if live.Some? && live.value >= tier then live.value else tier, now + ttl)
  }

  /** The later of two tiers. */
  function Later(a: Option<int>, b: Option<int>): Option<int> {
    match (a, b)
    case (None, _) => b
    case (_, None) => a
    case (Some(x), Some(y)) => if y > x then b else a
  }

  /** A cell left alone, or dropped when it showed nothing any more. */
  predicate SweptAtMost(before: Option<Pin>, after: Option<Pin>, now: int) {
    after == before || (after.None? && Live(before, now).None?)
  }

  /** Which is not seen, then or later. */
  lemma {:induction false} SweepingIsNotSeen(before: Option<Pin>, after: Option<Pin>, now: int, later: int)
    requires SweptAtMost(before, after, now) && now <= later
    ensures Live(after, later) == Live(before, later)
  {
  }

  /** How a call to Redis went: answered, or not, and then perhaps carried out all the same; gone: the caller had left. */
  datatype Reach = Answered | Unanswered(done: bool, gone: bool)

  /** Until when Redis is left alone after a call. */
  function DownTill(before: int, reach: Reach, wall: int): int {
    if reach.Answered? then 0 else if reach.gone then before else wall + RETRY_AFTER
  }

  /** Redis. */
  class Shared {
    var pins: Pins

    method Get(k: Key, now: int) returns (r: Option<int>)
      ensures r == Live(CellAt(pins, k), now)
    {
      r := if k in pins && now < pins[k].until then Some(pins[k].tier) else None;
    }

    /** The script: raises the pin unless it holds a later tier, renews it, and tells the tier held before. */
    method RunPinScript(k: Key, tier: int, ttl: int, now: int) returns (prev: int)
      modifies this
      ensures pins == old(pins)[k := Raised(old(CellAt(pins, k)), tier, ttl, now)]
      ensures prev == (match old(Live(CellAt(pins, k), now)) case None => -1 case Some(t) => t)
    {
      var cur := Get(k, now);
      if cur.Some? && cur.value >= tier {
        pins := pins[k := pins[k].(until := now + ttl)];
        return cur.value;
      }
      pins := pins[k := Held(tier, now + ttl)];
      prev := if cur.Some? then cur.value else -1;
    }

    method Del(k: Key)
      modifies this
      ensures pins == old(pins) - {k}
    {
      pins := pins - {k};
    }
  }

  class Store {
    const shared: Shared
    const sharing: bool
    var local: Pins
    var nextSweep: int
    var remoteDownTill: int

    constructor (s: Shared, on: bool)
      ensures shared == s && sharing == on && local == map[] && remoteDownTill == 0
    {
      shared, sharing := s, on;
      local, nextSweep, remoteDownTill := map[], 0, 0;
    }

    predicate UsesRemote(wall: int)
      reads this
    {
      sharing && wall > remoteDownTill
    }

    /** What a Redis call does to the retry delay. */
    method Noted(reach: Reach, wall: int)
      modifies this`remoteDownTill
      ensures remoteDownTill == DownTill(old(remoteDownTill), reach, wall)
      ensures reach.Answered? ==> forall t :: UsesRemote(t) <==> sharing && t > 0
      ensures reach.Unanswered? && !reach.gone ==> forall t :: UsesRemote(t) <==> sharing && t > wall + 5_000
      ensures reach.Unanswered? && reach.gone ==> remoteDownTill == old(remoteDownTill)
    {
      if reach.Answered? {
        remoteDownTill := 0;
      } else if !reach.gone {
        remoteDownTill := wall + RETRY_AFTER;
      }
    }

    method LocalPinned(k: Key, now: int) returns (r: Option<int>)
      ensures r == Live(CellAt(local, k), now)
    {
      if k !in local || !(now < local[k].until) {
        return None;
      }
      r := Some(local[k].tier);
    }

    /** Raises this replica's cell; a sweep on the way drops only pins that show nothing any more. */
    method LocalPin(k: Key, tier: int, ttl: int, now: int) returns (moved: bool)
      modifies this`local, this`nextSweep
      ensures CellAt(local, k) == Some(Raised(old(CellAt(local, k)), tier, ttl, now))
      ensures forall other :: other != k ==> SweptAtMost(CellAt(old(local), other), CellAt(local, other), now)
      ensures var swept := |old(local)| >= 1024 && old(nextSweep) <= now;
        && nextSweep == (if swept then now + 60_000 else old(nextSweep))
        && (swept ==> forall o <- local :: o == k || now < local[o].until)
        && (!swept ==> local == old(local)[k := Raised(old(CellAt(local, k)), tier, ttl, now)])
      ensures moved <==> old(Live(CellAt(local, k), now)) == None || old(Live(CellAt(local, k), now)).value < tier
    {
      if |local| >= SWEEP_AT && nextSweep <= now {
        nextSweep := now + SWEEP_EVERY;
        local := map o | o in local && now < local[o].until :: local[o];
      }
      var kept := tier;
      if k in local && now < local[k].until && local[k].tier >= tier {
        kept := local[k].tier;
        moved := false;
      } else {
        moved := true;
      }
      local := local[k := Held(kept, now + ttl)];
    }

    /** Pinned: the later of this replica's tier and, if Redis answers, the shared one. */
    method Pinned(k: Key, now: int, wall: int, reach: Reach) returns (r: Option<int>)
      modifies this`remoteDownTill
      ensures local == old(local)
      ensures remoteDownTill == if old(UsesRemote(wall)) then DownTill(old(remoteDownTill), reach, wall) else old(remoteDownTill)
      ensures r == Later(
        Live(CellAt(local, k), now),
        if old(UsesRemote(wall)) && reach.Answered? then Live(CellAt(shared.pins, k), now) else None)
    {
      r := LocalPinned(k, now);
      if UsesRemote(wall) {
        Noted(reach, wall);
        if reach.Answered? {
          var rt := shared.Get(k, now);
          if rt.Some? && (r.None? || rt.value > r.value) {
            r := rt;
          }
        }
      }
    }

    /** Pin: raises this replica's cell and, unless Redis is not asked or does not carry it out, the shared one. */
    method Pin(k: Key, tier: int, ttl: int, now: int, wall: int, reach: Reach) returns (moved: bool)
      modifies this, shared
      ensures CellAt(local, k) == Some(Raised(old(CellAt(local, k)), tier, ttl, now))
      ensures forall other :: other != k ==> SweptAtMost(CellAt(old(local), other), CellAt(local, other), now)
      ensures var carried := old(UsesRemote(wall)) && (reach.Answered? || reach.done);
        shared.pins == if carried then old(shared.pins)[k := Raised(old(CellAt(shared.pins, k)), tier, ttl, now)] else old(shared.pins)
      ensures remoteDownTill == if old(UsesRemote(wall)) then DownTill(old(remoteDownTill), reach, wall) else old(remoteDownTill)
      ensures moved <==>
              var held := if old(UsesRemote(wall)) && reach.Answered? then old(Live(CellAt(shared.pins, k), now)) else old(Live(CellAt(local, k), now));
              (if held.Some? then held.value else if old(UsesRemote(wall)) && reach.Answered? then -1 else tier - 1) < tier
    {
      moved := LocalPin(k, tier, ttl, now);
      if UsesRemote(wall) {
        Noted(reach, wall);
        if reach.Answered? {
          var prev := shared.RunPinScript(k, tier, ttl, now);
          moved := prev < tier;
        } else if reach.done {
          var _ := shared.RunPinScript(k, tier, ttl, now);
        }
      }
    }

    method Forget(k: Key, wall: int, reach: Reach)
      modifies this, shared
      ensures local == old(local) - {k}
      ensures remoteDownTill == if old(UsesRemote(wall)) then DownTill(old(remoteDownTill), reach, wall) else old(remoteDownTill)
      ensures shared.pins == if old(UsesRemote(wall)) && (reach.Answered? || reach.done) then old(shared.pins) - {k} else old(shared.pins)
    {
      local := local - {k};
      if UsesRemote(wall) {
        Noted(reach, wall);
        if reach.Answered? || reach.done {
          shared.Del(k);
        }
      }
    }
  }

  // ---------- the session of a request ----------

  /** The parts of a plan that pins depend on: the tier numbers of its targets, tier by tier. */
  datatype Plan = Plan(alias: string, sticky: bool, ttl: int, tiers: seq<seq<int>>)

  ghost predicate Reaches(plan: Plan, floor: int) {
    exists i, j :: 0 <= i < |plan.tiers| && 0 <= j < |plan.tiers[i]| && plan.tiers[i][j] >= floor
  }

  ghost predicate TierReaches(tier: seq<int>, floor: int) {
    exists j :: 0 <= j < |tier| && tier[j] >= floor
  }

  method TierHas(tier: seq<int>, floor: int) returns (r: bool)
    ensures r <==> TierReaches(tier, floor)
  {
    for j := 0 to |tier|
      invariant forall h :: 0 <= h < j ==> tier[h] < floor
    {
      if tier[j] >= floor {
        return true;
      }
    }
    return false;
  }

  method PlanReaches(plan: Plan, floor: int) returns (r: bool)
    ensures r <==> Reaches(plan, floor)
  {
    for i := 0 to |plan.tiers|
      invariant forall h :: 0 <= h < i ==> !TierReaches(plan.tiers[h], floor)
    {
      var has := TierHas(plan.tiers[i], floor);
      if has {
        return true;
      }
    }
    return false;
  }

  /** sessionFloor: the pinned tier if the plan still reaches it; a pin out of reach is forgotten. */
  method SessionFloor(store: Store, plan: Plan, session: string, now: int, wall: int, asked: Reach, told: Reach) returns (floor: Option<int>)
    modifies store, store.shared
    ensures !plan.sticky || session == "" ==> floor == None && store.local == old(store.local) && store.shared.pins == old(store.shared.pins)
    ensures plan.sticky && session != "" ==>
      var k := Key(plan.alias, session);
      var pinned := Later(
        old(Live(CellAt(store.local, k), now)),
        if old(store.UsesRemote(wall)) && asked.Answered? then old(Live(CellAt(store.shared.pins, k), now)) else None);
      if pinned.Some? && Reaches(plan, pinned.value) then floor == pinned && store.local == old(store.local) && store.shared.pins == old(store.shared.pins)
      else
        && floor == None
        && store.local == (if pinned.Some? then old(store.local) - {k} else old(store.local))
        && (pinned.None? ==> store.shared.pins == old(store.shared.pins))
        && (pinned.Some? && old(store.UsesRemote(wall)) && wall > 0 && asked.Answered? && told.Answered? ==>
              store.shared.pins == old(store.shared.pins) - {k})
  {
    if !plan.sticky || session == "" {
      return None;
    }
    var k := Key(plan.alias, session);
    floor := store.Pinned(k, now, wall, asked);
    if floor.None? {
      return None;
    }
    var reaches := PlanReaches(plan, floor.value);
    if reaches {
      return floor;
    }
    store.Forget(k, wall, told);
    return None;
  }

  /** pinSession: a session served by a backup tier is pinned to it; the first tier pins nothing. */
  method PinSession(store: Store, plan: Plan, session: string, tier: int, now: int, wall: int, reach: Reach)
    modifies store, store.shared
    ensures var k := Key(plan.alias, session);
      var pins := plan.sticky && session != "" && |plan.tiers| > 0 && |plan.tiers[0]| > 0 && tier > plan.tiers[0][0];
      if pins then
        && CellAt(store.local, k) == Some(Raised(old(CellAt(store.local, k)), tier, plan.ttl, now))
        && (old(store.UsesRemote(wall)) && reach.Answered? ==>
              CellAt(store.shared.pins, k) == Some(Raised(old(CellAt(store.shared.pins, k)), tier, plan.ttl, now)))
      else store.local == old(store.local) && store.shared.pins == old(store.shared.pins)
  {
    if !plan.sticky || session == "" || |plan.tiers| == 0 || |plan.tiers[0]| == 0 {
      return;
    }
    if tier <= plan.tiers[0][0] {
      return;
    }
    var _ := store.Pin(Key(plan.alias, session), tier, plan.ttl, now, wall, reach);
  }

  // ---------- one session over every run ----------

  /** The cells that may hold one session's pin: cell 0 is Redis, the others are replicas. */
  datatype World = World(cells: seq<Option<Pin>>, clock: int)

  /** Pin raises its replica's cell and then perhaps cell 0; Forget drops likewise; a sweep drops an expired pin. */
  datatype Event =
    | Tick(ms: nat)
    | Raise(cell: nat, tier: int, ttl: int)
    | Drop(cell: nat)
    | Sweep(cell: nat)

  predicate Enabled(w: World, e: Event) {
    match e
    case Tick(_) => true
    case Raise(c, _, _) => c < |w.cells|
    case Drop(c) => c < |w.cells|
    case Sweep(c) => c < |w.cells| && Live(w.cells[c], w.clock).None?
  }

  function Step(w: World, e: Event): World
    requires Enabled(w, e)
  {
    match e
    case Tick(ms) => w.(clock := w.clock + ms)
    case Raise(c, tier, ttl) => w.(cells := w.cells[c := Some(Raised(w.cells[c], tier, ttl, w.clock))])
    case Drop(c) => w.(cells := w.cells[c := None])
    case Sweep(c) => w.(cells := w.cells[c := None])
  }

  ghost predicate IsRun(ws: seq<World>, es: seq<Event>) {
    && |ws| == |es| + 1
    && forall i :: 0 <= i < |es| ==> Enabled(ws[i], es[i]) && ws[i + 1] == Step(ws[i], es[i])
  }

  lemma {:induction false} ClockOnlyAdvances(ws: seq<World>, es: seq<Event>, i: nat, n: nat)
    requires IsRun(ws, es) && i <= n < |ws|
    ensures ws[i].clock <= ws[n].clock && |ws[i].cells| == |ws[n].cells|
    decreases n
  {
    if i < n {
      ClockOnlyAdvances(ws, es, i, n - 1);
      assert Enabled(ws[n - 1], es[n - 1]);
    }
  }

  /** Event e pins cell c in a way that has not expired by `now`, or does not pin it; and it does not drop it. */
  predicate Lasts(w: World, e: Event, c: nat, now: int) {
    && (e.Raise? && e.cell == c ==> w.clock + e.ttl > now)
    && !(e.Drop? && e.cell == c)
  }

  /** From event i on, cell c is not dropped and none of its pins expires before the last world. */
  ghost predicate Lasting(ws: seq<World>, es: seq<Event>, c: nat, i: nat, n: nat, now: int)
    requires IsRun(ws, es) && i <= n < |ws|
  {
    forall j :: i <= j < n ==> Lasts(ws[j], es[j], c, now)
  }

  predicate Holds(cell: Option<Pin>, tier: int, now: int) {
    cell.Some? && cell.value.until > now && cell.value.tier >= tier
  }

  lemma {:induction false} StepHolds(w: World, e: Event, c: nat, tier: int, now: int)
    requires Enabled(w, e) && c < |w.cells| && w.clock <= now
    requires Lasts(w, e, c, now)
    requires Holds(w.cells[c], tier, now) || (e.Raise? && e.cell == c && e.tier >= tier)
    ensures Holds(Step(w, e).cells[c], tier, now)
  {
  }

  lemma {:induction false} CellHolds(ws: seq<World>, es: seq<Event>, c: nat, i: nat, m: nat, n: nat)
    requires IsRun(ws, es) && i < m <= n < |ws|
    requires es[i].Raise? && es[i].cell == c
    requires Lasting(ws, es, c, i, n, ws[n].clock)
    ensures c < |ws[m].cells| && Holds(ws[m].cells[c], es[i].tier, ws[n].clock)
    decreases m
  {
    ClockOnlyAdvances(ws, es, m - 1, n);
    ClockOnlyAdvances(ws, es, i, m - 1);
    assert Enabled(ws[i], es[i]) && Enabled(ws[m - 1], es[m - 1]);
    assert Lasts(ws[m - 1], es[m - 1], c, ws[n].clock);
    if i < m - 1 {
      CellHolds(ws, es, c, i, m - 1, n);
    }
    StepHolds(ws[m - 1], es[m - 1], c, es[i].tier, ws[n].clock);
  }

  /** Cell c shows at least every tier it was pinned to, as long as its pins last and nobody forgets it. */
  lemma {:induction false} PinsNeverMoveBack(ws: seq<World>, es: seq<Event>, c: nat, i: nat, n: nat)
    requires IsRun(ws, es) && i < n < |ws|
    requires es[i].Raise? && es[i].cell == c
    requires Lasting(ws, es, c, i, n, ws[n].clock)
    ensures c < |ws[n].cells|
    ensures Live(ws[n].cells[c], ws[n].clock).Some? && Live(ws[n].cells[c], ws[n].clock).value >= es[i].tier
  {
    CellHolds(ws, es, c, i, n, n);
  }

  /** Event j set cell c to show this tier. */
  ghost predicate Names(es: seq<Event>, j: nat, c: nat, tier: int) {
    j < |es| && es[j].Raise? && es[j].cell == c && es[j].tier == tier
  }

  /** Event j set or renewed cell c for as long as this. */
  ghost predicate Renews(ws: seq<World>, es: seq<Event>, j: nat, c: nat, until: int) {
    j < |es| < |ws| && es[j].Raise? && es[j].cell == c && ws[j].clock + es[j].ttl == until
  }

  lemma {:induction false} CellFromRaises(ws: seq<World>, es: seq<Event>, c: nat, n: nat) returns (j: nat, k: nat)
    requires IsRun(ws, es) && n < |ws| && c < |ws[n].cells|
    requires |ws[0].cells| == |ws[n].cells| && ws[0].cells[c].None? && ws[n].cells[c].Some?
    ensures j <= k < n && Names(es, j, c, ws[n].cells[c].value.tier) && Renews(ws, es, k, c, ws[n].cells[c].value.until)
    decreases n
  {
    assert n > 0;
    assert Enabled(ws[n - 1], es[n - 1]) && ws[n] == Step(ws[n - 1], es[n - 1]);
    ClockOnlyAdvances(ws, es, n - 1, n);
    var e := es[n - 1];
    if e.Raise? && e.cell == c {
      var live := Live(ws[n - 1].cells[c], ws[n - 1].clock);
      k := n - 1;
      if live.Some? && live.value >= e.tier {
        var was;
        j, was := CellFromRaises(ws, es, c, n - 1);
      } else {
        j := n - 1;
      }
    } else {
      j, k := CellFromRaises(ws, es, c, n - 1);
    }
  }

  /** And nothing else: a cell that held no pin at first shows only a tier it was pinned to, while a pin of its own, that one or a later one, lasts. */
  lemma {:induction false} ShownWasPinned(ws: seq<World>, es: seq<Event>, c: nat, n: nat) returns (j: nat, k: nat)
    requires IsRun(ws, es) && n < |ws| && c < |ws[n].cells|
    requires |ws[0].cells| == |ws[n].cells| && ws[0].cells[c].None? && Live(ws[n].cells[c], ws[n].clock).Some?
    ensures j <= k < n && Names(es, j, c, Live(ws[n].cells[c], ws[n].clock).value)
    ensures es[k].Raise? && es[k].cell == c && ws[n].clock < ws[k].clock + es[k].ttl
  {
    j, k := CellFromRaises(ws, es, c, n);
  }

  /** What Pinned answers on a replica that read its own cell in world a and, if Redis answered, cell 0 in world b. */
  function Answer(ws: seq<World>, replica: nat, a: nat, b: nat, answered: bool): Option<int>
    requires a < |ws| && b < |ws| && replica < |ws[a].cells| && 0 < |ws[b].cells|
  {
    Later(Live(ws[a].cells[replica], ws[a].clock), if answered then Live(ws[b].cells[0], ws[b].clock) else None)
  }

  /** With Redis reachable, Pinned on any replica is at least every tier pinned through Redis by any replica before. */
  lemma {:induction false} SharedPinsAreSeenEverywhere(ws: seq<World>, es: seq<Event>, replica: nat, i: nat, a: nat, b: nat)
    requires IsRun(ws, es) && a <= b < |ws| && i < b && replica < |ws[a].cells|
    requires es[i].Raise? && es[i].cell == 0
    requires Lasting(ws, es, 0, i, b, ws[b].clock)
    ensures 0 < |ws[b].cells|
    ensures Answer(ws, replica, a, b, true).Some? && Answer(ws, replica, a, b, true).value >= es[i].tier
  {
    PinsNeverMoveBack(ws, es, 0, i, b);
  }

  /** Through any outage, Pinned is at least every tier this replica pinned itself. */
  lemma {:induction false} OwnPinsOutlastOutages(ws: seq<World>, es: seq<Event>, replica: nat, i: nat, a: nat, b: nat, answered: bool)
    requires IsRun(ws, es) && i < a <= b < |ws|
    requires es[i].Raise? && es[i].cell == replica && 0 < |ws[b].cells|
    requires Lasting(ws, es, replica, i, a, ws[a].clock)
    ensures replica < |ws[a].cells|
    ensures Answer(ws, replica, a, b, answered).Some? && Answer(ws, replica, a, b, answered).value >= es[i].tier
  {
    PinsNeverMoveBack(ws, es, replica, i, a);
  }

  /** With one ttl for every pin of the session, as an alias has, a pin lasts that long whatever follows. */
  lemma {:induction false} OneTtlLasts(ws: seq<World>, es: seq<Event>, c: nat, i: nat, n: nat, ttl: int)
    requires IsRun(ws, es) && i < n < |ws|
    requires forall j :: i <= j < n && es[j].Raise? ==> es[j].ttl == ttl
    requires forall j :: i <= j < n ==> !es[j].Drop?
    requires ws[n].clock < ws[i].clock + ttl
    ensures Lasting(ws, es, c, i, n, ws[n].clock)
  {
    forall j | i <= j < n ensures Lasts(ws[j], es[j], c, ws[n].clock) {
      ClockOnlyAdvances(ws, es, i, j);
    }
  }

  // ---------- the methods are steps of the cells ----------

  /** One session's cells: Redis first, then each replica's. */
  function WorldOf(shared: Pins, locals: seq<Pins>, k: Key, clock: int): World {
    World([CellAt(shared, k)] + seq(|locals|, i requires 0 <= i < |locals| => CellAt(locals[i], k)), clock)
  }

  function After(w: World, es: seq<Event>): Option<World>
    decreases |es|
  {
    if es == [] then Some(w)
    else
      var v := After(w, es[..|es| - 1]);
      if v.Some? && Enabled(v.value, es[|es| - 1]) then Some(Step(v.value, es[|es| - 1])) else None
  }

  /** What Pin on replica i does: its own cell is raised and, if Redis carries it out, the shared one. */
  function PinEvents(i: nat, tier: int, ttl: int, carried: bool): seq<Event> {
    if carried then [Raise(i + 1, tier, ttl), Raise(0, tier, ttl)] else [Raise(i + 1, tier, ttl)]
  }

  /** What Forget on replica i does. */
  function ForgetEvents(i: nat, carried: bool): seq<Event> {
    if carried then [Drop(i + 1), Drop(0)] else [Drop(i + 1)]
  }

  lemma {:induction false} AfterOne(w: World, e: Event)
    requires Enabled(w, e)
    ensures After(w, [e]) == Some(Step(w, e))
  {
    assert [e][..0] == [];
  }

  lemma {:induction false} AfterTwo(w: World, d: Event, e: Event)
    requires Enabled(w, d) && Enabled(Step(w, d), e)
    ensures After(w, [d, e]) == Some(Step(Step(w, d), e))
  {
    assert [d, e][..1] == [d];
    AfterOne(w, d);
  }

  /** The world of the session that is pinned takes exactly the steps of PinEvents; the hypotheses are what Store.Pin ensures. */
  lemma {:induction false} PinIsRaises(shared: Pins, locals: seq<Pins>, i: nat, k: Key, tier: int, ttl: int, now: int, carried: bool,
                                       shared': Pins, local': Pins)
    requires i < |locals| && CellAt(local', k) == Some(Raised(CellAt(locals[i], k), tier, ttl, now))
    requires shared' == if carried then shared[k := Raised(CellAt(shared, k), tier, ttl, now)] else shared
    ensures After(WorldOf(shared, locals, k, now), PinEvents(i, tier, ttl, carried)) == Some(WorldOf(shared', locals[i := local'], k, now))
  {
    var w, v := WorldOf(shared, locals, k, now), WorldOf(shared', locals[i := local'], k, now);
    var own, redis := Raise(i + 1, tier, ttl), Raise(0, tier, ttl);
    if carried {
      AfterTwo(w, own, redis);
      assert Step(Step(w, own), redis).cells == v.cells;
    } else {
      AfterOne(w, own);
      assert Step(w, own).cells == v.cells;
    }
  }

  /** The world of any other session takes at most a sweep. */
  lemma {:induction false} PinLeavesOthers(shared: Pins, locals: seq<Pins>, i: nat, k: Key, other: Key, now: int, carried: bool, p: Pin,
                                           shared': Pins, local': Pins)
    requires i < |locals| && other != k && SweptAtMost(CellAt(locals[i], other), CellAt(local', other), now)
    requires shared' == if carried then shared[k := p] else shared
    ensures var w, v := WorldOf(shared, locals, other, now), WorldOf(shared', locals[i := local'], other, now);
      v == w || (Enabled(w, Sweep(i + 1)) && v == Step(w, Sweep(i + 1)))
  {
    var w, v := WorldOf(shared, locals, other, now), WorldOf(shared', locals[i := local'], other, now);
    if CellAt(local', other) == CellAt(locals[i], other) {
      assert v.cells == w.cells;
    } else {
      assert v.cells == Step(w, Sweep(i + 1)).cells;
    }
  }

  lemma {:induction false} ForgetIsDrops(shared: Pins, locals: seq<Pins>, i: nat, k: Key, now: int, carried: bool, shared': Pins, local': Pins)
    requires i < |locals| && local' == locals[i] - {k}
    requires shared' == if carried then shared - {k} else shared
    ensures After(WorldOf(shared, locals, k, now), ForgetEvents(i, carried)) == Some(WorldOf(shared', locals[i := local'], k, now))
  {
    var w, v := WorldOf(shared, locals, k, now), WorldOf(shared', locals[i := local'], k, now);
    if carried {
      AfterTwo(w, Drop(i + 1), Drop(0));
      assert Step(Step(w, Drop(i + 1)), Drop(0)).cells == v.cells;
    } else {
      AfterOne(w, Drop(i + 1));
      assert Step(w, Drop(i + 1)).cells == v.cells;
    }
  }

  /** What Store.Pinned returns is Answer. */
  lemma {:induction false} PinnedIsAnswer(shared: Pins, locals: seq<Pins>, i: nat, k: Key, now: int, answered: bool)
    requires i < |locals|
    ensures Later(Live(CellAt(locals[i], k), now), if answered then Live(CellAt(shared, k), now) else None)
         == Answer([WorldOf(shared, locals, k, now)], i + 1, 0, 0, answered)
  {
  }

  /** Two replicas and one Redis: what one pins, the other sees for as long as the pin lasts. */
  method PinThenPinned(one: Store, two: Store, k: Key, tier: int, ttl: int, now: int, later: int, wall: int, moment: int) returns (r: Option<int>)
    requires one != two && one.shared == two.shared && now <= later < now + ttl
    requires one.UsesRemote(wall) && two.UsesRemote(moment)
    modifies one, two, one.shared
    ensures r.Some? && r.value >= tier
    ensures old(Live(CellAt(one.shared.pins, k), now)).Some? ==> r.value >= old(Live(CellAt(one.shared.pins, k), now)).value
  {
    var _ := one.Pin(k, tier, ttl, now, wall, Answered);
    r := two.Pinned(k, later, moment, Answered);
  }
}
