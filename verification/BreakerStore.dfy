/**
 Model of the shared breaker store of internal/breaker/breaker.go: any number
 of calls from any number of replicas, each running WATCH, GET, the closure and
 MULTI/EXEC against one Redis, with up to five attempts.

 Every command is a step of its own, so the steps of different calls interleave
 freely. `log` is a history of the calls that took effect, in the order in
 which they did.
 */
module BreakerStores {
  import opened Common
  import opened Breakers

  const UPDATE_ATTEMPTS := 5

  datatype Stage =
    | Loading                                       // admit, before its first GET
    | Ready(attempt: nat)                           // before WATCH
    | Watching(attempt: nat, version: nat)           // between WATCH and GET
    | Read(attempt: nat, version: nat, rec: Rec)    // between GET and EXEC
    | Done(at: nat, adm: Admission, tr: Option<Transition>)
    | Contended

  datatype Call = Call(k: Key, ask: Event, stage: Stage)

  datatype Entry = Applied(id: nat, k: Key, ask: Event) | Deleted(k: Key, now: int)

  datatype World = World(recs: map<Key, Rec>, versions: map<Key, nat>, calls: map<nat, Call>, log: seq<Entry>)

  const EMPTY := World(map[], map[], map[], [])

  datatype Action =
    | Start(id: nat, k: Key, ask: Event)
    | LoadFirst(id: nat)
    | Watch(id: nat)
    | Get(id: nat)
    | Exec(id: nat)
    | Del(k: Key, now: int)

  function Version(w: World, k: Key): nat {
    if k in w.versions then w.versions[k] else 0
  }

  function Stages(w: World, id: nat, stage: Stage): World
    requires id in w.calls
  {
    w.(calls := w.calls[id := w.calls[id].(stage := stage)])
  }

  /** The call ends with e, which its step makes the next entry of the log. */
  function Finishes(w: World, id: nat, e: Effect): World
    requires id in w.calls
  {
    var c := w.calls[id];
    Stages(w, id, Done(|w.log|, e.adm, e.tr)).(log := w.log + [Applied(id, c.k, c.ask)])
  }

  /** EXEC of a SET: stored only if the key is still the version watched. */
  function Execs(w: World, id: nat): World
    requires id in w.calls && w.calls[id].stage.Read?
  {
    var c := w.calls[id];
    var e := Apply(c.stage.rec, c.ask);
    if Version(w, c.k) == c.stage.version then
      Finishes(w, id, e).(recs := w.recs[c.k := e.rec], versions := w.versions[c.k := Version(w, c.k) + 1])
    else if c.stage.attempt + 1 < UPDATE_ATTEMPTS then Stages(w, id, Ready(c.stage.attempt + 1))
    else Stages(w, id, Contended)
  }

  /** GET under the watch: a closure that declines ends the call here. */
  function Gets(w: World, id: nat): World
    requires id in w.calls && w.calls[id].stage.Watching?
  {
    var c := w.calls[id];
    var e := Apply(Load(w.recs, c.k), c.ask);
    if e.commit then Stages(w, id, Read(c.stage.attempt, c.stage.version, Load(w.recs, c.k)))
    else Finishes(w, id, e)
  }

  /** admit's first look: a closed or blocked tier is answered without a transaction. */
  function Looks(w: World, id: nat): World
    requires id in w.calls && w.calls[id].ask.Admit?
  {
    var c := w.calls[id];
    var r := Load(w.recs, c.k);
    if r.state.Closed? then Finishes(w, id, Effect(false, r, PASS, None))
    else if Blocks(r, c.ask.now, c.ask.force) then Finishes(w, id, Effect(false, r, Skip(r), None))
    else Stages(w, id, Ready(0))
  }

  /** One step of the system; an action that is not enabled does nothing. */
  function Step(w: World, a: Action): World {
    match a
    case Start(id, k, ask) =>
      if id in w.calls || ask.Release? then w
      else w.(calls := w.calls[id := Call(k, ask, if ask.Admit? then Loading else Ready(0))])
    case LoadFirst(id) =>
      if id in w.calls && w.calls[id].stage.Loading? && w.calls[id].ask.Admit? then Looks(w, id) else w
    case Watch(id) =>
      if id in w.calls && w.calls[id].stage.Ready?
      then Stages(w, id, Watching(w.calls[id].stage.attempt, Version(w, w.calls[id].k))) else w
    case Get(id) => if id in w.calls && w.calls[id].stage.Watching? then Gets(w, id) else w
    case Exec(id) => if id in w.calls && w.calls[id].stage.Read? then Execs(w, id) else w
    case Del(k, now) =>
      if k !in w.recs then w
      else w.(recs := w.recs - {k}, versions := w.versions[k := Version(w, k) + 1], log := w.log + [Deleted(k, now)])
  }

  function Run(w: World, actions: seq<Action>): World
    decreases |actions|
  {
    if actions == [] then w else Run(Step(w, actions[0]), actions[1..])
  }

  // ---------- the atomic store the system refines ----------

  /** The same requests, one after another, each as one memStore.update. */
  function Atomic(recs: map<Key, Rec>, e: Entry): map<Key, Rec> {
    match e
    case Applied(_, k, ask) => Updated(recs, k, Apply(Load(recs, k), ask))
    case Deleted(k, _) => recs - {k}
  }

  function Replay(log: seq<Entry>): map<Key, Rec>
    decreases |log|
  {
    if log == [] then map[] else Atomic(Replay(log[..|log| - 1]), log[|log| - 1])
  }

  /** What the atomic store answers to the request at i. */
  function Answer(log: seq<Entry>, i: nat): Effect
    requires i < |log| && log[i].Applied?
  {
    Apply(Load(Replay(log[..i]), log[i].k), log[i].ask)
  }

  ghost predicate EntryOk(w: World, i: nat)
    requires i < |w.log|
  {
    w.log[i].Applied? ==>
      && w.log[i].id in w.calls
      && w.calls[w.log[i].id].stage == Done(i, Answer(w.log, i).adm, Answer(w.log, i).tr)
  }

  ghost predicate DoneOk(w: World, id: nat)
    requires id in w.calls
  {
    w.calls[id].stage.Done? ==>
      w.calls[id].stage.at < |w.log| && w.log[w.calls[id].stage.at] == Applied(id, w.calls[id].k, w.calls[id].ask)
  }

  /** A version watched is never ahead, and while it is current the record read is current. */
  ghost predicate CallOk(w: World, c: Call) {
    match c.stage
    case Watching(_, v) => v <= Version(w, c.k)
    case Read(_, v, r) =>
      v <= Version(w, c.k) && Apply(r, c.ask).commit && (v == Version(w, c.k) ==> r == Load(w.recs, c.k))
    case _ => true
  }

  ghost predicate Inv(w: World) {
    && w.recs == Replay(w.log)
    && (forall i :: 0 <= i < |w.log| ==> EntryOk(w, i))
    && (forall id <- w.calls :: DoneOk(w, id))
    && (forall id <- w.calls :: CallOk(w, w.calls[id]))
  }

  lemma {:induction false} ReplayGrows(log: seq<Entry>, e: Entry)
    ensures Replay(log + [e]) == Atomic(Replay(log), e)
  {
    assert (log + [e])[..|log|] == log;
  }

  lemma {:induction false} AnswersStay(log: seq<Entry>, e: Entry, i: nat)
    requires i < |log| && log[i].Applied?
    ensures Answer(log + [e], i) == Answer(log, i)
  {
    assert (log + [e])[..i] == log[..i];
  }

  /** A step that only moves one call on, and neither stores nor answers. */
  lemma {:induction false} StageKept(w: World, id: nat, stage: Stage)
    requires Inv(w) && id in w.calls && !w.calls[id].stage.Done? && !stage.Done?
    requires CallOk(w, w.calls[id].(stage := stage))
    ensures Inv(Stages(w, id, stage))
  {
    var n := Stages(w, id, stage);
    forall i | 0 <= i < |n.log|
      ensures EntryOk(n, i)
    {
      assert EntryOk(w, i);
    }
    forall j | j in n.calls
      ensures DoneOk(n, j) && CallOk(n, n.calls[j])
    {
      assert DoneOk(w, j) && CallOk(w, w.calls[j]);
    }
  }

  /** The log entry a finishing call leaves is the one atomic request it made. */
  lemma {:induction false} FinishLogged(w: World, n: World, id: nat)
    requires Inv(w) && id in w.calls && !w.calls[id].stage.Done?
    requires var e := Apply(Load(w.recs, w.calls[id].k), w.calls[id].ask);
      n.calls == Finishes(w, id, e).calls && n.log == Finishes(w, id, e).log
    ensures forall i :: 0 <= i < |n.log| ==> EntryOk(n, i)
    ensures forall j <- n.calls :: DoneOk(n, j)
  {
    var c := w.calls[id];
    var entry := Applied(id, c.k, c.ask);
    forall i | 0 <= i < |n.log|
      ensures EntryOk(n, i)
    {
      if i < |w.log| {
        assert EntryOk(w, i);
        if w.log[i].Applied? {
          AnswersStay(w.log, entry, i);
        }
      } else {
        assert n.log[..i] == w.log;
      }
    }
    forall j | j in n.calls
      ensures DoneOk(n, j)
    {
      if j != id {
        assert DoneOk(w, j);
      }
    }
  }

  /** A call whose closure declines is answered as the atomic store would. */
  lemma {:induction false} DeclineKept(w: World, id: nat, e: Effect)
    requires Inv(w) && id in w.calls && !w.calls[id].stage.Done?
    requires e == Apply(Load(w.recs, w.calls[id].k), w.calls[id].ask) && !e.commit
    ensures Inv(Finishes(w, id, e))
  {
    var n := Finishes(w, id, e);
    var c := w.calls[id];
    FinishLogged(w, n, id);
    ReplayGrows(w.log, Applied(id, c.k, c.ask));
    forall j | j in n.calls
      ensures CallOk(n, n.calls[j])
    {
      assert CallOk(w, w.calls[j]);
    }
  }

  /** A change to one key, with its version, spoils no other call. */
  lemma {:induction false} OthersStay(w: World, n: World, k: Key, j: nat)
    requires j in w.calls && CallOk(w, w.calls[j])
    requires n.versions == w.versions[k := Version(w, k) + 1]
    requires forall x :: x != k ==> Load(n.recs, x) == Load(w.recs, x)
    ensures CallOk(n, w.calls[j])
  {
  }

  lemma {:induction false} CommitKept(w: World, id: nat)
    requires Inv(w) && id in w.calls && w.calls[id].stage.Read?
    requires Version(w, w.calls[id].k) == w.calls[id].stage.version
    ensures Inv(Execs(w, id))
  {
    var n := Execs(w, id);
    var c := w.calls[id];
    assert CallOk(w, c);
    FinishLogged(w, n, id);
    ReplayGrows(w.log, Applied(id, c.k, c.ask));
    forall j | j in n.calls
      ensures CallOk(n, n.calls[j])
    {
      if j != id {
        OthersStay(w, n, c.k, j);
      }
    }
  }

  lemma {:induction false} DeleteKept(w: World, k: Key, now: int)
    requires Inv(w) && k in w.recs
    ensures Inv(Step(w, Del(k, now)))
  {
    var n := Step(w, Del(k, now));
    ReplayGrows(w.log, Deleted(k, now));
    forall i | 0 <= i < |n.log|
      ensures EntryOk(n, i)
    {
      if i < |w.log| {
        assert EntryOk(w, i);
        if w.log[i].Applied? {
          AnswersStay(w.log, Deleted(k, now), i);
        }
      }
    }
    forall j | j in n.calls
      ensures DoneOk(n, j) && CallOk(n, n.calls[j])
    {
      assert DoneOk(w, j);
      OthersStay(w, n, k, j);
    }
  }

  lemma {:induction false} StartKept(w: World, id: nat, k: Key, ask: Event)
    requires Inv(w) && id !in w.calls
    ensures Inv(Step(w, Start(id, k, ask)))
  {
    var n := Step(w, Start(id, k, ask));
    forall i | 0 <= i < |n.log|
      ensures EntryOk(n, i)
    {
      assert EntryOk(w, i);
    }
    forall j | j in n.calls
      ensures DoneOk(n, j) && CallOk(n, n.calls[j])
    {
      if j in w.calls {
        assert DoneOk(w, j) && CallOk(w, w.calls[j]);
      }
    }
  }

  lemma {:induction false} ExecKept(w: World, id: nat)
    requires Inv(w) && id in w.calls && w.calls[id].stage.Read?
    ensures Inv(Execs(w, id))
  {
    var c := w.calls[id];
    if Version(w, c.k) == c.stage.version {
      CommitKept(w, id);
    } else if c.stage.attempt + 1 < UPDATE_ATTEMPTS {
      StageKept(w, id, Ready(c.stage.attempt + 1));
    } else {
      StageKept(w, id, Contended);
    }
  }

  lemma {:induction false} GetKept(w: World, id: nat)
    requires Inv(w) && id in w.calls && w.calls[id].stage.Watching?
    ensures Inv(Gets(w, id))
  {
    var c := w.calls[id];
    var r := Load(w.recs, c.k);
    var e := Apply(r, c.ask);
    assert CallOk(w, c);
    if e.commit {
      StageKept(w, id, Read(c.stage.attempt, c.stage.version, r));
    } else {
      DeclineKept(w, id, e);
    }
  }

  lemma {:induction false} LookKept(w: World, id: nat)
    requires Inv(w) && id in w.calls && w.calls[id].stage.Loading? && w.calls[id].ask.Admit?
    ensures Inv(Looks(w, id))
  {
    var c := w.calls[id];
    var r := Load(w.recs, c.k);
    if r.state.Closed? || Blocks(r, c.ask.now, c.ask.force) {
      DeclineKept(w, id, Apply(r, c.ask));
    } else {
      StageKept(w, id, Ready(0));
    }
  }

  lemma {:induction false} StepKept(w: World, a: Action)
    requires Inv(w)
    ensures Inv(Step(w, a))
  {
    if Step(w, a) != w {
      match a
      case Start(id, k, ask) => StartKept(w, id, k, ask);
      case LoadFirst(id) => LookKept(w, id);
      case Watch(id) => StageKept(w, id, Watching(w.calls[id].stage.attempt, Version(w, w.calls[id].k)));
      case Get(id) => GetKept(w, id);
      case Exec(id) => ExecKept(w, id);
      case Del(k, now) => DeleteKept(w, k, now);
    }
  }

  lemma {:induction false} RunKept(w: World, actions: seq<Action>)
    requires Inv(w)
    ensures Inv(Run(w, actions))
    decreases |actions|
  {
    if actions != [] {
      StepKept(w, actions[0]);
      RunKept(Step(w, actions[0]), actions[1..]);
    }
  }

  /**
   Whatever the interleaving, the shared records are those of an atomic store
   that served the logged requests one after another; the calls that returned
   an answer are exactly the logged ones, each logged once and answered as the
   atomic store answers it at its place.
   */
  lemma {:induction false} EveryInterleavingIsAtomic(actions: seq<Action>)
    ensures var w := Run(EMPTY, actions);
      && w.recs == Replay(w.log)
      && (forall id <- w.calls :: DoneOk(w, id))
      && (forall i :: 0 <= i < |w.log| ==> EntryOk(w, i))
  {
    RunKept(EMPTY, actions);
  }

  /** The request at i stored a move of its tier to half-open, and reported it. */
  ghost predicate MovesToHalfOpen(log: seq<Entry>, i: int) {
    && 0 <= i < |log| && log[i].Applied?
    && var e := Answer(log, i);
    && e.commit && e.tr.Some? && e.tr.value.to == HalfOpen
    && Load(Replay(log[..i + 1]), log[i].k).state.HalfOpen?
  }

  /** The probe goes with the move: to whoever makes it and to nobody else. */
  lemma {:induction false} ProbeGoesWithMove(r: Rec, e: Event)
    ensures Apply(r, e).adm.probe <==>
            var f := Apply(r, e); f.commit && f.tr.Some? && f.tr.value.to == HalfOpen && f.rec.state.HalfOpen?
  {
  }

  lemma {:induction false} MoveIsStored(log: seq<Entry>, i: nat)
    requires i < |log| && log[i].Applied?
    ensures MovesToHalfOpen(log, i) <==> Answer(log, i).adm.probe
  {
    var r := Load(Replay(log[..i]), log[i].k);
    ProbeGoesWithMove(r, log[i].ask);
    assert log[..i + 1] == log[..i] + [log[i]];
    ReplayGrows(log[..i], log[i]);
  }

  ghost predicate HoldsProbe(w: World, id: nat) {
    id in w.calls && w.calls[id].stage.Done? && w.calls[id].stage.adm.probe
  }

  /**
   Each move to half-open that was stored gives the probe to exactly one caller,
   and a caller told it holds the probe made exactly one such move.
   */
  lemma {:induction false} EachProbeHasOneHolder(actions: seq<Action>)
    ensures var w := Run(EMPTY, actions);
      && (forall id <- w.calls :: HoldsProbe(w, id) ==>
            MovesToHalfOpen(w.log, w.calls[id].stage.at) && w.log[w.calls[id].stage.at].id == id)
      && (forall i :: MovesToHalfOpen(w.log, i) ==>
            HoldsProbe(w, w.log[i].id) && w.calls[w.log[i].id].stage.at == i)
  {
    EveryInterleavingIsAtomic(actions);
    var w := Run(EMPTY, actions);
    forall id | id in w.calls && HoldsProbe(w, id)
      ensures MovesToHalfOpen(w.log, w.calls[id].stage.at) && w.log[w.calls[id].stage.at].id == id
    {
      assert DoneOk(w, id) && EntryOk(w, w.calls[id].stage.at);
      MoveIsStored(w.log, w.calls[id].stage.at);
    }
    forall i | MovesToHalfOpen(w.log, i)
      ensures HoldsProbe(w, w.log[i].id) && w.calls[w.log[i].id].stage.at == i
    {
      assert EntryOk(w, i);
      MoveIsStored(w.log, i);
    }
  }

  // ---------- five attempts ----------

  ghost predicate Trying(c: Call) {
    match c.stage
    case Ready(n) => n < 5
    case Watching(n, _) => n < 5
    case Read(n, _, _) => n < 5
    case _ => true
  }

  lemma {:induction false} StepTries(w: World, a: Action, id: nat)
    requires (id in w.calls ==> Trying(w.calls[id])) && id in Step(w, a).calls
    ensures Trying(Step(w, a).calls[id])
  {
  }

  /** Whatever the interleaving, no call runs its transaction more than five times. */
  lemma {:induction false} FiveAttemptsAtMost(w: World, actions: seq<Action>, id: nat)
    requires id in w.calls ==> Trying(w.calls[id])
    ensures id in Run(w, actions).calls ==> Trying(Run(w, actions).calls[id])
    decreases |actions|
  {
    if actions != [] {
      if id in Step(w, actions[0]).calls {
        StepTries(w, actions[0], id);
      }
      FiveAttemptsAtMost(Step(w, actions[0]), actions[1..], id);
    }
  }

  /** A transaction is given up only when its fifth attempt too found the record changed since its watch. */
  lemma {:induction false} GivesUpOnlyAfterFive(w: World, a: Action, id: nat)
    requires id in w.calls && !w.calls[id].stage.Contended? && id in Step(w, a).calls && Step(w, a).calls[id].stage.Contended?
    requires Trying(w.calls[id])
    ensures var c := w.calls[id]; a == Exec(id) && c.stage.Read? && c.stage.attempt == 4 && Version(w, c.k) != c.stage.version
  {
  }

  // ---------- real time ----------

  lemma {:induction false} RunAppend(w: World, a: seq<Action>, b: seq<Action>)
    ensures Run(w, a + b) == Run(Run(w, a), b)
    decreases |a|
  {
    if a == [] {
      assert a + b == b;
    } else {
      assert (a + b)[1..] == a[1..] + b;
      RunAppend(Step(w, a[0]), a[1..], b);
    }
  }

  /** v comes after w: its log continues w's, and a call that w had not answered is answered past the end of w's log. */
  ghost predicate Continues(w: World, v: World) {
    && w.log <= v.log
    && (forall id <- w.calls :: id in v.calls)
    && (forall id <- w.calls :: w.calls[id].stage.Done? ==> v.calls[id] == w.calls[id])
    && (forall id <- v.calls :: v.calls[id].stage.Done? && !(id in w.calls && w.calls[id].stage.Done?) ==>
          v.calls[id].stage.at >= |w.log|)
  }

  lemma {:induction false} StepContinues(w: World, a: Action)
    ensures Continues(w, Step(w, a))
  {
  }

  lemma {:induction false} ContinuesTransitively(u: World, v: World, w: World)
    requires Continues(u, v) && Continues(v, w)
    ensures Continues(u, w)
  {
    forall id | id in w.calls && w.calls[id].stage.Done? && !(id in u.calls && u.calls[id].stage.Done?)
      ensures w.calls[id].stage.at >= |u.log|
    {
      if id in v.calls && v.calls[id].stage.Done? {
        assert w.calls[id] == v.calls[id];
      }
    }
  }

  lemma {:induction false} RunContinues(w: World, actions: seq<Action>)
    ensures Continues(w, Run(w, actions))
    decreases |actions|
  {
    if actions != [] {
      StepContinues(w, actions[0]);
      RunContinues(Step(w, actions[0]), actions[1..]);
      ContinuesTransitively(w, Step(w, actions[0]), Run(w, actions));
    }
  }

  /**
   The atomic order respects real time: the log only grows, a call takes its place in it no earlier than
   it started, and so a call that had returned before another started comes before it.
   */
  lemma {:induction false} RealTimeOrder(before: seq<Action>, later: seq<Action>, x: nat, y: nat)
    requires var w := Run(EMPTY, before); x in w.calls && w.calls[x].stage.Done? && y !in w.calls
    requires var v := Run(EMPTY, before + later); y in v.calls && v.calls[y].stage.Done?
    ensures var w, v := Run(EMPTY, before), Run(EMPTY, before + later);
      && w.log <= v.log && x in v.calls && v.calls[x].stage.Done?
      && v.calls[x].stage.at < |w.log| <= v.calls[y].stage.at
  {
    RunAppend(EMPTY, before, later);
    RunContinues(Run(EMPTY, before), later);
    EveryInterleavingIsAtomic(before);
    assert DoneOk(Run(EMPTY, before), x);
  }

  // ---------- one key of the shared store is one run of the breaker ----------

  /** The logged requests on k, in order. */
  function KeyRun(log: seq<Entry>, k: Key): seq<Event>
    decreases |log|
  {
    if log == [] then []
    else
      var e := log[|log| - 1];
      KeyRun(log[..|log| - 1], k)
      + if e.k != k then [] else if e.Applied? then [e.ask] else [Release(e.now)]
  }

  lemma {:induction false} FinalSnoc(r: Rec, run: seq<Event>, e: Event)
    ensures Final(r, run + [e]) == Apply(Final(r, run), e).rec
  {
    FinalAppend(r, run, [e]);
  }

  lemma {:induction false} ReplayIsRun(log: seq<Entry>, k: Key)
    ensures Load(Replay(log), k) == Final(NEW, KeyRun(log, k))
    decreases |log|
  {
    if log != [] {
      var e := log[|log| - 1];
      ReplayIsRun(log[..|log| - 1], k);
      if e.k == k {
        FinalSnoc(NEW, KeyRun(log[..|log| - 1], k), if e.Applied? then e.ask else Release(e.now));
      } else {
        assert KeyRun(log, k) == KeyRun(log[..|log| - 1], k);
      }
    }
  }

  /** Each shared record is the result of an atomic run on its key: the run theorems apply to it. */
  lemma {:induction false} SharedRecordIsARun(actions: seq<Action>, k: Key)
    ensures var w := Run(EMPTY, actions); Load(w.recs, k) == Final(NEW, KeyRun(w.log, k))
  {
    EveryInterleavingIsAtomic(actions);
    ReplayIsRun(Run(EMPTY, actions).log, k);
  }

  // ---------- the history of a shared record ----------

  /** A request is made at a positive time, and its outcome judged by cfg. */
  predicate AskFits(ask: Event, cfg: Settings) {
    ask.now > 0 && (ask.Report? ==> SameRules(ask.cfg, cfg))
  }

  /** Every request on k that the replicas make is made at a positive time and its outcomes judged by cfg, in any order. */
  ghost predicate ActionsFit(actions: seq<Action>, k: Key, cfg: Settings) {
    forall a <- actions ::
      && (a.Start? && a.k == k ==> AskFits(a.ask, cfg))
      && (a.Del? && a.k == k ==> a.now > 0)
  }

  predicate EntryFits(e: Entry, k: Key, cfg: Settings) {
    e.k == k ==> if e.Applied? then AskFits(e.ask, cfg) else e.now > 0
  }

  ghost predicate WorldFits(w: World, k: Key, cfg: Settings) {
    && (forall id <- w.calls :: w.calls[id].k == k ==> AskFits(w.calls[id].ask, cfg))
    && (forall e <- w.log :: EntryFits(e, k, cfg))
  }

  lemma {:induction false} StepFits(w: World, a: Action, k: Key, cfg: Settings)
    requires WorldFits(w, k, cfg)
    requires (a.Start? && a.k == k ==> AskFits(a.ask, cfg)) && (a.Del? && a.k == k ==> a.now > 0)
    ensures WorldFits(Step(w, a), k, cfg)
  {
  }

  lemma {:induction false} RunFits(w: World, actions: seq<Action>, k: Key, cfg: Settings)
    requires WorldFits(w, k, cfg) && ActionsFit(actions, k, cfg)
    ensures WorldFits(Run(w, actions), k, cfg)
    decreases |actions|
  {
    if actions != [] {
      assert actions[0] in actions;
      StepFits(w, actions[0], k, cfg);
      RunFits(Step(w, actions[0]), actions[1..], k, cfg);
    }
  }

  lemma {:induction false} KeyRunFits(log: seq<Entry>, k: Key, cfg: Settings)
    requires forall e <- log :: EntryFits(e, k, cfg)
    ensures Fixed(KeyRun(log, k), cfg)
    decreases |log|
  {
    if log != [] {
      assert log[|log| - 1] in log;
      KeyRunFits(log[..|log| - 1], k, cfg);
    }
  }

  /**
   Whatever the interleaving, and in whatever order the replicas read their clocks, a record shared under
   fixed positive settings has the cooldowns, trips and counters that its history gives it, and its window counters
   are by the clock what they are in any run.
   */
  lemma {:induction false} SharedRecordKeepsItsHistory(actions: seq<Action>, k: Key, cfg: Settings)
    requires Positive(cfg) && ActionsFit(actions, k, cfg)
    ensures var w := Run(EMPTY, actions);
      Load(w.recs, k) == Final(NEW, KeyRun(w.log, k)) && HistoryTold(KeyRun(w.log, k), cfg) && ClockTold(KeyRun(w.log, k), cfg)
  {
    SharedRecordIsARun(actions, k);
    RunFits(EMPTY, actions, k, cfg);
    KeyRunFits(Run(EMPTY, actions).log, k, cfg);
    EveryRecordKeepsItsHistory(KeyRun(Run(EMPTY, actions).log, k), cfg);
    WindowCountsSinceItsStart(KeyRun(Run(EMPTY, actions).log, k), cfg);
  }

  // ---------- leases in the shared store ----------

  /** An entry that ends a probe of k. */
  predicate EntrySettles(e: Entry, k: Key) {
    e.k == k && (e.Deleted? || Settles(e.ask))
  }

  /** What one more entry does to the record of k. */
  lemma {:induction false} StoredNext(log: seq<Entry>, m: nat, k: Key)
    requires m < |log|
    ensures var r, n := Load(Replay(log[..m]), k), Load(Replay(log[..m + 1]), k);
      if log[m].k != k then n == r
      else if log[m].Applied? then n == Apply(r, log[m].ask).rec
      else n == NEW
  {
    assert log[..m + 1] == log[..m] + [log[m]];
    ReplayGrows(log[..m], log[m]);
    if log[m].Applied? {
      UncommittedKeeps(Load(Replay(log[..m]), log[m].k), log[m].ask);
    }
  }

  lemma {:induction false} GrantLends(r: Rec, e: Event)
    requires Apply(r, e).adm.probe
    ensures e.Admit? && Apply(r, e).rec.state.HalfOpen? && Apply(r, e).rec.probeUntil == e.now + Lease(e.cfg)
  {
  }

  /** From a move to half-open at i on, as long as nothing settles it, the stored lease only moves on. */
  lemma {:induction false} StoredLeaseGrows(log: seq<Entry>, i: nat, m: nat)
    requires i < m <= |log| && log[i].Applied? && Answer(log, i).adm.probe
    requires forall j :: i < j < m ==> !EntrySettles(log[j], log[i].k)
    ensures log[i].ask.Admit?
    ensures var r := Load(Replay(log[..m]), log[i].k);
      r.state.HalfOpen? && r.probeUntil >= log[i].ask.now + Lease(log[i].ask.cfg)
    decreases m
  {
    StoredNext(log, m - 1, log[i].k);
    if i < m - 1 {
      StoredLeaseGrows(log, i, m - 1);
      assert !EntrySettles(log[m - 1], log[i].k);
      if log[m - 1].k == log[i].k {
        LeaseKept(Load(Replay(log[..m - 1]), log[i].k), log[m - 1].ask);
      }
    } else {
      GrantLends(Load(Replay(log[..i]), log[i].k), log[i].ask);
    }
  }

  /**
   Whatever the interleaving and the order of clock readings: two stored moves of a tier to half-open with no settlement
   stored between them were asked for at least a lease apart.
   */
  lemma {:induction false} SharedGrantsAreALeaseApart(actions: seq<Action>, i: nat, j: nat)
    requires var log := Run(EMPTY, actions).log;
      && i < j < |log| && MovesToHalfOpen(log, i) && MovesToHalfOpen(log, j) && log[i].k == log[j].k
      && forall m :: i < m < j ==> !EntrySettles(log[m], log[i].k)
    ensures var log := Run(EMPTY, actions).log; log[j].ask.now >= log[i].ask.now + Lease(log[i].ask.cfg)
  {
    var log := Run(EMPTY, actions).log;
    MoveIsStored(log, i);
    MoveIsStored(log, j);
    StoredLeaseGrows(log, i, j);
  }

  // ---------- the cooldown in the shared store ----------

  /** The request at i trips its tier for a cooldown that ends at `until`. */
  ghost predicate TripsAt(log: seq<Entry>, i: nat, until: int) {
    i < |log| && log[i].Applied? &&
    var tr := Answer(log, i).tr;
    tr.Some? && tr.value.to.Open? && until == log[i].ask.now + tr.value.cooldown
  }

  /** An entry that lends a probe of k or deletes its record. */
  ghost predicate Interferes(log: seq<Entry>, m: nat, k: Key)
    requires m < |log|
  {
    log[m].k == k && (log[m].Deleted? || log[m].ask.Release? || Answer(log, m).adm.probe)
  }

  lemma {:induction false} StoredStaysOpen(log: seq<Entry>, i: nat, m: nat, until: int)
    requires TripsAt(log, i, until) && i < m <= |log|
    requires forall j :: i < j < m ==> !Interferes(log, j, log[i].k)
    ensures var r := Load(Replay(log[..m]), log[i].k); r.state.Open? && r.openUntil == until
    decreases m
  {
    StoredNext(log, m - 1, log[i].k);
    if m == i + 1 {
      TripOpens(Load(Replay(log[..i]), log[i].k), log[i].ask);
    } else {
      StoredStaysOpen(log, i, m - 1, until);
      assert !Interferes(log, m - 1, log[i].k);
      if log[m - 1].k == log[i].k {
        OpenKeeps(Load(Replay(log[..m - 1]), log[i].k), log[m - 1].ask);
      }
    }
  }

  /**
   Whatever the interleaving and the order of clock readings: from a stored trip until the first probe stored since, a request that
   returned was turned away, and told when the cooldown ends, exactly if it was not forced and was made before then; otherwise it is the probe.
   */
  lemma {:induction false} SharedFirstProbeWaits(actions: seq<Action>, i: nat, j: nat, until: int)
    requires var log := Run(EMPTY, actions).log;
      && TripsAt(log, i, until) && i < j < |log| && log[j].Applied? && log[j].k == log[i].k && log[j].ask.Admit?
      && forall m :: i < m < j ==> !Interferes(log, m, log[i].k)
    ensures var w := Run(EMPTY, actions);
      var e := w.log[j];
      && e.id in w.calls && w.calls[e.id].stage.Done?
      && w.calls[e.id].stage.adm ==
           if e.ask.now < until && !e.ask.force then Admission(true, false, Some(until)) else Admission(false, true, None)
  {
    var w := Run(EMPTY, actions);
    EveryInterleavingIsAtomic(actions);
    assert EntryOk(w, j);
    StoredStaysOpen(w.log, i, j, until);
    var e := w.log[j].ask;
    AdmitMeans(Load(Replay(w.log[..j]), w.log[j].k), e.cfg, e.now, e.force);
  }
}
