/**
 Model of internal/lookupcache/lookupcache.go: a cache of database answers
 with shared loads, a purge generation and stale answers during an outage.

 The critical sections under the mutex are methods of Cache, specified by
 functions of a Shelf. The interleaving of Gets, shared loads and purges is a
 state machine over those functions. Times are clock readings; zero stands
 for the zero time.
 */
module LookupCaches {
  import opened Common

  const BACKOFF := 5_000

  datatype Options = Options(ttl: int, maxStale: int)

  datatype Entry<V> = Entry(v: V, at: int)

  /** The state under the mutex. */
  datatype Shelf<V> = Shelf(entries: map<string, Entry<V>>, gen: nat, quietUntil: int)

  /** What a load returned: a value, a definitive "no such thing", or no answer. */
  datatype Load<V> = Found(v: V) | Missing | Failed

  /** What a Get does after its first look: serve the entry, or ask, with or without an entry to fall back on. */
  datatype Course<V> = Serve(v: V) | Ask(usable: bool)

  function Lookup<V>(m: map<string, Entry<V>>, key: string): Option<Entry<V>> {
    if key in m then Some(m[key]) else None
  }

  function CourseOf<V>(o: Options, saw: Option<Entry<V>>, quiet: bool, now: int): Course<V> {
    match saw
    case None => Ask(false)
    case Some(e) =>
      if now - e.at < o.ttl then Serve(e.v)
      else if now - e.at < o.maxStale && quiet then Serve(e.v)
      else Ask(now - e.at < o.maxStale)
  }

  /** The entry is within its TTL. */
  ghost predicate Fresh<V>(o: Options, saw: Option<Entry<V>>, now: int) {
    saw.Some? && now - saw.value.at < o.ttl
  }

  /** The entry may stand in for the database during an outage. */
  ghost predicate Usable<V>(o: Options, saw: Option<Entry<V>>, now: int) {
    saw.Some? && now - saw.value.at < o.maxStale
  }

  function Settled<V>(shelf: Shelf<V>, key: string, gen: nat, now: int, load: Load<V>): Shelf<V> {
    match load
    case Found(v) => if shelf.gen == gen then shelf.(entries := shelf.entries[key := Entry(v, now)]) else shelf
    case Missing => shelf.(entries := shelf.entries - {key})
    case Failed => shelf
  }

  function Emptied<V>(shelf: Shelf<V>): Shelf<V> {
    Shelf(map[], shelf.gen + 1, 0)
  }

  /** Whether a Get that read generation gen may serve its old entry after a load without an answer. */
  predicate FallsBack<V>(shelf: Shelf<V>, gen: nat, usable: bool, load: Load<V>) {
    load.Failed? && usable && shelf.gen == gen
  }

  class Cache<V(==)> {
    const opts: Options
    var entries: map<string, Entry<V>>
    var gen: nat
    var quietUntil: int

    function Shelved(): Shelf<V>
      reads this
    {
      Shelf(entries, gen, quietUntil)
    }

    constructor (o: Options)
      ensures opts == o && Shelved() == Shelf(map[], 0, 0)
    {
      opts := o;
      entries, gen, quietUntil := map[], 0, 0;
    }

    /** The first look of a Get. */
    method Look(key: string, now: int) returns (course: Course<V>, saw: Option<Entry<V>>, seen: nat)
      ensures saw == Lookup(entries, key) && seen == gen
      ensures course.Serve? ==> saw.Some? && course.v == saw.value.v && now - saw.value.at < Max(opts.ttl, opts.maxStale)
      ensures course == CourseOf(opts, saw, now < quietUntil, now)
      ensures Fresh(opts, saw, now) || (Usable(opts, saw, now) && now < quietUntil) ==> course == Serve(saw.value.v)
      ensures !Fresh(opts, saw, now) && !(Usable(opts, saw, now) && now < quietUntil) ==> course == Ask(Usable(opts, saw, now))
    {
      var ok := key in entries;
      saw := if ok then Some(entries[key]) else None;
      seen := gen;
      var quiet := now < quietUntil;
      if ok && now - saw.value.at < opts.ttl {
        return Serve(saw.value.v), saw, seen;
      }
      var usable := ok && now - saw.value.at < opts.maxStale;
      if usable && quiet {
        return Serve(saw.value.v), saw, seen;
      }
      course := Ask(usable);
    }

    /** The end of a shared load, started for a Get that began at now and read generation seen. */
    method Settle(key: string, seen: nat, now: int, load: Load<V>)
      modifies this
      ensures Shelved() == Settled(old(Shelved()), key, seen, now, load)
    {
      if load.Found? && gen == seen {
        entries := entries[key := Entry(load.v, now)];
      }
      if load.Missing? {
        entries := entries - {key};
      }
    }

    /** The end of a Get that waited for a load: true if its old entry is served. */
    method FallBack(seen: nat, usable: bool, load: Load<V>, clock: int) returns (stale: bool)
      modifies this
      ensures stale == FallsBack(old(Shelved()), seen, usable, load)
      ensures Shelved() == if stale then old(Shelved()).(quietUntil := clock + BACKOFF) else old(Shelved())
    {
      if load.Found? || load.Missing? || !usable {
        return false;
      }
      if gen != seen {
        return false;
      }
      quietUntil := clock + BACKOFF;
      return true;
    }

    method Purge()
      modifies this
      ensures Shelved() == Emptied(old(Shelved()))
    {
      entries := map[];
      gen := gen + 1;
      quietUntil := 0;
    }
  }

  // ---------- every interleaving ----------

  /**
   What the cache's history records: purges, and the end of each load with
   the time `at` its leading Get began, the history length when that Get looked and
   when the load started, and the clock when it started.
   */
  datatype Event<V> =
    | Purging
    | Outcome(key: string, load: Load<V>, at: int, looked: nat, started: nat, begun: int)

  type Log<V> = seq<Event<V>>

  datatype Answer<V> =
    | Cached(v: V)
    | Loaded(load: Load<V>, flight: nat)
    | Stale(v: V, ended: nat)
    | Abandoned

  datatype Phase<V> =
    | Asking(usable: bool)
    | Waiting(usable: bool, flight: nat)
    | Done(answer: Answer<V>)

  datatype Get<V> = Get(key: string, now: int, looked: nat, saw: Option<Entry<V>>, gen: nat, phase: Phase<V>)

  /** A shared load; its leader is the Get that started it. */
  datatype Flight<V> = Flight(key: string, leader: nat, started: nat, begun: int, result: Option<Load<V>>)

  datatype System<V> = System(
    shelf: Shelf<V>,
    clock: nat,
    log: Log<V>,
    gets: seq<Get<V>>,
    flights: seq<Flight<V>>,
    group: map<string, nat>)

  function Start<V>(): System<V> {
    System(Shelf(map[], 0, 0), 0, [], [], [], map[])
  }

  /**
   - Look: a Get that read the clock at `now` looks at the shelf.
   - Fly: Get g joins the load of its key that is under way, or starts one.
   - Finish: load f ends; Leave: it leaves the group of loads that can be joined.
   - Return: Get g takes the result of its load; Cancel: it stops waiting.
   */
  datatype Step<V> =
    | Tick(ms: nat)
    | Look(key: string, now: int)
    | Fly(g: nat)
    | Finish(f: nat, load: Load<V>)
    | Leave(f: nat)
    | Return(g: nat)
    | Cancel(g: nat)
    | Purge

  predicate Enabled<V>(s: System<V>, e: Step<V>) {
    match e
    case Tick(_) => true
    case Look(_, now) => 0 <= now <= s.clock
    case Fly(g) => g < |s.gets| && s.gets[g].phase.Asking?
    case Finish(f, _) => f < |s.flights| && s.flights[f].result.None? && s.flights[f].leader < |s.gets|
    case Leave(f) => f < |s.flights| && s.flights[f].result.Some?
    case Return(g) =>
      && g < |s.gets|
      && s.gets[g].phase.Waiting?
      && s.gets[g].phase.flight < |s.flights|
      && s.flights[s.gets[g].phase.flight].result.Some?
    case Cancel(g) => g < |s.gets| && s.gets[g].phase.Waiting?
    case Purge => true
  }

  function FirstPhase<V>(course: Course<V>): Phase<V> {
    match course
    case Serve(v) => Done(Cached(v))
    case Ask(usable) => Asking(usable)
  }

  function Looking<V>(s: System<V>, o: Options, key: string, now: int): System<V> {
    var saw := Lookup(s.shelf.entries, key);
    var course := CourseOf(o, saw, now < s.shelf.quietUntil, now);
    s.(gets := s.gets + [Get(key, now, |s.log|, saw, s.shelf.gen, FirstPhase(course))])
  }

  function Flying<V>(s: System<V>, g: nat): System<V>
    requires Enabled(s, Fly(g))
  {
    var get := s.gets[g];
    if get.key in s.group then
      s.(gets := s.gets[g := get.(phase := Waiting(get.phase.usable, s.group[get.key]))])
    else
      s.(gets := s.gets[g := get.(phase := Waiting(get.phase.usable, |s.flights|))],
         flights := s.flights + [Flight(get.key, g, |s.log|, s.clock, None)],
         group := s.group[get.key := |s.flights|])
  }

  function Finishing<V>(s: System<V>, f: nat, load: Load<V>): System<V>
    requires Enabled(s, Finish(f, load))
  {
    var flight := s.flights[f];
    var lead := s.gets[flight.leader];
    s.(shelf := Settled(s.shelf, flight.key, lead.gen, lead.now, load),
       flights := s.flights[f := flight.(result := Some(load))],
       log := s.log + [Outcome(flight.key, load, lead.now, lead.looked, flight.started, flight.begun)])
  }

  function Returning<V>(s: System<V>, g: nat): System<V>
    requires Enabled(s, Return(g))
  {
    var get := s.gets[g];
    var load := s.flights[get.phase.flight].result.value;
    if FallsBack(s.shelf, get.gen, get.phase.usable, load) && get.saw.Some? then
      s.(gets := s.gets[g := get.(phase := Done(Stale(get.saw.value.v, |s.log|)))],
         shelf := s.shelf.(quietUntil := s.clock + BACKOFF))
    else
      s.(gets := s.gets[g := get.(phase := Done(Loaded(load, get.phase.flight)))])
  }

  function Next<V>(s: System<V>, e: Step<V>, o: Options): System<V>
    requires Enabled(s, e)
  {
    match e
    case Tick(ms) => s.(clock := s.clock + ms)
    case Look(key, now) => Looking(s, o, key, now)
    case Fly(g) => Flying(s, g)
    case Finish(f, load) => Finishing(s, f, load)
    case Leave(f) =>
      var key := s.flights[f].key;
      if key in s.group && s.group[key] == f then s.(group := s.group - {key}) else s
    case Return(g) => Returning(s, g)
    case Cancel(g) => s.(gets := s.gets[g := s.gets[g].(phase := Done(Abandoned))])
    case Purge => Purged(s)
  }

  ghost predicate IsRun<V(!new)>(ss: seq<System<V>>, es: seq<Step<V>>, o: Options) {
    && |ss| == |es| + 1
    && ss[0] == Start()
    && forall i :: 0 <= i < |es| ==> Enabled(ss[i], es[i]) && ss[i + 1] == Next(ss[i], es[i], o)
  }

  // ---------- the history decides the entries ----------

  function Purges<V>(log: Log<V>): nat {
    if log == [] then 0
    else Purges(log[..|log| - 1]) + if log[|log| - 1].Purging? then 1 else 0
  }

  predicate NoPurgeSince<V>(log: Log<V>, from: nat) {
    forall p :: from <= p < |log| ==> !log[p].Purging?
  }

  lemma {:induction false} PurgesCount<V>(log: Log<V>, from: nat)
    requires from <= |log|
    ensures Purges(log[..from]) <= Purges(log)
    ensures NoPurgeSince(log, from) <==> Purges(log[..from]) == Purges(log)
    decreases |log|
  {
    if from == |log| {
      assert log[..from] == log;
    } else {
      var n := |log| - 1;
      PurgesCount(log[..n], from);
      assert log[..n][..from] == log[..from];
      assert NoPurgeSince(log, from) <==> NoPurgeSince(log[..n], from) && !log[n].Purging?;
    }
  }

  /** The entry a history leaves for key: the last value loaded for a Get that looked after the last purge, unless key was found missing since. */
  function Latest<V>(log: Log<V>, key: string): Option<Entry<V>> {
    if log == [] then None
    else
      var n := |log| - 1;
      match log[n]
      case Purging => None
      case Outcome(k, load, at, looked, _, _) =>
        if k == key && load.Missing? then None
        else if k == key && load.Found? && NoPurgeSince(log, looked) then Some(Entry(load.v, at))
        else Latest(log[..n], key)
  }

  /** Outcome p is a current value of key: its Get looked after every purge so far. */
  ghost predicate Current<V>(log: Log<V>, key: string, p: nat) {
    p < |log| && log[p].Outcome? && log[p].key == key && log[p].load.Found? && NoPurgeSince(log, log[p].looked)
  }

  ghost predicate FoundMissing<V>(log: Log<V>, key: string, p: nat) {
    p < |log| && log[p].Outcome? && log[p].key == key && log[p].load.Missing?
  }

  /** Outcome p provides the entry e of key: it is the last current one and no definitive miss came after it. */
  ghost predicate Provides<V>(log: Log<V>, key: string, e: Entry<V>, p: nat) {
    && Current(log, key, p)
    && e == Entry(log[p].load.v, log[p].at)
    && forall q :: p < q < |log| ==> !Current(log, key, q) && !FoundMissing(log, key, q)
  }

  /** Outcomes name only what came before them, and a load does not begin before its Get. */
  ghost predicate Sensible<V>(log: Log<V>) {
    forall p :: 0 <= p < |log| && log[p].Outcome? ==>
      log[p].looked <= log[p].started <= p && log[p].at <= log[p].begun
  }

  lemma {:induction false} NoPurgeMore<V>(log: Log<V>, e: Event<V>, from: nat)
    requires from <= |log|
    ensures NoPurgeSince(log + [e], from) <==> NoPurgeSince(log, from) && !e.Purging?
  {
    var more := log + [e];
    assert more[|log|] == e;
    assert forall p :: 0 <= p < |log| ==> more[p] == log[p];
  }

  lemma {:induction false} ProvidesMore<V(!new)>(log: Log<V>, e: Event<V>, key: string, entry: Entry<V>, p: nat)
    requires Sensible(log + [e]) && e.Outcome? && p < |log|
    requires !Current(log + [e], key, |log|) && !FoundMissing(log + [e], key, |log|)
    ensures Provides(log + [e], key, entry, p) <==> Provides(log, key, entry, p)
  {
    var more := log + [e];
    forall q: nat | q < |log| ensures more[q] == log[q] && (Current(more, key, q) <==> Current(log, key, q)) {
      if log[q].Outcome? {
        assert more[q].looked <= q;
        NoPurgeMore(log, e, log[q].looked);
      }
    }
    assert forall q: nat :: q < |log| ==> (FoundMissing(more, key, q) <==> FoundMissing(log, key, q));
  }

  lemma {:induction false} NothingAfterPurge<V(!new)>(log: Log<V>, key: string, p: nat)
    requires Sensible(log) && log != [] && log[|log| - 1].Purging?
    ensures !Current(log, key, p)
  {
    if p < |log| && log[p].Outcome? {
      assert log[p].looked <= |log| - 1;
    }
  }

  /** Latest, said without recursion. */
  lemma {:induction false} LatestProvides<V(!new)>(log: Log<V>, key: string, entry: Entry<V>)
    requires Sensible(log)
    ensures Latest(log, key) == Some(entry) <==> exists p: nat :: Provides(log, key, entry, p)
    decreases |log|
  {
    if log != [] {
      var n := |log| - 1;
      var front, e := log[..n], log[n];
      assert log == front + [e];
      if e.Purging? {
        forall p: nat ensures !Provides(log, key, entry, p) {
          NothingAfterPurge(log, key, p);
        }
      } else if FoundMissing(log, key, n) {
        assert forall p: nat :: !Provides(log, key, entry, p);
      } else if Current(log, key, n) {
        assert Latest(log, key) == Some(entry) <==> Provides(log, key, entry, n);
        assert forall p: nat :: p < n ==> !Provides(log, key, entry, p);
      } else {
        LatestProvides(front, key, entry);
        forall p: nat ensures Provides(log, key, entry, p) <==> Provides(front, key, entry, p) {
          if p < n {
            ProvidesMore(front, e, key, entry, p);
          }
        }
      }
    }
  }

  // ---------- invariants ----------

  /** What a Get remembers is what the history was when it looked. */
  ghost predicate GetSound<V(!new)>(s: System<V>, get: Get<V>) {
    && get.looked <= |s.log|
    && get.now <= s.clock
    && get.gen == Purges(s.log[..get.looked])
    && get.saw == Latest(s.log[..get.looked], get.key)
  }

  ghost predicate FlightSound<V(!new)>(s: System<V>, flight: Flight<V>) {
    && flight.leader < |s.gets|
    && s.gets[flight.leader].key == flight.key
    && s.gets[flight.leader].now <= flight.begun <= s.clock
    && s.gets[flight.leader].looked <= flight.started <= |s.log|
  }

  /** The entries are what the history leaves. */
  ghost predicate ShelfSound<V(!new)>(s: System<V>) {
    && s.shelf.gen == Purges(s.log)
    && forall key :: Lookup(s.shelf.entries, key) == Latest(s.log, key)
  }

  /** An answer not loaded for this Get was its own look's entry, young enough then; if stale, nothing was purged before it was served. */
  ghost predicate AnswerSound<V>(log: Log<V>, get: Get<V>, o: Options) {
    match get.phase
    case Asking(usable) => usable <==> get.saw.Some? && get.now - get.saw.value.at < o.maxStale
    case Waiting(usable, _) => usable <==> get.saw.Some? && get.now - get.saw.value.at < o.maxStale
    case Done(Cached(v)) => get.saw.Some? && v == get.saw.value.v && get.now - get.saw.value.at < Max(o.ttl, o.maxStale)
    case Done(Stale(v, ended)) =>
      && get.saw.Some? && v == get.saw.value.v && get.now - get.saw.value.at < o.maxStale
      && get.looked <= ended <= |log| && NoPurgeSince(log[..ended], get.looked)
    case _ => true
  }

  ghost predicate Sound<V(!new)>(s: System<V>, o: Options) {
    && Sensible(s.log)
    && ShelfSound(s)
    && (forall i :: 0 <= i < |s.gets| ==> GetSound(s, s.gets[i]) && AnswerSound(s.log, s.gets[i], o))
    && (forall i :: 0 <= i < |s.flights| ==> FlightSound(s, s.flights[i]))
  }

  /** The rest of a system still holds when only its log and clock grow. */
  lemma {:induction false} GetStaysSound<V(!new)>(s: System<V>, s': System<V>, get: Get<V>, o: Options)
    requires GetSound(s, get) && AnswerSound(s.log, get, o)
    requires |s.log| <= |s'.log| && s'.log[..|s.log|] == s.log && s.clock <= s'.clock
    ensures GetSound(s', get) && AnswerSound(s'.log, get, o)
  {
    assert s'.log[..get.looked] == s.log[..get.looked];
    if get.phase.Done? && get.phase.answer.Stale? {
      assert s'.log[..get.phase.answer.ended] == s.log[..get.phase.answer.ended];
    }
  }

  lemma {:induction false} SensiblePurge<V>(log: Log<V>)
    requires Sensible(log)
    ensures Sensible(log + [Purging])
  {
    var more := log + [Purging];
    assert forall p :: 0 <= p < |log| ==> more[p] == log[p];
  }

  lemma {:induction false} PurgeLeavesNothing<V>(log: Log<V>, key: string)
    ensures Purges(log + [Purging]) == Purges(log) + 1 && Latest(log + [Purging], key) == None
  {
    assert (log + [Purging])[..|log|] == log;
  }

  function Purged<V>(s: System<V>): System<V> {
    s.(shelf := Emptied(s.shelf), log := s.log + [Purging])
  }

  lemma {:induction false} PurgeKeepsShelf<V(!new)>(s: System<V>)
    requires ShelfSound(s)
    ensures ShelfSound(Purged(s))
  {
    PurgeLeavesNothing(s.log, "");
    forall key ensures Lookup(Purged(s).shelf.entries, key) == Latest(Purged(s).log, key) {
      PurgeLeavesNothing(s.log, key);
    }
  }

  lemma {:induction false} PurgeKeepsGet<V(!new)>(s: System<V>, get: Get<V>, o: Options)
    requires GetSound(s, get) && AnswerSound(s.log, get, o)
    ensures GetSound(Purged(s), get) && AnswerSound(Purged(s).log, get, o)
  {
    assert Purged(s).log[..|s.log|] == s.log;
    GetStaysSound(s, Purged(s), get, o);
  }

  lemma {:induction false} PurgeKeepsFlight<V(!new)>(s: System<V>, flight: Flight<V>)
    requires FlightSound(s, flight)
    ensures FlightSound(Purged(s), flight)
  {
  }

  lemma {:induction false} PurgeKeepsSound<V(!new)>(s: System<V>, o: Options)
    requires Sound(s, o)
    ensures Sound(Purged(s), o)
  {
    SensiblePurge(s.log);
    PurgeKeepsShelf(s);
    forall i | 0 <= i < |s.gets| ensures GetSound(Purged(s), s.gets[i]) && AnswerSound(Purged(s).log, s.gets[i], o) {
      PurgeKeepsGet(s, s.gets[i], o);
    }
    forall i | 0 <= i < |s.flights| ensures FlightSound(Purged(s), s.flights[i]) {
      PurgeKeepsFlight(s, s.flights[i]);
    }
  }

  lemma {:induction false} LookKeepsSound<V(!new)>(s: System<V>, key: string, now: int, o: Options)
    requires Sound(s, o) && now <= s.clock
    ensures Sound(Looking(s, o, key, now), o)
  {
    var s' := Looking(s, o, key, now);
    assert s.log[..|s.log|] == s.log;
    forall i | 0 <= i < |s'.gets| ensures GetSound(s', s'.gets[i]) && AnswerSound(s'.log, s'.gets[i], o) {
      if i < |s.gets| {
        GetStaysSound(s, s', s.gets[i], o);
      } else {
        assert Lookup(s.shelf.entries, key) == Latest(s.log, key);
      }
    }
    assert forall i :: 0 <= i < |s'.flights| ==> FlightSound(s, s'.flights[i]);
  }

  lemma {:induction false} FlyKeepsSound<V(!new)>(s: System<V>, g: nat, o: Options)
    requires Sound(s, o) && Enabled(s, Fly(g))
    ensures Sound(Flying(s, g), o)
  {
    var s' := Flying(s, g);
    forall i | 0 <= i < |s'.gets| ensures GetSound(s', s'.gets[i]) && AnswerSound(s'.log, s'.gets[i], o) {
      assert GetSound(s, s.gets[i]) && AnswerSound(s.log, s.gets[i], o);
    }
    forall i | 0 <= i < |s'.flights| ensures FlightSound(s', s'.flights[i]) {
      assert GetSound(s, s.gets[g]);
      assert i < |s.flights| ==> FlightSound(s, s.flights[i]);
    }
  }

  /** What one more outcome leaves for a key. */
  lemma {:induction false} LatestMore<V>(log: Log<V>, e: Event<V>, key: string)
    requires e.Outcome? && e.looked <= |log|
    ensures Latest(log + [e], key) ==
      if e.key == key && e.load.Missing? then None
      else if e.key == key && e.load.Found? && NoPurgeSince(log, e.looked) then Some(Entry(e.load.v, e.at))
      else Latest(log, key)
  {
    assert (log + [e])[..|log|] == log;
    NoPurgeMore(log, e, e.looked);
  }

  lemma {:induction false} SensibleMore<V>(log: Log<V>, e: Event<V>)
    requires Sensible(log) && e.Outcome? && e.looked <= e.started <= |log| && e.at <= e.begun
    ensures Sensible(log + [e])
  {
    assert forall p :: 0 <= p < |log| ==> (log + [e])[p] == log[p];
  }

  lemma {:induction false} PurgesMore<V>(log: Log<V>, e: Event<V>)
    requires e.Outcome?
    ensures Purges(log + [e]) == Purges(log)
  {
    assert (log + [e])[..|log|] == log;
  }

  lemma {:induction false} SettleKeepsShelf<V(!new)>(s: System<V>, f: nat, load: Load<V>, o: Options)
    requires Sound(s, o) && Enabled(s, Finish(f, load))
    ensures ShelfSound(Finishing(s, f, load)) && Sensible(Finishing(s, f, load).log)
  {
    var flight := s.flights[f];
    var lead := s.gets[flight.leader];
    assert FlightSound(s, flight) && GetSound(s, lead);
    var e := Outcome(flight.key, load, lead.now, lead.looked, flight.started, flight.begun);
    SensibleMore(s.log, e);
    PurgesMore(s.log, e);
    PurgesCount(s.log, lead.looked);
    var entries := Settled(s.shelf, flight.key, lead.gen, lead.now, load).entries;
    forall key ensures Lookup(entries, key) == Latest(s.log + [e], key) {
      assert Lookup(s.shelf.entries, key) == Latest(s.log, key);
      LatestMore(s.log, e, key);
    }
  }

  lemma {:induction false} FinishKeepsSound<V(!new)>(s: System<V>, f: nat, load: Load<V>, o: Options)
    requires Sound(s, o) && Enabled(s, Finish(f, load))
    ensures Sound(Finishing(s, f, load), o)
  {
    var s' := Finishing(s, f, load);
    SettleKeepsShelf(s, f, load, o);
    assert s'.log[..|s.log|] == s.log;
    forall i | 0 <= i < |s'.gets| ensures GetSound(s', s'.gets[i]) && AnswerSound(s'.log, s'.gets[i], o) {
      GetStaysSound(s, s', s.gets[i], o);
    }
    forall i | 0 <= i < |s'.flights| ensures FlightSound(s', s'.flights[i]) {
      assert FlightSound(s, s.flights[i]);
    }
  }

  lemma {:induction false} ReturnKeepsSound<V(!new)>(s: System<V>, g: nat, o: Options)
    requires Sound(s, o) && Enabled(s, Return(g))
    ensures Sound(Returning(s, g), o)
  {
    var s' := Returning(s, g);
    var get := s.gets[g];
    assert GetSound(s, get) && AnswerSound(s.log, get, o);
    PurgesCount(s.log, get.looked);
    assert s.log[..|s.log|] == s.log;
    forall i | 0 <= i < |s'.gets| ensures GetSound(s', s'.gets[i]) && AnswerSound(s'.log, s'.gets[i], o) {
      assert GetSound(s, s.gets[i]) && AnswerSound(s.log, s.gets[i], o);
    }
    forall i | 0 <= i < |s'.flights| ensures FlightSound(s', s'.flights[i]) {
      assert FlightSound(s, s.flights[i]);
    }
  }

  lemma {:induction false} OtherStepsKeepSound<V(!new)>(s: System<V>, e: Step<V>, o: Options)
    requires Sound(s, o) && Enabled(s, e)
    requires e.Tick? || e.Leave? || e.Cancel?
    ensures Sound(Next(s, e, o), o)
  {
    var s' := Next(s, e, o);
    assert forall i :: 0 <= i < |s'.gets| ==> GetSound(s, s.gets[i]) && AnswerSound(s.log, s.gets[i], o);
    forall i | 0 <= i < |s'.flights| ensures FlightSound(s', s'.flights[i]) {
      assert FlightSound(s, s.flights[i]);
    }
  }

  lemma {:induction false} StepKeepsSound<V(!new)>(s: System<V>, e: Step<V>, o: Options)
    requires Sound(s, o) && Enabled(s, e)
    ensures Sound(Next(s, e, o), o)
  {
    match e
    case Look(key, now) => LookKeepsSound(s, key, now, o);
    case Fly(g) => FlyKeepsSound(s, g, o);
    case Finish(f, load) => FinishKeepsSound(s, f, load, o);
    case Return(g) => ReturnKeepsSound(s, g, o);
    case Purge => PurgeKeepsSound(s, o);
    case _ => OtherStepsKeepSound(s, e, o);
  }

  lemma {:induction false} RunIsSound<V(!new)>(ss: seq<System<V>>, es: seq<Step<V>>, o: Options, i: nat)
    requires IsRun(ss, es, o) && i < |ss|
    ensures Sound(ss[i], o)
  {
    if i > 0 {
      RunIsSound(ss, es, o, i - 1);
      StepKeepsSound(ss[i - 1], es[i - 1], o);
    }
  }

  // ---------- what every run guarantees ----------

  /**
   In every interleaving, an entry is held exactly when some load provides it: the last
   successful one whose Get looked, and which started, after every purge, with no definitive
   miss of the key since. Its timestamp is not later than that load's start.
   */
  lemma {:induction false} EveryEntryIsCurrent<V(!new)>(ss: seq<System<V>>, es: seq<Step<V>>, o: Options, i: nat, key: string, entry: Entry<V>)
    requires IsRun(ss, es, o) && i < |ss|
    ensures (key in ss[i].shelf.entries && ss[i].shelf.entries[key] == entry) <==> exists p: nat :: Provides(ss[i].log, key, entry, p)
    ensures forall p: nat :: Provides(ss[i].log, key, entry, p) ==>
              NoPurgeSince(ss[i].log, ss[i].log[p].started) && entry.at <= ss[i].log[p].begun
  {
    RunIsSound(ss, es, o, i);
    assert Lookup(ss[i].shelf.entries, key) == Latest(ss[i].log, key);
    LatestProvides(ss[i].log, key, entry);
  }

  /** In every interleaving, an answer served without a successful load was younger than max(TTL, MaxStale) when its Get began, and came from the entry the history left when that Get looked. */
  lemma {:induction false} UnloadedAnswersAreYoung<V(!new)>(ss: seq<System<V>>, es: seq<Step<V>>, o: Options, i: nat, g: nat)
    requires IsRun(ss, es, o) && i < |ss| && g < |ss[i].gets|
    ensures var get := ss[i].gets[g];
      get.phase.Done? && (get.phase.answer.Cached? || get.phase.answer.Stale?) ==>
        && get.looked <= |ss[i].log|
        && exists e :: Latest(ss[i].log[..get.looked], get.key) == Some(e) && get.phase.answer.v == e.v && get.now - e.at < Max(o.ttl, o.maxStale)
  {
    RunIsSound(ss, es, o, i);
    var get := ss[i].gets[g];
    assert GetSound(ss[i], get) && AnswerSound(ss[i].log, get, o);
  }

  /** In every interleaving, a stale answer is never served across a purge. */
  lemma {:induction false} NoStaleAnswerAcrossPurge<V(!new)>(ss: seq<System<V>>, es: seq<Step<V>>, o: Options, i: nat, g: nat)
    requires IsRun(ss, es, o) && i < |ss| && g < |ss[i].gets|
    ensures var get := ss[i].gets[g];
      get.phase.Done? && get.phase.answer.Stale? ==>
        get.phase.answer.ended <= |ss[i].log| && NoPurgeSince(ss[i].log[..get.phase.answer.ended], get.looked)
  {
    RunIsSound(ss, es, o, i);
    var get := ss[i].gets[g];
    assert AnswerSound(ss[i].log, get, o);
  }

  // ---------- when an entry is served ----------

  /** Step b let a Get fall back on its old entry after a refresh without an answer. */
  ghost predicate FellBack<V(!new)>(ss: seq<System<V>>, es: seq<Step<V>>, b: nat)
    requires |ss| == |es| + 1
  {
    && b < |es| && es[b].Return? && es[b].g < |ss[b + 1].gets|
    && ss[b + 1].gets[es[b].g].phase.Done? && ss[b + 1].gets[es[b].g].phase.answer.Stale?
  }

  /** That began a backoff which lasts beyond now, and nothing was purged between it and step i. */
  ghost predicate BacksOff<V(!new)>(ss: seq<System<V>>, es: seq<Step<V>>, b: nat, i: nat, now: int)
    requires |ss| == |es| + 1 && i <= |es|
  {
    b < i && FellBack(ss, es, b) && now < ss[b].clock + 5_000 && forall p :: b < p < i ==> !es[p].Purge?
  }

  /** A backoff is running at step i for a Get that began at now. */
  ghost predicate BackedOff<V(!new)>(ss: seq<System<V>>, es: seq<Step<V>>, i: nat, now: int)
    requires |ss| == |es| + 1 && i <= |es|
  {
    exists b: nat :: BacksOff(ss, es, b, i, now)
  }

  lemma {:induction false} ClockMoves<V(!new)>(ss: seq<System<V>>, es: seq<Step<V>>, o: Options, b: nat, i: nat)
    requires IsRun(ss, es, o) && b <= i < |ss|
    ensures ss[b].clock <= ss[i].clock
    decreases i
  {
    if b < i {
      ClockMoves(ss, es, o, b, i - 1);
      assert Enabled(ss[i - 1], es[i - 1]);
    }
  }

  /** What a step does to the backoff. */
  lemma {:induction false} BackoffStep<V(!new)>(s: System<V>, e: Step<V>, o: Options)
    requires Enabled(s, e)
    ensures var s' := Next(s, e, o);
      s'.shelf.quietUntil ==
        if e.Purge? then 0
        else if e.Return? && s'.gets[e.g].phase.answer.Stale? then s.clock + BACKOFF
        else s.shelf.quietUntil
  {
  }

  lemma {:induction false} BacksOffNext<V(!new)>(ss: seq<System<V>>, es: seq<Step<V>>, b: nat, i: nat, now: int)
    requires |ss| == |es| + 1 && b < i < |es|
    ensures BacksOff(ss, es, b, i + 1, now) <==> BacksOff(ss, es, b, i, now) && !es[i].Purge?
  {
  }

  lemma {:induction false} BackedOffNext<V(!new)>(ss: seq<System<V>>, es: seq<Step<V>>, i: nat, now: int)
    requires |ss| == |es| + 1 && i < |es|
    ensures BackedOff(ss, es, i + 1, now) <==>
      (FellBack(ss, es, i) && now < ss[i].clock + 5_000) || (!es[i].Purge? && BackedOff(ss, es, i, now))
  {
    if BackedOff(ss, es, i + 1, now) {
      var b: nat :| BacksOff(ss, es, b, i + 1, now);
      if b < i {
        BacksOffNext(ss, es, b, i, now);
      }
    }
    if FellBack(ss, es, i) && now < ss[i].clock + 5_000 {
      assert BacksOff(ss, es, i, i + 1, now);
    }
    if !es[i].Purge? && BackedOff(ss, es, i, now) {
      var b: nat :| BacksOff(ss, es, b, i, now);
      BacksOffNext(ss, es, b, i, now);
    }
  }

  lemma {:induction false} LaterBackoffLasts<V(!new)>(ss: seq<System<V>>, es: seq<Step<V>>, o: Options, i: nat, now: int)
    requires IsRun(ss, es, o) && i < |es| && BackedOff(ss, es, i, now)
    ensures now < ss[i].clock + 5_000
  {
    var b: nat :| BacksOff(ss, es, b, i, now);
    ClockMoves(ss, es, o, b, i);
  }

  /** quietUntil by the history: now lies before it exactly when a backoff is running. */
  lemma {:induction false} QuietExactly<V(!new)>(ss: seq<System<V>>, es: seq<Step<V>>, o: Options, i: nat, now: nat)
    requires IsRun(ss, es, o) && i < |ss|
    ensures now < ss[i].shelf.quietUntil <==> BackedOff(ss, es, i, now)
    decreases i
  {
    if i > 0 {
      QuietExactly(ss, es, o, i - 1, now);
      BackedOffNext(ss, es, i - 1, now);
      assert Enabled(ss[i - 1], es[i - 1]) && ss[i] == Next(ss[i - 1], es[i - 1], o);
      BackoffStep(ss[i - 1], es[i - 1], o);
      if BackedOff(ss, es, i - 1, now) {
        LaterBackoffLasts(ss, es, o, i - 1, now);
      }
    }
  }

  /** The Get that looked at step i, at time now, found an entry it must serve. */
  ghost predicate MustServe<V(!new)>(ss: seq<System<V>>, es: seq<Step<V>>, o: Options, i: nat, now: int, e: Option<Entry<V>>)
    requires |ss| == |es| + 1 && i <= |es|
  {
    e.Some? && (now - e.value.at < o.ttl || (now - e.value.at < o.maxStale && BackedOff(ss, es, i, now)))
  }

  lemma {:induction false} ServedAtLook<V(!new)>(ss: seq<System<V>>, es: seq<Step<V>>, o: Options, i: nat)
    requires IsRun(ss, es, o) && i < |es| && es[i].Look?
    ensures var e, now, g := Latest(ss[i].log, es[i].key), es[i].now, |ss[i].gets|;
      && |ss[i + 1].gets| == g + 1 && ss[i + 1].gets[g].now == now && ss[i + 1].gets[g].key == es[i].key && ss[i + 1].gets[g].looked == |ss[i].log|
      && ss[i + 1].gets[g].phase ==
           if MustServe(ss, es, o, i, now, e) then Done(Cached(e.value.v))
           else Asking(e.Some? && now - e.value.at < o.maxStale)
  {
    assert Enabled(ss[i], es[i]) && ss[i + 1] == Next(ss[i], es[i], o);
    RunIsSound(ss, es, o, i);
    assert Lookup(ss[i].shelf.entries, es[i].key) == Latest(ss[i].log, es[i].key);
    QuietExactly(ss, es, o, i, es[i].now);
  }

  /** A Get answered from the shelf stays so, and one that went to ask is never answered that way. */
  lemma {:induction false} ServedForGood<V(!new)>(ss: seq<System<V>>, es: seq<Step<V>>, o: Options, i: nat, n: nat, g: nat)
    requires IsRun(ss, es, o) && i <= n < |ss| && g < |ss[i].gets|
    ensures g < |ss[n].gets| && ss[n].gets[g].(phase := ss[i].gets[g].phase) == ss[i].gets[g]
    ensures ss[i].gets[g].phase.Done? ==> ss[n].gets[g] == ss[i].gets[g]
    ensures !ss[i].gets[g].phase.Done? && ss[n].gets[g].phase.Done? ==> !ss[n].gets[g].phase.answer.Cached?
    decreases n
  {
    if i < n {
      ServedForGood(ss, es, o, i, n - 1, g);
      assert Enabled(ss[n - 1], es[n - 1]) && ss[n] == Next(ss[n - 1], es[n - 1], o);
    }
  }

  /**
   In every interleaving, exactly when a Get is answered by the entry the history left when it looked, and then waits for no load and
   starts none: when that entry is younger than TTL, or younger than MaxStale during the backoff after a refresh that got no answer,
   unless a purge ended it. Every other Get asks, and is never answered from the shelf.
   */
  lemma {:induction false} ServedExactly<V(!new)>(ss: seq<System<V>>, es: seq<Step<V>>, o: Options, i: nat, n: nat)
    requires IsRun(ss, es, o) && i < n < |ss| && es[i].Look?
    ensures var e, g := Latest(ss[i].log, es[i].key), |ss[i].gets|;
      && g < |ss[n].gets| && ss[n].gets[g].key == es[i].key && ss[n].gets[g].now == es[i].now && ss[n].gets[g].looked == |ss[i].log|
      && (if MustServe(ss, es, o, i, es[i].now, e)
          then ss[n].gets[g].phase == Done(Cached(e.value.v)) && LoadOf(ss[n].gets[g]).None?
          else ss[n].gets[g].phase.Done? ==> !ss[n].gets[g].phase.answer.Cached?)
  {
    ServedAtLook(ss, es, o, i);
    ServedForGood(ss, es, o, i + 1, n, |ss[i].gets|);
  }

  /** Every Get looked at some step, so the above is about all of them. */
  lemma {:induction false} EveryGetLooked<V(!new)>(ss: seq<System<V>>, es: seq<Step<V>>, o: Options, n: nat, g: nat) returns (i: nat)
    requires IsRun(ss, es, o) && n < |ss| && g < |ss[n].gets|
    ensures i < n && es[i].Look? && |ss[i].gets| == g
  {
    assert n > 0;
    assert Enabled(ss[n - 1], es[n - 1]) && ss[n] == Next(ss[n - 1], es[n - 1], o);
    if g < |ss[n - 1].gets| {
      i := EveryGetLooked(ss, es, o, n - 1, g);
    } else {
      i := n - 1;
    }
  }

  /**
   In every interleaving, exactly when a Get whose load ended falls back: when the load got no answer, the entry its look found was younger
   than MaxStale, and nothing was purged since. Otherwise it returns what the load returned.
   */
  lemma {:induction false} FallsBackExactly<V(!new)>(ss: seq<System<V>>, es: seq<Step<V>>, o: Options, i: nat, g: nat)
    requires IsRun(ss, es, o) && i < |es| && es[i] == Return(g)
    ensures ss[i].gets[g].looked <= |ss[i].log|
    ensures var s, get := ss[i], ss[i].gets[g];
      var load, e := s.flights[get.phase.flight].result.value, Latest(s.log[..get.looked], get.key);
      && g < |ss[i + 1].gets|
      && ss[i + 1].gets[g].phase ==
           if load.Failed? && e.Some? && get.now - e.value.at < o.maxStale && NoPurgeSince(s.log, get.looked)
           then Done(Stale(e.value.v, |s.log|)) else Done(Loaded(load, get.phase.flight))
  {
    var s, get := ss[i], ss[i].gets[g];
    RunIsSound(ss, es, o, i);
    assert GetSound(s, get) && AnswerSound(s.log, get, o);
    PurgesCount(s.log, get.looked);
    assert ss[i + 1] == Returning(s, g);
  }

  // ---------- shared loads ----------

  ghost predicate GroupSound<V(!new)>(s: System<V>) {
    && (forall key <- s.group :: s.group[key] < |s.flights| && s.flights[s.group[key]].key == key)
    && (forall f :: 0 <= f < |s.flights| && s.flights[f].result.None? ==>
          s.flights[f].key in s.group && s.group[s.flights[f].key] == f)
  }

  /** A Get waits for, and is answered by, a load of its own key. */
  ghost predicate OwnKey<V>(s: System<V>, get: Get<V>) {
    match get.phase
    case Waiting(_, f) => f < |s.flights| && s.flights[f].key == get.key
    case Done(Loaded(load, f)) => f < |s.flights| && s.flights[f].key == get.key && s.flights[f].result == Some(load)
    case _ => true
  }

  ghost predicate Shared<V(!new)>(s: System<V>) {
    GroupSound(s) && forall i :: 0 <= i < |s.gets| ==> OwnKey(s, s.gets[i])
  }

  lemma {:induction false} FlyKeepsShared<V(!new)>(s: System<V>, g: nat)
    requires Shared(s) && Enabled(s, Fly(g))
    ensures Shared(Flying(s, g))
  {
    var s' := Flying(s, g);
    forall i | 0 <= i < |s'.gets| ensures OwnKey(s', s'.gets[i]) {
      assert OwnKey(s, s.gets[i]);
    }
  }

  lemma {:induction false} FinishKeepsShared<V(!new)>(s: System<V>, f: nat, load: Load<V>)
    requires Shared(s) && Enabled(s, Finish(f, load))
    ensures Shared(Finishing(s, f, load))
  {
    var s' := Finishing(s, f, load);
    forall i | 0 <= i < |s'.gets| ensures OwnKey(s', s'.gets[i]) {
      assert OwnKey(s, s.gets[i]);
    }
  }

  lemma {:induction false} StepKeepsShared<V(!new)>(s: System<V>, e: Step<V>, o: Options)
    requires Shared(s) && Enabled(s, e)
    ensures Shared(Next(s, e, o))
  {
    match e
    case Fly(g) => FlyKeepsShared(s, g);
    case Finish(f, load) => FinishKeepsShared(s, f, load);
    case _ =>
      var s' := Next(s, e, o);
      forall i | 0 <= i < |s'.gets| ensures OwnKey(s', s'.gets[i]) {
        assert i < |s.gets| ==> OwnKey(s, s.gets[i]);
      }
  }

  lemma {:induction false} RunIsShared<V(!new)>(ss: seq<System<V>>, es: seq<Step<V>>, o: Options, i: nat)
    requires IsRun(ss, es, o) && i < |ss|
    ensures Shared(ss[i])
  {
    if i > 0 {
      RunIsShared(ss, es, o, i - 1);
      StepKeepsShared(ss[i - 1], es[i - 1], o);
    }
  }

  /** In every interleaving at most one load of a key is under way. */
  lemma {:induction false} OneLoadAtATime<V(!new)>(ss: seq<System<V>>, es: seq<Step<V>>, o: Options, i: nat, f: nat, h: nat)
    requires IsRun(ss, es, o) && i < |ss|
    requires f < |ss[i].flights| && h < |ss[i].flights| && ss[i].flights[f].key == ss[i].flights[h].key
    requires ss[i].flights[f].result.None? && ss[i].flights[h].result.None?
    ensures f == h
  {
    RunIsShared(ss, es, o, i);
  }

  // ---------- loads and purges ----------

  /** The load a Get waits for or was answered by. */
  function LoadOf<V>(get: Get<V>): Option<nat> {
    match get.phase
    case Waiting(_, f) => Some(f)
    case Done(Loaded(_, f)) => Some(f)
    case _ => None
  }

  /** What later states keep of a Get that has joined load f or started it. */
  ghost predicate Keeps<V>(s: System<V>, s': System<V>, g: nat, f: nat) {
    && g < |s.gets| <= |s'.gets| && f < |s.flights| <= |s'.flights|
    && s'.gets[g].key == s.gets[g].key && s'.gets[g].looked == s.gets[g].looked
    && s'.flights[f].started == s.flights[f].started
    && (!s.gets[g].phase.Asking? ==> !s'.gets[g].phase.Asking? && (LoadOf(s'.gets[g]).Some? ==> LoadOf(s'.gets[g]) == LoadOf(s.gets[g])))
  }

  lemma {:induction false} StepKeeps<V(!new)>(s: System<V>, e: Step<V>, o: Options, g: nat, f: nat)
    requires Enabled(s, e) && g < |s.gets| && f < |s.flights|
    ensures Keeps(s, Next(s, e, o), g, f)
  {
  }

  lemma {:induction false} OneStepKeeps<V(!new)>(ss: seq<System<V>>, es: seq<Step<V>>, o: Options, g: nat, f: nat, i: nat)
    requires IsRun(ss, es, o) && i < |es| && g < |ss[i].gets| && f < |ss[i].flights|
    ensures Keeps(ss[i], ss[i + 1], g, f)
  {
    StepKeeps(ss[i], es[i], o, g, f);
  }

  lemma {:induction false} RunKeeps<V(!new)>(ss: seq<System<V>>, es: seq<Step<V>>, o: Options, g: nat, f: nat, i: nat, n: nat)
    requires IsRun(ss, es, o) && i <= n < |ss| && g < |ss[i].gets| && f < |ss[i].flights|
    ensures Keeps(ss[i], ss[n], g, f)
    decreases n
  {
    if i < n {
      RunKeeps(ss, es, o, g, f, i, n - 1);
      OneStepKeeps(ss, es, o, g, f, n - 1);
      KeepsOn(ss[i], ss[n - 1], ss[n], g, f);
    }
  }

  lemma {:induction false} KeepsOn<V>(r: System<V>, s: System<V>, t: System<V>, g: nat, f: nat)
    requires Keeps(r, s, g, f) && Keeps(s, t, g, f)
    ensures Keeps(r, t, g, f)
  {
  }

  /** Whether a load of key begun no later than history place p can still be joined. */
  predicate OldLoadJoinable<V>(s: System<V>, key: string, p: nat) {
    key in s.group && s.group[key] < |s.flights| && s.flights[s.group[key]].started <= p
  }

  /**
   Exactly when a Get that looked after a purge at p is answered by a load begun before it: when such a load of its key
   could still be joined at the moment the Get went for one.
   */
  lemma {:induction false} AnsweredFromBeforePurgeExactly<V(!new)>(ss: seq<System<V>>, es: seq<Step<V>>, o: Options, i: nat, n: nat, g: nat, p: nat)
    requires IsRun(ss, es, o) && i < n < |ss| && es[i] == Fly(g)
    requires g < |ss[i].gets| && p < ss[i].gets[g].looked
    requires g < |ss[n].gets| && LoadOf(ss[n].gets[g]).Some?
    ensures var f := LoadOf(ss[n].gets[g]).value;
      f < |ss[n].flights| && (ss[n].flights[f].started <= p <==> OldLoadJoinable(ss[i], ss[i].gets[g].key, p))
  {
    var s, s' := ss[i], ss[i + 1];
    RunIsSound(ss, es, o, i);
    RunIsShared(ss, es, o, i);
    assert GetSound(s, s.gets[g]);
    assert s' == Flying(s, g);
    var f := LoadOf(s'.gets[g]).value;
    RunKeeps(ss, es, o, g, f, i + 1, n);
  }

  /** Since place p of the history every load of key that can be joined, or that a Get looking later got, began after p. */
  ghost predicate FreshSince<V>(s: System<V>, key: string, p: nat) {
    && p < |s.log|
    && (key in s.group ==> s.group[key] < |s.flights| && s.flights[s.group[key]].started > p)
    && (forall g :: 0 <= g < |s.gets| && s.gets[g].key == key && s.gets[g].looked > p && LoadOf(s.gets[g]).Some? ==>
          LoadOf(s.gets[g]).value < |s.flights| && s.flights[LoadOf(s.gets[g]).value].started > p)
  }

  lemma {:induction false} StepKeepsFresh<V(!new)>(s: System<V>, e: Step<V>, o: Options, key: string, p: nat)
    requires Enabled(s, e) && FreshSince(s, key, p)
    ensures FreshSince(Next(s, e, o), key, p)
  {
    var s' := Next(s, e, o);
    forall g | 0 <= g < |s'.gets| && s'.gets[g].key == key && s'.gets[g].looked > p && LoadOf(s'.gets[g]).Some?
      ensures LoadOf(s'.gets[g]).value < |s'.flights| && s'.flights[LoadOf(s'.gets[g]).value].started > p
    {
      assert g < |s.gets| && s.gets[g].key == key && s.gets[g].looked > p;
      if !(e.Fly? && e.g == g) {
        assert LoadOf(s.gets[g]) == LoadOf(s'.gets[g]);
      }
    }
  }

  lemma {:induction false} FreshFromPurge<V(!new)>(ss: seq<System<V>>, es: seq<Step<V>>, o: Options, j: nat, n: nat, key: string)
    requires IsRun(ss, es, o) && j < n < |ss| && es[j] == Purge && key !in ss[j].group
    ensures FreshSince(ss[n], key, |ss[j].log|)
    decreases n
  {
    if n == j + 1 {
      RunIsSound(ss, es, o, j);
      var s, s' := ss[j], ss[j + 1];
      forall g | 0 <= g < |s'.gets| ensures s'.gets[g].looked <= |s.log| {
        assert GetSound(s, s.gets[g]);
      }
    } else {
      FreshFromPurge(ss, es, o, j, n - 1, key);
      StepKeepsFresh(ss[n - 1], es[n - 1], o, key, |ss[j].log|);
    }
  }

  /** If no load of the key can be joined when a purge happens, every Get that looks after it is answered by a load begun after it. */
  lemma {:induction false} QuietPurgeIsSeen<V(!new)>(ss: seq<System<V>>, es: seq<Step<V>>, o: Options, j: nat, n: nat, g: nat)
    requires IsRun(ss, es, o) && j < n < |ss| && es[j] == Purge && g < |ss[n].gets|
    requires ss[n].gets[g].key !in ss[j].group && ss[n].gets[g].looked > |ss[j].log|
    requires LoadOf(ss[n].gets[g]).Some?
    ensures var f := LoadOf(ss[n].gets[g]).value; f < |ss[n].flights| && ss[n].flights[f].started > |ss[j].log|
  {
    FreshFromPurge(ss, es, o, j, n, ss[n].gets[g].key);
  }

  /** Exactly when a successful load is stored: when nothing was purged since the Get that led it looked. */
  lemma {:induction false} StoredExactly<V(!new)>(ss: seq<System<V>>, es: seq<Step<V>>, o: Options, i: nat, f: nat, v: V)
    requires IsRun(ss, es, o) && i < |es| && es[i] == Finish(f, Found(v))
    ensures var s, flight := ss[i], ss[i].flights[f];
      var lead := s.gets[flight.leader];
      ss[i + 1].shelf.entries ==
        if NoPurgeSince(s.log, lead.looked) then s.shelf.entries[flight.key := Entry(v, lead.now)] else s.shelf.entries
  {
    var s := ss[i];
    RunIsSound(ss, es, o, i);
    assert ss[i + 1] == Finishing(s, f, Found(v));
    var lead := s.gets[s.flights[f].leader];
    assert FlightSound(s, s.flights[f]) && GetSound(s, lead);
    PurgesCount(s.log, lead.looked);
  }

  // ---------- two things a run does not guarantee ----------

  ghost predicate RunTo<V(!new)>(ss: seq<System<V>>, es: seq<Step<V>>, o: Options, end: System<V>) {
    IsRun(ss, es, o) && ss[|es|] == end
  }

  lemma {:induction false} Advance<V(!new)>(ss: seq<System<V>>, es: seq<Step<V>>, o: Options, s: System<V>, e: Step<V>)
    returns (ss': seq<System<V>>, es': seq<Step<V>>)
    requires RunTo(ss, es, o, s) && Enabled(s, e)
    ensures RunTo(ss', es', o, Next(s, e, o)) && es' == es + [e]
  {
    ss', es' := ss + [Next(s, e, o)], es + [e];
  }

  lemma {:induction false} Begin<V(!new)>(o: Options) returns (ss: seq<System<V>>, es: seq<Step<V>>)
    ensures RunTo(ss, es, o, Start())
  {
    ss, es := [Start()], [];
  }

  /**
   An entry need not come from the latest successful load begun after the last purge: a Get that looked before
   the purge may start its load after it, and that load is not stored.
   */
  lemma {:induction false} StragglerIsNotStored<V(!new)>(o: Options, key: string, a: V, b: V)
    returns (ss: seq<System<V>>, es: seq<Step<V>>, end: System<V>)
    ensures RunTo(ss, es, o, end)
    ensures key in end.shelf.entries && end.shelf.entries[key] == Entry(b, 0)
    ensures end.log == [Purging, Outcome(key, Found(b), 0, 1, 1, 0), Outcome(key, Found(a), 0, 0, 2, 0)]
  {
    var early: Get<V> := Get(key, 0, 0, None, 0, Asking(false));
    var late: Get<V> := Get(key, 0, 1, None, 1, Asking(false));
    var waits: Get<V> := late.(phase := Waiting(false, 0));
    var flown: Flight<V> := Flight(key, 1, 1, 0, None);
    var landed: Flight<V> := flown.(result := Some(Found(b)));
    var second: Flight<V> := Flight(key, 0, 2, 0, None);
    var full: Shelf<V> := Shelf(map[key := Entry(b, 0)], 1, 0);
    var two: Log<V> := [Purging, Outcome(key, Found(b), 0, 1, 1, 0)];
    var s0: System<V> := Start();
    var s1: System<V> := s0.(gets := [early]);
    var s2: System<V> := s1.(shelf := Shelf(map[], 1, 0), log := [Purging]);
    var s3: System<V> := s2.(gets := [early, late]);
    var s4: System<V> := s3.(gets := [early, waits], flights := [flown], group := map[key := 0]);
    var s5: System<V> := s4.(shelf := full, log := two, flights := [landed]);
    var s6: System<V> := s5.(group := map[]);
    var s7: System<V> := s6.(gets := [early.(phase := Waiting(false, 1)), waits], flights := [landed, second], group := map[key := 1]);
    ss, es := Begin(o);
    ss, es := Advance(ss, es, o, s0, Look(key, 0));
    assert Next(s0, Look(key, 0), o) == s1;
    ss, es := Advance(ss, es, o, s1, Purge);
    assert Next(s1, Purge, o) == s2;
    ss, es := Advance(ss, es, o, s2, Look(key, 0));
    assert Next(s2, Look(key, 0), o) == s3;
    ss, es := Advance(ss, es, o, s3, Fly(1));
    assert Next(s3, Fly(1), o) == s4;
    ss, es := Advance(ss, es, o, s4, Finish(0, Found(b)));
    assert Next(s4, Finish(0, Found(b)), o) == s5;
    ss, es := Advance(ss, es, o, s5, Leave(0));
    assert Next(s5, Leave(0), o) == s6;
    ss, es := Advance(ss, es, o, s6, Fly(0));
    assert Next(s6, Fly(0), o) == s7;
    ss, es := Advance(ss, es, o, s7, Finish(1, Found(a)));
    end := Next(s7, Finish(1, Found(a)), o);
  }

  /** A Get that looks after a purge may be answered by a load begun before it. */
  lemma {:induction false} JoinsAcrossPurge<V(!new)>(o: Options, key: string, a: V)
    returns (ss: seq<System<V>>, es: seq<Step<V>>, end: System<V>)
    ensures RunTo(ss, es, o, end)
    ensures |end.gets| == 2 && |end.flights| == 1
    ensures end.gets[1].phase == Done(Loaded(Found(a), 0))
    ensures end.flights[0].started == 0 && |end.log| > 0 && end.log[0] == Purging && end.gets[1].looked == 1
  {
    var first: Get<V> := Get(key, 0, 0, None, 0, Waiting(false, 0));
    var second: Get<V> := Get(key, 0, 1, None, 1, Asking(false));
    var flown: Flight<V> := Flight(key, 0, 0, 0, None);
    var s0: System<V> := Start();
    var s1: System<V> := s0.(gets := [first.(phase := Asking(false))]);
    var s2: System<V> := s1.(gets := [first], flights := [flown], group := map[key := 0]);
    var s3: System<V> := s2.(shelf := Shelf(map[], 1, 0), log := [Purging]);
    var s4: System<V> := s3.(gets := [first, second]);
    var s5: System<V> := s4.(gets := [first, second.(phase := Waiting(false, 0))]);
    var s6: System<V> := s5.(flights := [flown.(result := Some(Found(a)))], log := [Purging, Outcome(key, Found(a), 0, 0, 0, 0)]);
    ss, es := Begin(o);
    ss, es := Advance(ss, es, o, s0, Look(key, 0));
    assert Next(s0, Look(key, 0), o) == s1;
    ss, es := Advance(ss, es, o, s1, Fly(0));
    assert Next(s1, Fly(0), o) == s2;
    ss, es := Advance(ss, es, o, s2, Purge);
    assert Next(s2, Purge, o) == s3;
    ss, es := Advance(ss, es, o, s3, Look(key, 0));
    assert Next(s3, Look(key, 0), o) == s4;
    ss, es := Advance(ss, es, o, s4, Fly(1));
    assert Next(s4, Fly(1), o) == s5;
    ss, es := Advance(ss, es, o, s5, Finish(0, Found(a)));
    assert Next(s5, Finish(0, Found(a)), o) == s6;
    ss, es := Advance(ss, es, o, s6, Return(1));
    end := Next(s6, Return(1), o);
  }
}
