/**
 Model of runAttempt (internal/httpapi/failover.go): the race between an
 attempt's time budget, its first chunk and its return.

 Each compare-and-swap and each load of the shared state is a step of its own;
 any number of commit calls may be under way at once.
 */
module AttemptRaces {

  datatype State = Pending | Committed | Expired | Returned

  /** One invocation of commit: its swap failed, or it has answered. */
  datatype CommitCall = SwapLost | Answered(yes: bool)

  /** What runAttempt reports about the call's error. */
  datatype Report = NoError | OwnError | TierTimeout

  /** How far runAttempt is after the call came back. */
  datatype Tail =
    | Calling
    | Claimed(failed: bool, first: bool)
    | Labelled(report: Report)
    | Finished(committed: bool, report: Report)

  datatype World = World(state: State, commits: map<nat, CommitCall>, tail: Tail)

  const BEGIN := World(Pending, map[], Calling)

  datatype Step =
    | TimerFires
    | CommitSwap(id: nat)
    | CommitLoad(id: nat)
    | CallReturns(failed: bool)
    | LabelError(clientThere: bool)
    | ReportBack

  /** One atomic step; a step that is not enabled does nothing. */
  function Next(w: World, s: Step): World {
    match s
    case TimerFires => if w.state.Pending? then w.(state := Expired) else w
    case CommitSwap(id) =>
      if id in w.commits then w
      else if w.state.Pending? then w.(state := Committed, commits := w.commits[id := Answered(true)])
      else w.(commits := w.commits[id := SwapLost])
    case CommitLoad(id) =>
      if id in w.commits && w.commits[id].SwapLost?
      then w.(commits := w.commits[id := Answered(w.state.Committed?)]) else w
    case CallReturns(failed) =>
      if !w.tail.Calling? then w
      else w.(tail := Claimed(failed, w.state.Pending?), state := if w.state.Pending? then Returned else w.state)
    case LabelError(clientThere) =>
      if !w.tail.Claimed? then w
      else w.(tail := Labelled(
        if !w.tail.failed then NoError
        else if !w.tail.first && w.state.Expired? && clientThere then TierTimeout
        else OwnError))
    case ReportBack =>
      if w.tail.Labelled? then w.(tail := Finished(w.state.Committed?, w.tail.report)) else w
  }

  function Run(w: World, steps: seq<Step>): World
    decreases |steps|
  {
    if steps == [] then w else Run(Next(w, steps[0]), steps[1..])
  }

  ghost predicate CommitOk(w: World, c: CommitCall) {
    !w.state.Pending? && (c.Answered? ==> c.yes == w.state.Committed?)
  }

  ghost predicate Inv(w: World) {
    && (forall id <- w.commits :: CommitOk(w, w.commits[id]))
    && (!w.tail.Calling? ==> !w.state.Pending?)
    && (w.tail.Labelled? && w.tail.report.TierTimeout? ==> w.state.Expired?)
    && (w.tail.Finished? ==> w.tail.committed == w.state.Committed? && (w.tail.report.TierTimeout? ==> w.state.Expired?))
  }

  lemma {:induction false} NextKeeps(w: World, s: Step)
    requires Inv(w)
    ensures Inv(Next(w, s))
    ensures !w.state.Pending? ==> Next(w, s).state == w.state
  {
    var n := Next(w, s);
    forall id | id in n.commits
      ensures CommitOk(n, n.commits[id])
    {
      if id in w.commits {
        assert CommitOk(w, w.commits[id]);
      }
    }
  }

  lemma {:induction false} RunKeeps(w: World, steps: seq<Step>)
    requires Inv(w)
    ensures Inv(Run(w, steps))
    ensures !w.state.Pending? ==> Run(w, steps).state == w.state
    decreases |steps|
  {
    if steps != [] {
      NextKeeps(w, steps[0]);
      RunKeeps(Next(w, steps[0]), steps[1..]);
    }
  }

  lemma {:induction false} RunAppend(w: World, a: seq<Step>, b: seq<Step>)
    ensures Run(w, a + b) == Run(Run(w, a), b)
    decreases |a|
  {
    if a == [] {
      assert a + b == b;
    } else {
      assert (a + b)[1..] == a[1..] + b;
      RunAppend(Next(w, a[0]), a[1..], b);
    }
  }

  /** Whatever the interleaving, the outcome of the race is settled once and for good. */
  lemma {:induction false} OutcomeSettlesOnce(before: seq<Step>, later: seq<Step>)
    ensures !Run(BEGIN, before).state.Pending? ==> Run(BEGIN, before + later).state == Run(BEGIN, before).state
  {
    RunKeeps(BEGIN, before);
    RunAppend(BEGIN, before, later);
    RunKeeps(Run(BEGIN, before), later);
  }

  /** commit gives every caller the same answer, now and in any continuation. */
  lemma {:induction false} CommitAnswersAgree(before: seq<Step>, later: seq<Step>, a: nat, b: nat)
    requires a in Run(BEGIN, before).commits && Run(BEGIN, before).commits[a].Answered?
    requires b in Run(BEGIN, before + later).commits && Run(BEGIN, before + later).commits[b].Answered?
    ensures Run(BEGIN, before).commits[a] == Run(BEGIN, before + later).commits[b]
  {
    var w, n := Run(BEGIN, before), Run(BEGIN, before + later);
    RunKeeps(BEGIN, before);
    RunKeeps(BEGIN, before + later);
    assert CommitOk(w, w.commits[a]) && CommitOk(n, n.commits[b]);
    OutcomeSettlesOnce(before, later);
  }

  /**
   runAttempt reports "committed" exactly when commit said yes to whoever asked,
   and an attempt reported as timed out committed nothing and never will.
   */
  lemma {:induction false} TimeoutMeansNothingSent(before: seq<Step>, later: seq<Step>, id: nat)
    requires Run(BEGIN, before).tail.Finished?
    requires id in Run(BEGIN, before + later).commits && Run(BEGIN, before + later).commits[id].Answered?
    ensures Run(BEGIN, before + later).commits[id].yes == Run(BEGIN, before).tail.committed
    ensures Run(BEGIN, before).tail.report.TierTimeout? ==> !Run(BEGIN, before + later).commits[id].yes
  {
    var w, n := Run(BEGIN, before), Run(BEGIN, before + later);
    RunKeeps(BEGIN, before);
    RunKeeps(BEGIN, before + later);
    assert CommitOk(n, n.commits[id]);
    OutcomeSettlesOnce(before, later);
  }

  // ---------- who wins, and what is reported ----------

  /** The race goes to whichever comes first: the timer, a commit, or the call's return. */
  function Winner(steps: seq<Step>): State
    decreases |steps|
  {
    if steps == [] then Pending
    else match steps[0]
      case TimerFires => Expired
      case CommitSwap(_) => Committed
      case CallReturns(_) => Returned
      case _ => Winner(steps[1..])
  }

  lemma {:induction false} RaceGoesToFirst(w: World, steps: seq<Step>)
    requires Inv(w) && w.state.Pending?
    ensures Run(w, steps).state == Winner(steps)
    decreases |steps|
  {
    if steps != [] {
      NextKeeps(w, steps[0]);
      if Next(w, steps[0]).state.Pending? {
        RaceGoesToFirst(Next(w, steps[0]), steps[1..]);
      } else {
        RunKeeps(Next(w, steps[0]), steps[1..]);
      }
    }
  }

  lemma {:induction false} StillCalling(w: World, steps: seq<Step>)
    requires w.tail.Calling? && forall s <- steps :: !s.CallReturns?
    ensures Run(w, steps).tail.Calling?
    decreases |steps|
  {
    if steps != [] {
      assert steps[0] in steps;
      StillCalling(Next(w, steps[0]), steps[1..]);
    }
  }

  lemma {:induction false} StillClaimed(w: World, steps: seq<Step>)
    requires w.tail.Claimed? && forall s <- steps :: !s.LabelError?
    ensures Run(w, steps).tail == w.tail
    decreases |steps|
  {
    if steps != [] {
      assert steps[0] in steps;
      StillClaimed(Next(w, steps[0]), steps[1..]);
    }
  }

  /** The attempt's error is settled. */
  ghost predicate Reports(t: Tail, report: Report) {
    (t.Labelled? || t.Finished?) && t.report == report
  }

  lemma {:induction false} StillReports(w: World, steps: seq<Step>, report: Report)
    requires Reports(w.tail, report)
    ensures Reports(Run(w, steps).tail, report)
    decreases |steps|
  {
    if steps != [] {
      StillReports(Next(w, steps[0]), steps[1..], report);
    }
  }

  lemma {:induction false} RunOne(w: World, s: Step, rest: seq<Step>)
    ensures Run(w, [s] + rest) == Run(Next(w, s), rest)
  {
    assert ([s] + rest)[1..] == rest;
  }

  /**
   In every interleaving, exactly what is reported of a call that came back: its own error, or none, unless it failed, the timer had won the race
   before it came back, and the client was still there when the error was looked at; then a tier timeout.
   */
  lemma {:induction false} TimeoutExactly(a: seq<Step>, failed: bool, b: seq<Step>, clientThere: bool, c: seq<Step>)
    requires (forall s <- a :: !s.CallReturns?) && (forall s <- b :: !s.LabelError?)
    ensures Reports(Run(BEGIN, a + ([CallReturns(failed)] + (b + ([LabelError(clientThere)] + c)))).tail,
      if !failed then NoError else if Winner(a).Expired? && clientThere then TierTimeout else OwnError)
  {
    var w := Run(BEGIN, a);
    RaceGoesToFirst(BEGIN, a);
    StillCalling(BEGIN, a);
    RunKeeps(BEGIN, a);
    var v := Next(w, CallReturns(failed));
    NextKeeps(w, CallReturns(failed));
    StillClaimed(v, b);
    RunKeeps(v, b);
    var u := Next(Run(v, b), LabelError(clientThere));
    var rest := [LabelError(clientThere)] + c;
    StillReports(u, c, u.tail.report);
    RunAppend(BEGIN, a, [CallReturns(failed)] + (b + rest));
    RunOne(w, CallReturns(failed), b + rest);
    RunAppend(v, b, rest);
    RunOne(Run(v, b), LabelError(clientThere), c);
  }
}

/**
 Model of the attempt of runStream (internal/httpapi/exec.go): what one
 attempt lets the client's stream see.

 The answer commit gives is a constant of the attempt, as CommitAnswersAgree
 establishes; accepts says whether the sink takes a chunk after n events.
 */
module StreamAttempts {
  import opened Common
  import opened StreamDecoders
  import opened ThinkFilters
  import AttemptRaces
  import CutReplies

  datatype SinkEvent = Begin | Sent(chunk: Chunk)

  function Sends(chunks: seq<Chunk>): seq<SinkEvent> {
    if chunks == [] then [] else Sends(chunks[..|chunks| - 1]) + [Sent(chunks[|chunks| - 1])]
  }

  /** The filter's turn on one chunk: push its text, and flush on a finish reason. */
  function Filtered(off: bool, f: Filter, c: Chunk): (Filter, Chunk) {
    if !off then (f, c)
    else
      var (g, text) := Push(THINK, f, c.content);
      if c.finish != "" then (g.(pending := ""), c.(content := text + Flush(g))) else (g, c.(content := text))
  }

  function FilteredAll(off: bool, chunks: seq<Chunk>): (Filter, seq<Chunk>)
    decreases |chunks|
  {
    if chunks == [] then (FRESH, [])
    else
      var n := |chunks| - 1;
      var (f, out) := FilteredAll(off, chunks[..n]);
      var (g, c) := Filtered(off, f, chunks[n]);
      (g, out + [c])
  }

  /** All a stream gives that ended cleanly: its chunks, and what was still pending. */
  function Whole(off: bool, chunks: seq<Chunk>): seq<Chunk> {
    var (f, out) := FilteredAll(off, chunks);
    if off && Flush(f) != "" then out + [NOTHING.(content := Flush(f))] else out
  }

  lemma {:induction false} FilteredPrefix(off: bool, chunks: seq<Chunk>, k: nat)
    requires k <= |chunks|
    ensures FilteredAll(off, chunks[..k]).1 <= FilteredAll(off, chunks).1 <= Whole(off, chunks)
    decreases |chunks|
  {
    if k < |chunks| {
      var n := |chunks| - 1;
      assert chunks[..n][..k] == chunks[..k];
      FilteredPrefix(off, chunks[..n], k);
    } else {
      assert chunks[..k] == chunks;
    }
  }

  /** A chunk that starts nothing under a budget: no text and no tool call. */
  predicate Hollow(c: Chunk) {
    c.content == "" && c.tools == []
  }

  /** Some chunk counts as the first. */
  ghost predicate Begun(waitForContent: bool, chunks: seq<Chunk>) {
    exists i :: 0 <= i < |chunks| && (waitForContent ==> !Hollow(chunks[i]))
  }

  lemma {:induction false} BegunMore(waitForContent: bool, chunks: seq<Chunk>, c: Chunk)
    ensures Begun(waitForContent, chunks + [c]) <==> Begun(waitForContent, chunks) || (waitForContent ==> !Hollow(c))
  {
    var more := chunks + [c];
    assert more[|chunks|] == c && forall i :: 0 <= i < |chunks| ==> more[i] == chunks[i];
  }

  lemma {:induction false} BegunPrefix(waitForContent: bool, part: seq<Chunk>, chunks: seq<Chunk>)
    requires part <= chunks && Begun(waitForContent, part)
    ensures Begun(waitForContent, chunks)
  {
    var i :| 0 <= i < |part| && (waitForContent ==> !Hollow(part[i]));
    assert chunks[i] == part[i];
  }

  class StreamAttempt {
    const waitForContent: bool
    const off: bool
    const commits: bool
    const accepts: nat -> bool
    var filter: Filter
    var started: bool
    var held: seq<Chunk>
    var sink: seq<SinkEvent>
    /** Every chunk received so far, as the filter left it. */
    ghost var passed: seq<Chunk>
    /** Whether commit has been called. */
    ghost var asked: bool

    constructor (waitForContent: bool, off: bool, commits: bool, accepts: nat -> bool)
      ensures this.waitForContent == waitForContent && this.off == off
      ensures this.commits == commits && this.accepts == accepts
      ensures Live() && !started && !asked && passed == [] && sink == [] && filter == FRESH
    {
      this.waitForContent, this.off, this.commits, this.accepts := waitForContent, off, commits, accepts;
      filter, started, held, sink, passed, asked := FRESH, false, [], [], [], false;
    }

    /** No error so far: all that passed is either on the wire or held. */
    ghost predicate Live()
      reads this
    {
      if started then asked && commits && held == [] && passed != [] && sink == [Begin] + Sends(passed)
      else sink == [] && held == passed
    }

    /** The client has seen nothing, or one begin and then some of what passed, in order. */
    ghost predicate Faithful()
      reads this
    {
      && (sink == [] || exists n :: 0 <= n <= |passed| && sink == [Begin] + Sends(passed[..n]))
      && (sink != [] ==> asked && commits)
    }

    /** Write chunks to a begun sink, the whole of passed being sent + chunks. */
    method Write(ghost sent: seq<Chunk>, chunks: seq<Chunk>) returns (ok: bool)
      requires asked && commits && started && passed == sent + chunks && sink == [Begin] + Sends(sent)
      modifies this`sink
      ensures Faithful() && (ok ==> sink == [Begin] + Sends(passed))
    {
      for i := 0 to |chunks|
        invariant sink == [Begin] + Sends(passed[..|sent| + i])
      {
        ghost var n := |sent| + i;
        if !accepts(|sink|) {
          return false;
        }
        assert passed[..n + 1][..n] == passed[..n];
        sink := sink + [Sent(chunks[i])];
      }
      assert passed[..|passed|] == passed;
      return true;
    }

    method Emit(c: Chunk) returns (ok: bool)
      requires Live()
      modifies this`started, this`held, this`sink, this`passed, this`asked
      ensures passed == old(passed) + [c] && Faithful()
      ensures ok ==> Live() && started
    {
      passed := passed + [c];
      if !started {
        asked := true;
        if !commits {
          return false;
        }
        sink := sink + [Begin];
        started := true;
        ok := Write([], held + [c]);
        held := [];
        return;
      }
      ok := Write(passed[..|passed| - 1], [c]);
    }
  
    method OnChunk(received: Chunk) returns (ok: bool)
      requires Live()
      modifies this
      ensures Faithful() && (ok ==> Live())
      ensures (filter, passed) == (Filtered(off, old(filter), received).0,
                                   old(passed) + [Filtered(off, old(filter), received).1])
      ensures ok ==> started == (old(started) || (waitForContent ==> !Hollow(Filtered(off, old(filter), received).1)))
      ensures !old(started) && waitForContent && Hollow(Filtered(off, old(filter), received).1) ==> ok && sink == [] && asked == old(asked)
    {
      var c := received;
      if off {
        var pushed := Push(THINK, filter, c.content);
        filter := pushed.0;
        c := c.(content := pushed.1);
        if c.finish != "" {
          c := c.(content := c.content + Flush(filter));
          filter := filter.(pending := "");
        }
      }
      if waitForContent && !started && c.content == "" && c.tools == [] {
        held := held + [c];
        passed := passed + [c];
        return true;
      }
      ok := Emit(c);
    }
  
    /** A stream that ended without content: what it did send is the answer. */
    method EmitHeld() returns (ok: bool)
      requires Live() && !started && held != []
      modifies this
      ensures passed == old(passed) && Faithful()
      ensures ok ==> Live() && started
    {
      var last := held[|held| - 1];
      held := held[..|held| - 1];
      passed := held;
      ok := Emit(last);
    }

    lemma {:induction false} LiveIsFaithful()
      requires Live()
      ensures Faithful()
    {
      assert passed[..|passed|] == passed;
    }

    /** The upstream's chunks, until one could not be taken. */
    method Consume(chunks: seq<Chunk>) returns (ok: bool)
      requires Live() && !started && passed == [] && filter == FRESH
      modifies this
      ensures Faithful() && passed <= FilteredAll(off, chunks).1
      ensures ok ==> Live() && (filter, passed) == FilteredAll(off, chunks)
      ensures ok ==> started == Begun(waitForContent, FilteredAll(off, chunks).1)
      ensures !Begun(waitForContent, FilteredAll(off, chunks).1) ==> ok && sink == [] && asked == old(asked)
    {
      for i := 0 to |chunks|
        invariant Live() && (filter, passed) == FilteredAll(off, chunks[..i])
        invariant started == Begun(waitForContent, passed) && (!started ==> asked == old(asked))
      {
        ghost var before, was := passed, filter;
        FilteredPrefix(off, chunks, i + 1);
        assert chunks[..i + 1][..i] == chunks[..i];
        var took := OnChunk(chunks[i]);
        BegunMore(waitForContent, before, Filtered(off, was, chunks[i]).1);
        if !took {
          BegunPrefix(waitForContent, passed, FilteredAll(off, chunks).1);
          return false;
        }
      }
      assert chunks[..|chunks|] == chunks;
      LiveIsFaithful();
      return true;
    }

    /** The end of a stream that came back cleanly: what is pending, then what is held. */
    method Conclude() returns (ok: bool)
      requires Live()
      modifies this
      ensures Faithful()
      ensures passed == if off && Flush(old(filter)) != "" then old(passed) + [NOTHING.(content := Flush(old(filter)))]
                        else old(passed)
      ensures ok ==> Live() && (started || passed == [])
    {
      LiveIsFaithful();
      if off && Flush(filter) != "" {
        ok := Emit(NOTHING.(content := Flush(filter)));
        return;
      }
      if !started && held != [] {
        ok := EmitHeld();
        return;
      }
      return true;
    }

    /** The whole attempt: the upstream's chunks, then how its call came back. */
    method Run(chunks: seq<Chunk>, upstreamOk: bool) returns (ok: bool)
      requires Live() && !started && passed == [] && filter == FRESH
      modifies this
      ensures Faithful() && passed <= Whole(off, chunks)
      ensures !upstreamOk && !Begun(waitForContent, FilteredAll(off, chunks).1) ==> sink == [] && asked == old(asked)
      ensures ok ==> upstreamOk && sink == if Whole(off, chunks) == [] then [] else [Begin] + Sends(Whole(off, chunks))
    {
      var took := Consume(chunks);
      if !took || !upstreamOk {
        return false;
      }
      ok := Conclude();
    }
  }

  /**
   An attempt is tied to a race if the commit it called, if it called it, is call id of that race and answered
   there as it was here.
   */
  ghost predicate TiedTo(a: StreamAttempt, w: AttemptRaces.World, id: nat)
    reads a
  {
    a.asked ==> id in w.commits && w.commits[id].Answered? && w.commits[id].yes == a.commits
  }

  /** Whatever the interleaving: of an attempt reported as timed out, or as not committed, the client sees nothing, then or later. */
  lemma {:induction false} TimeoutMeansSilence(a: StreamAttempt, before: seq<AttemptRaces.Step>, later: seq<AttemptRaces.Step>, id: nat)
    requires AttemptRaces.Run(AttemptRaces.BEGIN, before).tail.Finished?
    requires a.Faithful() && TiedTo(a, AttemptRaces.Run(AttemptRaces.BEGIN, before + later), id)
    ensures var tail := AttemptRaces.Run(AttemptRaces.BEGIN, before).tail;
      tail.report.TierTimeout? || !tail.committed ==> a.sink == []
  {
    if a.asked {
      AttemptRaces.TimeoutMeansNothingSent(before, later, id);
    }
  }

  // ---------- with thinking off, the client gets the stripped reply ----------

  function TextOf(chunks: seq<Chunk>): string
    decreases |chunks|
  {
    if chunks == [] then "" else TextOf(chunks[..|chunks| - 1]) + chunks[|chunks| - 1].content
  }

  /** The finish reason on chunk i comes while the filter holds back a start that may yet turn out to be a tag. */
  predicate CutsShort(chunks: seq<Chunk>, i: nat)
    requires i < |chunks|
  {
    chunks[i].finish != "" && Push(THINK, FRESH, TextOf(chunks[..i + 1])).0.pending != ""
  }

  ghost predicate WasCut(chunks: seq<Chunk>) {
    exists i :: 0 <= i < |chunks| && CutsShort(chunks, i)
  }

  lemma {:induction false} CutsInFront(chunks: seq<Chunk>, n: nat, i: nat)
    requires i < n <= |chunks|
    ensures CutsShort(chunks[..n], i) <==> CutsShort(chunks, i)
  {
    assert chunks[..n][..i + 1] == chunks[..i + 1];
  }

  lemma {:induction false} WasCutSnoc(chunks: seq<Chunk>)
    requires chunks != []
    ensures WasCut(chunks) <==> WasCut(chunks[..|chunks| - 1]) || CutsShort(chunks, |chunks| - 1)
  {
    var n := |chunks| - 1;
    forall i | 0 <= i < n ensures chunks[..n][i] == chunks[i] && (CutsShort(chunks[..n], i) <==> CutsShort(chunks, i)) {
      CutsInFront(chunks, n, i);
    }
  }

  /** A filter flushed at a finish reason lets nothing more out. */
  ghost predicate Drained(f: Filter) {
    f.pending == "" && (f.replying ==> !f.inside)
  }

  lemma {:induction false} DrainedStays(f: Filter)
    requires Drained(f)
    ensures Push(THINK, f, "") == (f, "") && Flush(f) == ""
  {
    assert "" + "" == "";
    assert !FoldAt("", 0, THINK.open) && FoldAt("", 0, THINK.open[..0]);
    IndexIsFirst("", THINK.close, 0);
  }

  lemma {:induction false} FreshTakesNothing()
    ensures Push(THINK, FRESH, "") == (FRESH, "")
  {
    DrainedStays(FRESH);
  }

  lemma {:induction false} TextOfSnoc(chunks: seq<Chunk>, c: Chunk)
    ensures TextOf(chunks + [c]) == TextOf(chunks) + c.content
  {
    assert (chunks + [c])[..|chunks|] == chunks;
  }

  /** One chunk, told by where the filter stood: its text is pushed, and at a finish reason what is pending comes out too. */
  lemma {:induction false} FilteredNext(chunks: seq<Chunk>, f: Filter, out: seq<Chunk>)
    requires chunks != [] && FilteredAll(true, chunks[..|chunks| - 1]) == (f, out)
    requires (f, TextOf(out)) == Push(THINK, FRESH, TextOf(chunks[..|chunks| - 1]))
    ensures var (h, sent) := FilteredAll(true, chunks);
      var (g, text) := Push(THINK, FRESH, TextOf(chunks));
      if chunks[|chunks| - 1].finish != "" then h == g.(pending := "") && TextOf(sent) == text + Flush(g)
      else h == g && TextOf(sent) == text
  {
    var n := |chunks| - 1;
    PushSplit(THINK, FRESH, TextOf(chunks[..n]), chunks[n].content);
    var (g, pushed) := Push(THINK, f, chunks[n].content);
    var (h, c) := Filtered(true, f, chunks[n]);
    TextOfSnoc(out, c);
    Regroup(TextOf(out), pushed, Flush(g));
  }

  /** Until a start is given up, the filter stands where a push of all the text so far leaves it, and has given what that gives. */
  lemma {:induction false} FilteringIsPushing(chunks: seq<Chunk>)
    requires !WasCut(chunks)
    ensures var (f, out) := FilteredAll(true, chunks); (f, TextOf(out)) == Push(THINK, FRESH, TextOf(chunks))
    decreases |chunks|
  {
    if chunks == [] {
      FreshTakesNothing();
    } else {
      var n := |chunks| - 1;
      WasCutSnoc(chunks);
      FilteringIsPushing(chunks[..n]);
      var (f, out) := FilteredAll(true, chunks[..n]);
      FilteredNext(chunks, f, out);
      assert chunks[..n + 1] == chunks;
      var (g, text) := Push(THINK, FRESH, TextOf(chunks));
      if chunks[n].finish != "" {
        assert g.pending == "" && Flush(g) == "";
        assert text + "" == text;
      }
    }
  }

  // ---------- when the client gets the stripped reply ----------

  /** A stream as the filter sees it: the text of its chunks, and where a finish reason came. */
  function PiecesOf(chunks: seq<Chunk>): seq<CutReplies.Piece> {
    seq(|chunks|, i requires 0 <= i < |chunks| => CutReplies.Piece(chunks[i].content, chunks[i].finish != ""))
  }

  lemma {:induction false} FilteredSnoc(off: bool, chunks: seq<Chunk>, c: Chunk)
    ensures var (f, out) := FilteredAll(off, chunks);
      FilteredAll(off, chunks + [c]) == (Filtered(off, f, c).0, out + [Filtered(off, f, c).1])
  {
    assert (chunks + [c])[..|chunks|] == chunks;
  }

  lemma {:induction false} PiecesText(chunks: seq<Chunk>, k: nat)
    requires k <= |chunks|
    ensures TextOf(chunks) == TextOf(chunks[..k]) + CutReplies.TextOf(PiecesOf(chunks)[k..])
    decreases |chunks| - k
  {
    if k == |chunks| {
      assert chunks[..k] == chunks && TextOf(chunks) + "" == TextOf(chunks);
    } else {
      PiecesText(chunks, k + 1);
      assert PiecesOf(chunks)[k..][1..] == PiecesOf(chunks)[k + 1..];
      assert chunks[..k + 1] == chunks[..k] + [chunks[k]];
      TextOfSnoc(chunks[..k], chunks[k]);
      Regroup(TextOf(chunks[..k]), chunks[k].content, CutReplies.TextOf(PiecesOf(chunks)[k + 1..]));
    }
  }

  /** One chunk more: its text, and at a finish reason what was held back. */
  lemma {:induction false} OneChunk(f: Filter, c: Chunk, ps: seq<CutReplies.Piece>)
    requires ps != [] && ps[0] == CutReplies.Piece(c.content, c.finish != "")
    ensures CutReplies.Given(THINK, f, ps) == Filtered(true, f, c).1.content + CutReplies.Given(THINK, Filtered(true, f, c).0, ps[1..])
  {
    var (g, out) := Push(THINK, f, c.content);
    Regroup(out, Flush(g), CutReplies.Given(THINK, CutReplies.Emptied(g), ps[1..]));
  }

  lemma {:induction false} WholeText(chunks: seq<Chunk>)
    ensures var (f, out) := FilteredAll(true, chunks); TextOf(Whole(true, chunks)) == TextOf(out) + Flush(f)
  {
    var (f, out) := FilteredAll(true, chunks);
    TextOfSnoc(out, NOTHING.(content := Flush(f)));
    assert TextOf(out) + "" == TextOf(out);
  }

  /** What is out and what is still given, before a chunk and after it. */
  lemma {:induction false} OneMoreChunk(front: seq<Chunk>, c: Chunk, ps: seq<CutReplies.Piece>)
    requires ps != [] && ps[0] == CutReplies.Piece(c.content, c.finish != "")
    ensures var (f, out) := FilteredAll(true, front);
      var (g, more) := FilteredAll(true, front + [c]);
      TextOf(out) + CutReplies.Given(THINK, f, ps) == TextOf(more) + CutReplies.Given(THINK, g, ps[1..])
  {
    var (f, out) := FilteredAll(true, front);
    var (g, d) := Filtered(true, f, c);
    FilteredSnoc(true, front, c);
    TextOfSnoc(out, d);
    OneChunk(f, c, ps);
    Regroup(TextOf(out), d.content, CutReplies.Given(THINK, g, ps[1..]));
  }

  /** What is out after k chunks, and what is given for the others. */
  function OutAndDue(chunks: seq<Chunk>, k: nat): string
    requires k <= |chunks|
  {
    TextOf(FilteredAll(true, chunks[..k]).1) + CutReplies.Given(THINK, FilteredAll(true, chunks[..k]).0, PiecesOf(chunks)[k..])
  }

  lemma {:induction false} NextOutAndDue(chunks: seq<Chunk>, k: nat)
    requires k < |chunks|
    ensures OutAndDue(chunks, k) == OutAndDue(chunks, k + 1)
  {
    var ps := PiecesOf(chunks);
    OneMoreChunk(chunks[..k], chunks[k], ps[k..]);
    assert ps[k..][1..] == ps[k + 1..];
    assert chunks[..k + 1] == chunks[..k] + [chunks[k]];
  }

  lemma {:induction false} AllOut(chunks: seq<Chunk>)
    ensures OutAndDue(chunks, |chunks|) == TextOf(Whole(true, chunks))
  {
    assert chunks[..|chunks|] == chunks && PiecesOf(chunks)[|chunks|..] == [];
    WholeText(chunks);
  }

  lemma {:induction false} WholeFrom(chunks: seq<Chunk>, k: nat)
    requires k <= |chunks|
    ensures TextOf(Whole(true, chunks)) == OutAndDue(chunks, k)
    decreases |chunks| - k
  {
    if k == |chunks| {
      AllOut(chunks);
    } else {
      WholeFrom(chunks, k + 1);
      NextOutAndDue(chunks, k);
    }
  }

  /** What the client gets is what the filter gives for the pieces of the stream. */
  lemma {:induction false} WholeIsGiven(chunks: seq<Chunk>)
    ensures TextOf(Whole(true, chunks)) == CutReplies.Given(THINK, FRESH, PiecesOf(chunks))
    ensures TextOf(chunks) == CutReplies.TextOf(PiecesOf(chunks))
  {
    var ps := PiecesOf(chunks);
    assert chunks[..0] == [] && ps[0..] == ps;
    WholeFrom(chunks, 0);
    PiecesText(chunks, 0);
    assert "" + CutReplies.Given(THINK, FRESH, ps) == CutReplies.Given(THINK, FRESH, ps);
    assert "" + CutReplies.TextOf(ps) == CutReplies.TextOf(ps);
  }

  /**
   With thinking off, the text of everything a cleanly ended stream gives the client is the stripped text of
   everything the upstream sent, exactly when no finish reason does harm.
   */
  lemma {:induction false} ClientGetsStrippedReply(chunks: seq<Chunk>)
    ensures TextOf(Whole(true, chunks)) == Strip(THINK, TextOf(chunks)) <==> CutReplies.NoHarm(THINK, FRESH, PiecesOf(chunks))
  {
    WholeIsGiven(chunks);
    CutReplies.ThinkIsPlain();
    CutReplies.StrippedExactly(THINK, PiecesOf(chunks));
  }

  /**
   In closed form, when only the finish reason on chunk i comes while the filter holds something back: a condition on the state of
   the filter there and on the text after it.
   */
  lemma {:induction false} OneCutStream(chunks: seq<Chunk>, i: nat)
    requires i < |chunks| && CutReplies.CutOnceAt(THINK, FRESH, PiecesOf(chunks), i)
    ensures TextOf(Whole(true, chunks)) == Strip(THINK, TextOf(chunks)) <==>
            CutReplies.CutIsHarmless(THINK, CutReplies.StateAt(THINK, FRESH, PiecesOf(chunks), i), CutReplies.TextOf(PiecesOf(chunks)[i + 1..]))
  {
    ClientGetsStrippedReply(chunks);
    CutReplies.ThinkIsPlain();
    FreshSettled(THINK);
    CutReplies.OneCutExactly(THINK, FRESH, PiecesOf(chunks), i);
  }

  /** A failing input: a finish reason in the middle of the opening tag lets the whole tag through. */
  lemma {:induction false} TextAfterCutDiffers(finish: string)
    requires finish != ""
    ensures var chunks := [NOTHING.(content := THINK.open[..1], finish := finish), NOTHING.(content := THINK.open[1..])];
      TextOf(Whole(true, chunks)) != Strip(THINK, TextOf(chunks))
  {
    var head, tail := THINK.open[..1], THINK.open[1..];
    var chunks := [NOTHING.(content := head, finish := finish), NOTHING.(content := tail)];
    CutReplies.ThinkIsPlain();
    CutReplies.CutOpeningTag(THINK);
    assert PiecesOf(chunks) == [CutReplies.Piece(head, true), CutReplies.Piece(tail, false)];
    ClientGetsStrippedReply(chunks);
  }
}
