/**
 Model of internal/providers/sse_decode.go after JSON parsing: the loop that
 turns upstream chunks into the sequence the egresses expect.

 The model starts from the parsed chunks of a stream that ended cleanly and
 whose consumer accepted every chunk.
 */
module StreamDecoders {
  import opened Common

  datatype ToolDelta = ToolDelta(index: int, id: string, name: string, args: string)

  datatype Usage = Usage(prompt: int, completion: int)

  datatype Chunk = Chunk(role: string, content: string, tools: seq<ToolDelta>, finish: string, usage: Option<Usage>)

  const NOTHING := Chunk("", "", [], "", None)

  predicate HasDelta(c: Chunk) {
    c.role != "" || c.content != "" || c.tools != []
  }

  predicate HasPayload(c: Chunk) {
    HasDelta(c) || c.finish != ""
  }

  function Synthesized(sawTools: bool): string {
    if sawTools then "tool_calls" else "stop"
  }

  /** yieldSplittingFinish: the finish reason goes out on a chunk of its own. */
  function SplitFinish(c: Chunk): seq<Chunk> {
    if c.finish == "" || !HasDelta(c) then [c] else [c.(finish := ""), NOTHING.(finish := c.finish)]
  }

  /** What the loop carries from one upstream chunk to the next. */
  datatype Loop = Loop(sawFinish: bool, sawTools: bool, held: Option<Usage>)

  const START := Loop(false, false, None)

  function Seen(d: Loop, c: Chunk): Loop {
    d.(sawFinish := d.sawFinish || c.finish != "", sawTools := d.sawTools || c.tools != [])
  }

  /** One turn of the loop: the chunks yielded for c. */
  function Turn(d: Loop, c: Chunk, coalesce: bool): (Loop, seq<Chunk>) {
    var s := Seen(d, c);
    if c.usage.None? then (s, SplitFinish(c))
    else
      var bare := c.(usage := None);
      var (next, body) :=
        if coalesce then (s.(held := c.usage), bare)
        else if !s.sawFinish then (s.(sawFinish := true), bare.(finish := Synthesized(s.sawTools)))
        else (s, bare);
      (next, (if HasPayload(body) then SplitFinish(body) else [])
             + if coalesce then [] else [NOTHING.(usage := c.usage)])
  }

  /** After the last chunk: a missing finish reason, then the held usage. */
  function Ending(d: Loop): seq<Chunk> {
    (if d.sawFinish then [] else [NOTHING.(finish := Synthesized(d.sawTools))])
    + if d.held.None? then [] else [NOTHING.(usage := d.held)]
  }

  function DecodeFrom(d: Loop, chunks: seq<Chunk>, coalesce: bool): seq<Chunk>
    decreases |chunks|
  {
    if chunks == [] then Ending(d)
    else
      var (next, out) := Turn(d, chunks[0], coalesce);
      out + DecodeFrom(next, chunks[1..], coalesce)
  }

  method YieldSplittingFinish(c: Chunk, sent: seq<Chunk>) returns (out: seq<Chunk>)
    ensures out == sent + SplitFinish(c)
  {
    if c.finish == "" || !HasDelta(c) {
      return sent + [c];
    }
    out := sent + [c.(finish := "")];
    out := out + [NOTHING.(finish := c.finish)];
  }

  /** The body of the loop, for one upstream chunk. */
  method TakeTurn(d: Loop, chunk: Chunk, coalesce: bool, sent: seq<Chunk>) returns (next: Loop, out: seq<Chunk>)
    ensures next == Turn(d, chunk, coalesce).0 && out == sent + Turn(d, chunk, coalesce).1
  {
    var c := chunk;
    next, out := d, sent;
    if c.finish != "" {
      next := next.(sawFinish := true);
    }
    if c.tools != [] {
      next := next.(sawTools := true);
    }
    if c.usage.None? {
      out := YieldSplittingFinish(c, out);
      return;
    }
    var usage := c.usage;
    c := c.(usage := None);
    if coalesce {
      next := next.(held := usage);
      usage := None;
    } else if !next.sawFinish {
      c := c.(finish := Synthesized(next.sawTools));
      next := next.(sawFinish := true);
    }
    if HasPayload(c) {
      out := YieldSplittingFinish(c, out);
    }
    if usage.Some? {
      out := out + [NOTHING.(usage := usage)];
    }
  }

  /** decodeSSEStream, with the yielded chunks collected in order. */
  method Decode(chunks: seq<Chunk>, coalesce: bool) returns (out: seq<Chunk>)
    ensures out == DecodeFrom(START, chunks, coalesce)
  {
    out := [];
    var d := START;
    for i := 0 to |chunks|
      invariant DecodeFrom(START, chunks, coalesce) == out + DecodeFrom(d, chunks[i..], coalesce)
    {
      var next, more := TakeTurn(d, chunks[i], coalesce, out);
      TurnTaken(d, chunks, i, coalesce, out, more, next);
      d, out := next, more;
    }
    if !d.sawFinish {
      out := out + [NOTHING.(finish := Synthesized(d.sawTools))];
    }
    if d.held.Some? {
      out := out + [NOTHING.(usage := d.held)];
    }
  }

  lemma {:induction false} TurnTaken(d: Loop, chunks: seq<Chunk>, i: nat, coalesce: bool, sent: seq<Chunk>, out: seq<Chunk>, next: Loop)
    requires i < |chunks|
    requires Turn(d, chunks[i], coalesce).0 == next && out == sent + Turn(d, chunks[i], coalesce).1
    ensures sent + DecodeFrom(d, chunks[i..], coalesce) == out + DecodeFrom(next, chunks[i + 1..], coalesce)
  {
    assert chunks[i..][1..] == chunks[i + 1..];
    Regroup(sent, Turn(d, chunks[i], coalesce).1, DecodeFrom(next, chunks[i + 1..], coalesce));
  }

  // ---------- the contract of the yielded sequence ----------

  /** A finish reason or a usage report never shares a chunk with a delta or each other. */
  predicate RidesAlone(c: Chunk) {
    && (c.finish != "" ==> !HasDelta(c))
    && (c.usage.Some? ==> !HasPayload(c))
  }

  lemma {:induction false} SignalsRideAlone(d: Loop, chunks: seq<Chunk>, coalesce: bool)
    ensures forall c <- DecodeFrom(d, chunks, coalesce) :: RidesAlone(c)
    decreases |chunks|
  {
    if chunks != [] {
      SignalsRideAlone(Turn(d, chunks[0], coalesce).0, chunks[1..], coalesce);
    }
  }

  function Finishes(chunks: seq<Chunk>): nat {
    if chunks == [] then 0 else (if chunks[0].finish != "" then 1 else 0) + Finishes(chunks[1..])
  }

  lemma {:induction false} FinishesAppend(a: seq<Chunk>, b: seq<Chunk>)
    ensures Finishes(a + b) == Finishes(a) + Finishes(b)
  {
    if a == [] {
      assert a + b == b;
    } else {
      assert (a + b)[1..] == a[1..] + b;
      FinishesAppend(a[1..], b);
    }
  }

  lemma {:induction false} FinishesOne(c: Chunk)
    ensures Finishes([c]) == if c.finish != "" then 1 else 0
  {
    assert [c][1..] == [];
  }

  lemma {:induction false} SplitFinishes(c: Chunk)
    ensures Finishes(SplitFinish(c)) == Finishes([c])
  {
    FinishesOne(c);
    if c.finish != "" && HasDelta(c) {
      var body, signal := c.(finish := ""), NOTHING.(finish := c.finish);
      assert [body, signal] == [body] + [signal];
      FinishesAppend([body], [signal]);
      FinishesOne(body);
      FinishesOne(signal);
    }
  }

  /** One turn passes a finish reason on, and makes one up before the first report if none has come and usage is not held back. */
  lemma {:induction false} TurnFinishes(d: Loop, c: Chunk, coalesce: bool)
    ensures Finishes(Turn(d, c, coalesce).1)
         == Finishes([c]) + if !coalesce && c.usage.Some? && !d.sawFinish && c.finish == "" then 1 else 0
  {
    var s, bare := Seen(d, c), c.(usage := None);
    FinishesOne(c);
    if c.usage.None? {
      SplitFinishes(c);
    } else {
      var body := if !coalesce && !s.sawFinish then bare.(finish := Synthesized(s.sawTools)) else bare;
      var report := NOTHING.(usage := c.usage);
      SplitFinishes(body);
      FinishesOne(body);
      FinishesOne(report);
      FinishesAppend(if HasPayload(body) then SplitFinish(body) else [], if coalesce then [] else [report]);
    }
  }

  lemma {:induction false} EndingFinishes(d: Loop)
    ensures Finishes(Ending(d)) == if d.sawFinish then 0 else 1
  {
    var finish, usage := NOTHING.(finish := Synthesized(d.sawTools)), NOTHING.(usage := d.held);
    FinishesAppend(if d.sawFinish then [] else [finish], if d.held.None? then [] else [usage]);
    FinishesOne(finish);
    FinishesOne(usage);
  }

  /**
   With coalesced usage, as many finish reasons come out as went in, and one is
   made up exactly for a stream that had none.
   */
  lemma {:induction false} FinishesOut(d: Loop, chunks: seq<Chunk>)
    ensures Finishes(DecodeFrom(d, chunks, true))
         == Finishes(chunks) + if d.sawFinish || Finishes(chunks) > 0 then 0 else 1
    decreases |chunks|
  {
    if chunks == [] {
      EndingFinishes(d);
    } else {
      var (next, out) := Turn(d, chunks[0], true);
      TurnFinishes(d, chunks[0], true);
      FinishesOne(chunks[0]);
      FinishesAppend(out, DecodeFrom(next, chunks[1..], true));
      FinishesOut(next, chunks[1..]);
    }
  }

  // ---------- deltas and reports pass through ----------

  /** What a chunk carries of the reply itself. */
  datatype Delta = Delta(role: string, content: string, tools: seq<ToolDelta>)

  function DeltasOf(c: Chunk): seq<Delta> {
    if c.role == "" && c.content == "" && |c.tools| == 0 then [] else [Delta(c.role, c.content, c.tools)]
  }

  function Deltas(chunks: seq<Chunk>): seq<Delta> {
    if chunks == [] then [] else DeltasOf(chunks[0]) + Deltas(chunks[1..])
  }

  function UsagesOf(c: Chunk): seq<Usage> {
    if c.usage.None? then [] else [c.usage.value]
  }

  function Usages(chunks: seq<Chunk>): seq<Usage> {
    if chunks == [] then [] else UsagesOf(chunks[0]) + Usages(chunks[1..])
  }

  lemma {:induction false} PartsAppend(a: seq<Chunk>, b: seq<Chunk>)
    ensures Deltas(a + b) == Deltas(a) + Deltas(b) && Usages(a + b) == Usages(a) + Usages(b)
  {
    if a == [] {
      assert a + b == b;
    } else {
      assert (a + b)[1..] == a[1..] + b;
      PartsAppend(a[1..], b);
    }
  }

  lemma {:induction false} PartsOne(c: Chunk)
    ensures Deltas([c]) == DeltasOf(c) && Usages([c]) == UsagesOf(c)
  {
    assert [c][1..] == [];
  }

  lemma {:induction false} SplitParts(c: Chunk)
    requires c.usage.None?
    ensures Deltas(SplitFinish(c)) == DeltasOf(c) && Usages(SplitFinish(c)) == []
  {
    PartsOne(c);
    if c.finish != "" && HasDelta(c) {
      var body, signal := c.(finish := ""), NOTHING.(finish := c.finish);
      assert [body, signal] == [body] + [signal];
      PartsAppend([body], [signal]);
      PartsOne(body);
      PartsOne(signal);
    }
  }

  /** A chunk that carried a report, without it. */
  lemma {:induction false} BodyParts(body: Chunk, report: Chunk, alone: bool)
    requires body.usage.None? && report == NOTHING.(usage := report.usage)
    ensures var out := (if HasPayload(body) then SplitFinish(body) else []) + if alone then [] else [report];
      Deltas(out) == DeltasOf(body) && Usages(out) == if alone then [] else UsagesOf(report)
  {
    SplitParts(body);
    PartsOne(report);
    PartsAppend(if HasPayload(body) then SplitFinish(body) else [], if alone then [] else [report]);
  }

  lemma {:induction false} TurnHolds(d: Loop, c: Chunk, coalesce: bool)
    ensures Turn(d, c, coalesce).0.held == if coalesce && c.usage.Some? then c.usage else d.held
  {
  }

  lemma {:induction false} TurnParts(d: Loop, c: Chunk, coalesce: bool)
    ensures Deltas(Turn(d, c, coalesce).1) == DeltasOf(c)
    ensures Usages(Turn(d, c, coalesce).1) == if coalesce then [] else UsagesOf(c)
  {
    var s, bare := Seen(d, c), c.(usage := None);
    if c.usage.None? {
      SplitParts(c);
    } else {
      var body := if !coalesce && !s.sawFinish then bare.(finish := Synthesized(s.sawTools)) else bare;
      BodyParts(body, NOTHING.(usage := c.usage), coalesce);
    }
  }

  lemma {:induction false} EndingParts(d: Loop)
    ensures Deltas(Ending(d)) == [] && Usages(Ending(d)) == if d.held.None? then [] else [d.held.value]
  {
    var finish, usage := NOTHING.(finish := Synthesized(d.sawTools)), NOTHING.(usage := d.held);
    PartsAppend(if d.sawFinish then [] else [finish], if d.held.None? then [] else [usage]);
    PartsOne(finish);
    PartsOne(usage);
  }

  function Held(d: Loop): seq<Usage> {
    if d.held.None? then [] else [d.held.value]
  }

  /** The last element, if there is one. */
  function LastOnly(us: seq<Usage>): seq<Usage> {
    if us == [] then [] else [us[|us| - 1]]
  }

  lemma {:induction false} DeltasFrom(d: Loop, chunks: seq<Chunk>, coalesce: bool)
    ensures Deltas(DecodeFrom(d, chunks, coalesce)) == Deltas(chunks)
    decreases |chunks|
  {
    if chunks == [] {
      EndingParts(d);
    } else {
      var (next, out) := Turn(d, chunks[0], coalesce);
      TurnParts(d, chunks[0], coalesce);
      DeltasFrom(next, chunks[1..], coalesce);
      PartsAppend(out, DecodeFrom(next, chunks[1..], coalesce));
    }
  }

  lemma {:induction false} UsagesFrom(d: Loop, chunks: seq<Chunk>)
    ensures Usages(DecodeFrom(d, chunks, false)) == Usages(chunks) + Held(d)
    decreases |chunks|
  {
    if chunks == [] {
      EndingParts(d);
    } else {
      var (next, out) := Turn(d, chunks[0], false);
      TurnParts(d, chunks[0], false);
      TurnHolds(d, chunks[0], false);
      UsagesFrom(next, chunks[1..]);
      PartsAppend(out, DecodeFrom(next, chunks[1..], false));
    }
  }

  lemma {:induction false} LastUsageFrom(d: Loop, chunks: seq<Chunk>)
    ensures Usages(DecodeFrom(d, chunks, true)) == LastOnly(Held(d) + Usages(chunks))
    decreases |chunks|
  {
    if chunks == [] {
      EndingParts(d);
      assert Held(d) + [] == Held(d);
    } else {
      var (next, out) := Turn(d, chunks[0], true);
      TurnParts(d, chunks[0], true);
      TurnHolds(d, chunks[0], true);
      LastUsageFrom(next, chunks[1..]);
      PartsAppend(out, DecodeFrom(next, chunks[1..], true));
      LastOfHeld(d, chunks[0], Usages(chunks[1..]));
    }
  }

  lemma {:induction false} LastOfHeld(d: Loop, c: Chunk, rest: seq<Usage>)
    ensures LastOnly(Held(d) + (UsagesOf(c) + rest)) == LastOnly(Held(if c.usage.Some? then d.(held := c.usage) else d) + rest)
  {
  }

  /**
   For every stream, in either mode: role, text and tool deltas come out unchanged and in order, none lost and none made up; usage
   reports too, except that coalescing keeps only the last.
   */
  lemma {:induction false} DeltasPassThrough(chunks: seq<Chunk>, coalesce: bool)
    ensures Deltas(DecodeFrom(START, chunks, coalesce)) == Deltas(chunks)
    ensures Usages(DecodeFrom(START, chunks, coalesce)) == if coalesce then LastOnly(Usages(chunks)) else Usages(chunks)
  {
    DeltasFrom(START, chunks, coalesce);
    if coalesce {
      LastUsageFrom(START, chunks);
    } else {
      UsagesFrom(START, chunks);
    }
    assert [] + Usages(chunks) == Usages(chunks) == Usages(chunks) + [];
  }

  /** A finish reason came no later than the first usage report. */
  ghost predicate FinishInTime(chunks: seq<Chunk>) {
    exists i :: 0 <= i < |chunks| && chunks[i].finish != "" && forall j :: 0 <= j < i ==> chunks[j].usage.None?
  }

  lemma {:induction false} FinishInTimeTail(chunks: seq<Chunk>)
    requires chunks != []
    ensures FinishInTime(chunks) <==> chunks[0].finish != "" || (chunks[0].usage.None? && FinishInTime(chunks[1..]))
  {
    var rest := chunks[1..];
    if chunks[0].finish == "" && FinishInTime(chunks) {
      var i :| 0 <= i < |chunks| && chunks[i].finish != "" && forall j :: 0 <= j < i ==> chunks[j].usage.None?;
      assert rest[i - 1].finish != "" && forall j :: 0 <= j < i - 1 ==> rest[j] == chunks[j + 1];
    }
    if chunks[0].usage.None? && FinishInTime(rest) {
      var i :| 0 <= i < |rest| && rest[i].finish != "" && forall j :: 0 <= j < i ==> rest[j].usage.None?;
      assert chunks[i + 1] == rest[i] && forall j :: 1 <= j < i + 1 ==> chunks[j] == rest[j - 1];
    }
  }

  /**
   With usage passed on as it comes, all finish reasons come out too, and one is made up
   exactly when none came by the first report, or by the end of a stream without reports.
   */
  lemma {:induction false} FinishesOutUncoalesced(d: Loop, chunks: seq<Chunk>)
    ensures Finishes(DecodeFrom(d, chunks, false))
         == Finishes(chunks) + if d.sawFinish || FinishInTime(chunks) then 0 else 1
    decreases |chunks|
  {
    if chunks == [] {
      EndingFinishes(d);
    } else {
      var (next, out) := Turn(d, chunks[0], false);
      TurnFinishes(d, chunks[0], false);
      FinishesOne(chunks[0]);
      FinishInTimeTail(chunks);
      FinishesAppend(out, DecodeFrom(next, chunks[1..], false));
      FinishesOutUncoalesced(next, chunks[1..]);
    }
  }

  /**
   When the promised exactly one finish reason comes out: the upstream sent none, or it sent one and,
   unless usage is coalesced, sent it no later than its first report.
   */
  lemma {:induction false} ExactlyOneFinish(chunks: seq<Chunk>, coalesce: bool)
    ensures Finishes(DecodeFrom(START, chunks, coalesce)) == 1 <==>
            Finishes(chunks) == 0 || (Finishes(chunks) == 1 && (coalesce || FinishInTime(chunks)))
  {
    if coalesce {
      FinishesOut(START, chunks);
    } else {
      FinishesOutUncoalesced(START, chunks);
      if FinishInTime(chunks) {
        NoneInTime(chunks);
      }
    }
  }

  lemma {:induction false} NoneInTime(chunks: seq<Chunk>)
    requires FinishInTime(chunks)
    ensures Finishes(chunks) > 0
    decreases |chunks|
  {
    FinishInTimeTail(chunks);
    if chunks[0].finish == "" {
      NoneInTime(chunks[1..]);
    }
  }

  /** A report before the upstream's one finish reason: two come out. */
  lemma {:induction false} LateFinishIsDoubled(u: Usage, finish: string)
    requires finish != ""
    ensures var chunks := [NOTHING.(usage := Some(u)), NOTHING.(finish := finish)];
      Finishes(chunks) == 1 && Finishes(DecodeFrom(START, chunks, false)) == 2
  {
    var report, signal := NOTHING.(usage := Some(u)), NOTHING.(finish := finish);
    var chunks := [report, signal];
    assert chunks[1..] == [signal];
    FinishesOne(signal);
    FinishInTimeTail(chunks);
    FinishesOutUncoalesced(START, chunks);
  }
}
