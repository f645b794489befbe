/**
 Model of internal/anthropic/stream.go: the writer that turns decoded chunks
 into Anthropic Messages events, and of its composition with the decoder.
 */
module AnthropicStreams {
  import opened Common
  import opened StreamDecoders

  datatype Head = TextHead | ToolHead(id: string, name: string)

  datatype Payload = TextDelta(text: string) | JsonDelta(json: string)

  datatype Event =
    | MessageStart
    | BlockStart(index: int, head: Head)
    | BlockDelta(index: int, payload: Payload)
    | BlockStop(index: int)
    | MessageDelta(stop: string, output: int, input: Option<int>)
    | MessageStop

  datatype Kind = NoBlock | TextBlock | ToolBlock

  /** The fields of a StreamWriter, and the events it has sent. */
  datatype Writer = Writer(
    started: bool, kind: Kind, blockIdx: int, blockTool: int, nextIdx: int, stop: string, sent: seq<Event>)

  const FRESH := Writer(false, NoBlock, 0, 0, 0, "", [])

  function StopReason(finish: string): string {
    if finish == "tool_calls" then "tool_use" else if finish == "length" then "max_tokens" else "end_turn"
  }

  // ---------- the writer as functions ----------

  function Send(w: Writer, e: Event): Writer {
    w.(sent := w.sent + [e])
  }

  function Started(w: Writer): Writer {
    if w.started then w else Send(w, MessageStart).(started := true)
  }

  function Closed(w: Writer): Writer {
    if w.kind.NoBlock? then w else Send(w, BlockStop(w.blockIdx)).(kind := NoBlock)
  }

  /** Close the open block, then open a new one. */
  function Opened(w: Writer, kind: Kind, tool: int, head: Head): Writer {
    var c := Closed(w);
    Send(c, BlockStart(c.nextIdx, head))
      .(kind := kind, blockIdx := c.nextIdx, blockTool := tool, nextIdx := c.nextIdx + 1)
  }

  function ToolEnsured(w: Writer, tc: ToolDelta): Writer {
    if w.kind.ToolBlock? && w.blockTool == tc.index then w
    else Opened(w, ToolBlock, tc.index, ToolHead(tc.id, tc.name))
  }

  function ToolWritten(w: Writer, tc: ToolDelta): Writer {
    var o := ToolEnsured(w, tc);
    if tc.args == "" then o else Send(o, BlockDelta(o.blockIdx, JsonDelta(tc.args)))
  }

  function ToolsWritten(w: Writer, tools: seq<ToolDelta>): Writer
    decreases |tools|
  {
    if tools == [] then w else ToolsWritten(ToolWritten(w, tools[0]), tools[1..])
  }

  function TextWritten(w: Writer, text: string): Writer {
    var o := if w.kind.TextBlock? then w else Opened(w, TextBlock, w.blockTool, TextHead);
    Send(o, BlockDelta(o.blockIdx, TextDelta(text)))
  }

  function UsageWritten(w: Writer, u: Usage): Writer {
    var c := Closed(w);
    Send(Send(c, MessageDelta(c.stop, u.completion, InputTokens(u))), MessageStop)
  }

  function InputTokens(u: Usage): Option<int> {
    if u.prompt > 0 then Some(u.prompt) else None
  }

  function StopNoted(w: Writer, finish: string): Writer {
    if finish != "" then w.(stop := StopReason(finish)) else w
  }

  function Written(w: Writer, c: Chunk): Writer {
    var s := StopNoted(Started(w), c.finish);
    if c.tools != [] then ToolsWritten(s, c.tools)
    else if c.content != "" then TextWritten(s, c.content)
    else if c.finish != "" then Closed(s)
    else if c.usage.Some? then UsageWritten(s, c.usage.value)
    else s
  }

  function WrittenAll(w: Writer, chunks: seq<Chunk>): Writer
    decreases |chunks|
  {
    if chunks == [] then w else WrittenAll(Written(w, chunks[0]), chunks[1..])
  }

  // ---------- the writer as the object of the source ----------

  class StreamWriter {
    var started: bool
    var kind: Kind
    var blockIdx: int
    var blockTool: int
    var nextIdx: int
    var stop: string
    var sent: seq<Event>

    ghost function State(): Writer
      reads this
    {
      Writer(started, kind, blockIdx, blockTool, nextIdx, stop, sent)
    }

    constructor ()
      ensures State() == FRESH
    {
      started, kind, blockIdx, blockTool, nextIdx, stop, sent := false, NoBlock, 0, 0, 0, "", [];
    }

    method CloseBlock()
      modifies this
      ensures State() == Closed(old(State()))
    {
      if kind.NoBlock? {
        return;
      }
      sent := sent + [BlockStop(blockIdx)];
      kind := NoBlock;
    }

    method EnsureToolBlock(tc: ToolDelta)
      modifies this
      ensures State() == ToolEnsured(old(State()), tc)
    {
      if kind.ToolBlock? && blockTool == tc.index {
        return;
      }
      CloseBlock();
      sent := sent + [BlockStart(nextIdx, ToolHead(tc.id, tc.name))];
      kind, blockIdx, blockTool := ToolBlock, nextIdx, tc.index;
      nextIdx := nextIdx + 1;
    }

    method WriteTools(tools: seq<ToolDelta>)
      modifies this
      ensures State() == ToolsWritten(old(State()), tools)
    {
      for i := 0 to |tools|
        invariant ToolsWritten(old(State()), tools) == ToolsWritten(State(), tools[i..])
      {
        assert tools[i..][1..] == tools[i + 1..];
        EnsureToolBlock(tools[i]);
        if tools[i].args != "" {
          sent := sent + [BlockDelta(blockIdx, JsonDelta(tools[i].args))];
        }
      }
    }

    method WriteText(text: string)
      modifies this
      ensures State() == TextWritten(old(State()), text)
    {
      if !kind.TextBlock? {
        CloseBlock();
        sent := sent + [BlockStart(nextIdx, TextHead)];
        kind, blockIdx := TextBlock, nextIdx;
        nextIdx := nextIdx + 1;
      }
      sent := sent + [BlockDelta(blockIdx, TextDelta(text))];
    }

    method WriteChunk(c: Chunk)
      modifies this
      ensures State() == Written(old(State()), c)
    {
      if !started {
        sent := sent + [MessageStart];
        started := true;
      }
      if c.finish != "" {
        stop := StopReason(c.finish);
      }
      if c.tools != [] {
        WriteTools(c.tools);
      } else if c.content != "" {
        WriteText(c.content);
      } else if c.finish != "" {
        CloseBlock();
      } else if c.usage.Some? {
        CloseBlock();
        sent := sent + [MessageDelta(stop, c.usage.value.completion, InputTokens(c.usage.value))];
        sent := sent + [MessageStop];
      }
    }
  }

  // ---------- a strict client ----------

  datatype Block = Text(text: string) | Tool(id: string, name: string, json: string)

  function Empty(h: Head): Block {
    match h
    case TextHead => Text("")
    case ToolHead(id, name) => Tool(id, name, "")
  }

  function Extended(b: Block, p: Payload): Option<Block> {
    match (b, p)
    case (Text(t), TextDelta(s)) => Some(Text(t + s))
    case (Tool(id, name, j), JsonDelta(s)) => Some(Tool(id, name, j + s))
    case _ => None
  }

  /** Where a client is in the event grammar, with the blocks it has put together. */
  datatype Client =
    | Waiting
    | Reading(blocks: seq<Block>, open: bool)
    | Ending(blocks: seq<Block>, stop: string, output: int, input: Option<int>)
    | Complete(blocks: seq<Block>, stop: string, output: int, input: Option<int>)
    | Rejected

  /**
   The grammar: message_start, blocks numbered from 0 with deltas of their own
   kind inside them, one message_delta with a stop reason, one message_stop.
   */
  function Reads(c: Client, e: Event): Client {
    match (c, e)
    case (Waiting, MessageStart) => Reading([], false)
    case (Reading(bs, false), BlockStart(i, h)) =>
      if i == |bs| then Reading(bs + [Empty(h)], true) else Rejected
    case (Reading(bs, true), BlockDelta(i, p)) =>
      if i == |bs| - 1 && 0 <= i && Extended(bs[i], p).Some?
      then Reading(bs[i := Extended(bs[i], p).value], true) else Rejected
    case (Reading(bs, true), BlockStop(i)) => if i == |bs| - 1 then Reading(bs, false) else Rejected
    case (Reading(bs, false), MessageDelta(stop, output, input)) =>
      if stop != "" then Ending(bs, stop, output, input) else Rejected
    case (Ending(bs, stop, output, input), MessageStop) => Complete(bs, stop, output, input)
    case _ => Rejected
  }

  function ReadsAll(events: seq<Event>): Client
    decreases |events|
  {
    if events == [] then Waiting else Reads(ReadsAll(events[..|events| - 1]), events[|events| - 1])
  }

  // ---------- the message an upstream means ----------

  /** What an upstream chunk adds: text, a piece of a tool call, or the end of a block. */
  datatype Item = Say(text: string) | Call(tc: ToolDelta) | Pause

  function Calls(tools: seq<ToolDelta>): seq<Item> {
    if tools == [] then [] else [Call(tools[0])] + Calls(tools[1..])
  }

  /** What a chunk that is written adds. */
  function ItemsOf(c: Chunk): seq<Item> {
    if c.tools != [] then Calls(c.tools)
    else if c.content != "" then [Say(c.content)]
    else if c.finish != "" then [Pause]
    else []
  }

  function Items(chunks: seq<Chunk>): seq<Item> {
    if chunks == [] then [] else ItemsOf(chunks[0]) + Items(chunks[1..])
  }

  datatype Last = Nothing | Saying | Calling(index: int)

  /** Blocks are the maximal runs of text, or of pieces of one tool call. */
  datatype Message = Message(blocks: seq<Block>, owners: seq<Option<int>>, last: Last)

  const BLANK := Message([], [], Nothing)

  predicate WellFormed(m: Message) {
    && |m.owners| == |m.blocks|
    && (m.last.Saying? ==> m.blocks != [] && m.blocks[|m.blocks| - 1].Text?)
    && (m.last.Calling? ==>
          && m.blocks != [] && m.blocks[|m.blocks| - 1].Tool?
          && m.owners[|m.owners| - 1] == Some(m.last.index))
  }

  function Added(m: Message, item: Item): (n: Message)
    requires WellFormed(m)
    ensures WellFormed(n)
  {
    var k := |m.blocks| - 1;
    match item
    case Pause => m.(last := Nothing)
    case Say(text) =>
      if m.last.Saying? then m.(blocks := m.blocks[k := Text(m.blocks[k].text + text)])
      else Message(m.blocks + [Text(text)], m.owners + [None], Saying)
    case Call(tc) =>
      if m.last == Calling(tc.index)
      then m.(blocks := m.blocks[k := m.blocks[k].(json := m.blocks[k].json + tc.args)])
      else Message(m.blocks + [Tool(tc.id, tc.name, tc.args)], m.owners + [Some(tc.index)], Calling(tc.index))
  }

  function Grouped(m: Message, items: seq<Item>): (n: Message)
    requires WellFormed(m)
    ensures WellFormed(n)
    decreases |items|
  {
    if items == [] then m else Grouped(Added(m, items[0]), items[1..])
  }

  // ---------- the writer sends the message, and the client reads it ----------

  function Shape(w: Writer): Last {
    match w.kind
    case NoBlock => Nothing
    case TextBlock => Saying
    case ToolBlock => Calling(w.blockTool)
  }

  /** The writer has sent exactly m so far, and a client could read it. */
  ghost predicate Sent(w: Writer, m: Message) {
    && WellFormed(m)
    && w.started && m.last == Shape(w) && w.nextIdx == |m.blocks|
    && ReadsAll(w.sent) == Reading(m.blocks, !w.kind.NoBlock?)
    && (!w.kind.NoBlock? ==> w.blockIdx == |m.blocks| - 1)
  }

  lemma {:induction false} SendReads(w: Writer, e: Event)
    ensures ReadsAll(Send(w, e).sent) == Reads(ReadsAll(w.sent), e)
  {
    assert (w.sent + [e])[..|w.sent|] == w.sent;
  }

  lemma {:induction false} CloseSent(w: Writer, m: Message)
    requires Sent(w, m)
    ensures Sent(Closed(w), Added(m, Pause))
  {
    SendReads(w, BlockStop(w.blockIdx));
  }

  /** A block opened with its first delta already in it. */
  lemma {:induction false} OpenSent(w: Writer, m: Message, kind: Kind, tool: int, head: Head)
    requires Sent(w, m) && !kind.NoBlock?
    ensures var o := Opened(w, kind, tool, head);
      && ReadsAll(o.sent) == Reading(m.blocks + [Empty(head)], true)
      && o.blockIdx == |m.blocks| && o.nextIdx == |m.blocks| + 1 && o.started && o.kind == kind && o.blockTool == tool
  {
    CloseSent(w, m);
    SendReads(Closed(w), BlockStart(Closed(w).nextIdx, head));
  }

  lemma {:induction false} TextSent(w: Writer, m: Message, text: string)
    requires Sent(w, m)
    ensures Sent(TextWritten(w, text), Added(m, Say(text)))
  {
    var o := if w.kind.TextBlock? then w else Opened(w, TextBlock, w.blockTool, TextHead);
    if !w.kind.TextBlock? {
      OpenSent(w, m, TextBlock, w.blockTool, TextHead);
      assert "" + text == text;
      assert (m.blocks + [Text("")])[|m.blocks| := Text(text)] == m.blocks + [Text(text)];
    }
    SendReads(o, BlockDelta(o.blockIdx, TextDelta(text)));
  }

  lemma {:induction false} ToolContinues(w: Writer, m: Message, tc: ToolDelta)
    requires Sent(w, m) && w.kind.ToolBlock? && w.blockTool == tc.index
    ensures Sent(ToolWritten(w, tc), Added(m, Call(tc)))
  {
    var k := |m.blocks| - 1;
    SendReads(w, BlockDelta(w.blockIdx, JsonDelta(tc.args)));
    assert m.blocks[k].json + "" == m.blocks[k].json;
    assert m.blocks[k := m.blocks[k]] == m.blocks;
  }

  /** A tool block opened, and given its arguments if there are any. */
  lemma {:induction false} ToolOpens(w: Writer, m: Message, tc: ToolDelta)
    requires Sent(w, m) && !(w.kind.ToolBlock? && w.blockTool == tc.index)
    ensures Sent(ToolWritten(w, tc), Added(m, Call(tc)))
  {
    var o := ToolEnsured(w, tc);
    var empty := Tool(tc.id, tc.name, "");
    OpenSent(w, m, ToolBlock, tc.index, ToolHead(tc.id, tc.name));
    assert ReadsAll(o.sent) == Reading(m.blocks + [empty], true);
    if tc.args != "" {
      FirstArguments(o, m.blocks, tc);
    }
  }

  lemma {:induction false} FirstArguments(o: Writer, blocks: seq<Block>, tc: ToolDelta)
    requires ReadsAll(o.sent) == Reading(blocks + [Tool(tc.id, tc.name, "")], true) && o.blockIdx == |blocks|
    ensures ReadsAll(Send(o, BlockDelta(o.blockIdx, JsonDelta(tc.args))).sent) == Reading(blocks + [Tool(tc.id, tc.name, tc.args)], true)
  {
    var empty, full := Tool(tc.id, tc.name, ""), Tool(tc.id, tc.name, tc.args);
    SendReads(o, BlockDelta(o.blockIdx, JsonDelta(tc.args)));
    assert "" + tc.args == tc.args;
    assert (blocks + [empty])[|blocks| := full] == blocks + [full];
  }

  lemma {:induction false} ToolSent(w: Writer, m: Message, tc: ToolDelta)
    requires Sent(w, m)
    ensures Sent(ToolWritten(w, tc), Added(m, Call(tc)))
  {
    if w.kind.ToolBlock? && w.blockTool == tc.index {
      ToolContinues(w, m, tc);
    } else {
      ToolOpens(w, m, tc);
    }
  }

  lemma {:induction false} ToolsSent(w: Writer, m: Message, tools: seq<ToolDelta>)
    requires Sent(w, m)
    ensures Sent(ToolsWritten(w, tools), Grouped(m, Calls(tools)))
    decreases |tools|
  {
    if tools != [] {
      ToolSent(w, m, tools[0]);
      ToolsSent(ToolWritten(w, tools[0]), Added(m, Call(tools[0])), tools[1..]);
      assert Calls(tools)[1..] == Calls(tools[1..]);
    }
  }

  lemma {:induction false} StartSent()
    ensures Sent(Started(FRESH), BLANK)
  {
    SendReads(FRESH, MessageStart);
  }

  /** A written chunk without usage adds its items and nothing else. */
  lemma {:induction false} ChunkSent(w: Writer, m: Message, c: Chunk)
    requires Sent(w, m) && c.usage.None?
    ensures Sent(Written(w, c), Grouped(m, ItemsOf(c)))
  {
    var s := StopNoted(w, c.finish);
    assert Sent(s, m);
    if c.tools != [] {
      ToolsSent(s, m, c.tools);
    } else if c.content != "" {
      TextSent(s, m, c.content);
      GroupedOne(m, Say(c.content));
    } else if c.finish != "" {
      CloseSent(s, m);
      GroupedOne(m, Pause);
    }
  }

  lemma {:induction false} GroupedOne(m: Message, item: Item)
    requires WellFormed(m)
    ensures Grouped(m, [item]) == Added(m, item)
  {
    assert [item][1..] == [];
  }

  lemma {:induction false} GroupedAppend(m: Message, a: seq<Item>, b: seq<Item>)
    requires WellFormed(m)
    ensures Grouped(m, a + b) == Grouped(Grouped(m, a), b)
    decreases |a|
  {
    if a == [] {
      assert a + b == b;
    } else {
      assert (a + b)[1..] == a[1..] + b;
      GroupedAppend(Added(m, a[0]), a[1..], b);
    }
  }

  lemma {:induction false} ListSent(w: Writer, m: Message, chunks: seq<Chunk>)
    requires Sent(w, m) && forall c <- chunks :: c.usage.None?
    ensures Sent(WrittenAll(w, chunks), Grouped(m, Items(chunks)))
    decreases |chunks|
  {
    if chunks != [] {
      ChunkSent(w, m, chunks[0]);
      ListSent(Written(w, chunks[0]), Grouped(m, ItemsOf(chunks[0])), chunks[1..]);
      GroupedAppend(m, ItemsOf(chunks[0]), Items(chunks[1..]));
    }
  }

  lemma {:induction false} ToolsKeepStop(w: Writer, tools: seq<ToolDelta>)
    ensures ToolsWritten(w, tools).stop == w.stop
    decreases |tools|
  {
    if tools != [] {
      ToolsKeepStop(ToolWritten(w, tools[0]), tools[1..]);
    }
  }

  lemma {:induction false} StopWritten(w: Writer, c: Chunk)
    ensures Written(w, c).stop == if c.finish != "" then StopReason(c.finish) else w.stop
  {
    ToolsKeepStop(StopNoted(Started(w), c.finish), c.tools);
  }

  lemma {:induction false} WrittenOne(w: Writer, c: Chunk)
    ensures WrittenAll(w, [c]) == Written(w, c)
  {
    assert [c][1..] == [];
  }

  lemma {:induction false} WrittenTwo(w: Writer, a: Chunk, b: Chunk)
    ensures WrittenAll(w, [a, b]) == Written(Written(w, a), b)
  {
    assert [a, b] == [a] + [b];
    WrittenAppend(w, [a], [b]);
    WrittenOne(w, a);
    WrittenOne(Written(w, a), b);
  }

  lemma {:induction false} WrittenAppend(w: Writer, a: seq<Chunk>, b: seq<Chunk>)
    ensures WrittenAll(w, a + b) == WrittenAll(WrittenAll(w, a), b)
    decreases |a|
  {
    if a == [] {
      assert a + b == b;
    } else {
      assert (a + b)[1..] == a[1..] + b;
      WrittenAppend(Written(w, a[0]), a[1..], b);
    }
  }

  // ---------- decoder and writer together ----------

  /** What an upstream chunk means: its deltas, then a pause if it finishes. */
  function MeaningOf(c: Chunk): seq<Item> {
    ItemsOf(c.(finish := "")) + if c.finish != "" then [Pause] else []
  }

  function Meaning(chunks: seq<Chunk>): seq<Item> {
    if chunks == [] then [] else MeaningOf(chunks[0]) + Meaning(chunks[1..])
  }

  function LastUsage(was: Option<Usage>, chunks: seq<Chunk>): Option<Usage>
    decreases |chunks|
  {
    if chunks == [] then was
    else LastUsage(if chunks[0].usage.Some? then chunks[0].usage else was, chunks[1..])
  }

  /** The last finish reason, or the one made up for a stream that had none. */
  function FinishOf(was: string, tools: bool, chunks: seq<Chunk>): string
    decreases |chunks|
  {
    if chunks == [] then (if was != "" then was else Synthesized(tools))
    else FinishOf(if chunks[0].finish != "" then chunks[0].finish else was, tools || chunks[0].tools != [], chunks[1..])
  }

  lemma {:induction false} ItemsOne(c: Chunk)
    ensures Items([c]) == ItemsOf(c)
  {
    assert [c][1..] == [];
  }

  lemma {:induction false} SplitMeans(c: Chunk)
    requires c.usage.None?
    ensures Items(SplitFinish(c)) == MeaningOf(c)
  {
    if c.finish == "" || !HasDelta(c) {
      ItemsOne(c);
      assert c.finish == "" ==> c.(finish := "") == c;
    } else {
      var body, signal := c.(finish := ""), NOTHING.(finish := c.finish);
      assert [body, signal][1..] == [signal];
      ItemsOne(signal);
    }
  }

  /** One turn of the coalescing decoder, written. */
  lemma {:induction false} TurnSent(w: Writer, m: Message, d: Loop, c: Chunk)
    requires Sent(w, m)
    ensures Sent(WrittenAll(w, Turn(d, c, true).1), Grouped(m, MeaningOf(c)))
    ensures WrittenAll(w, Turn(d, c, true).1).stop == if c.finish != "" then StopReason(c.finish) else w.stop
  {
    var bare := c.(usage := None);
    var out := Turn(d, c, true).1;
    SplitMeans(bare);
    assert MeaningOf(bare) == MeaningOf(c);
    if HasPayload(bare) || c.usage.None? {
      assert out == SplitFinish(bare);
      ListSent(w, m, out);
      SplitStops(w, bare);
    } else {
      assert out == [] && MeaningOf(c) == [];
    }
  }

  lemma {:induction false} SplitStops(w: Writer, c: Chunk)
    ensures WrittenAll(w, SplitFinish(c)).stop == if c.finish != "" then StopReason(c.finish) else w.stop
  {
    if c.finish == "" || !HasDelta(c) {
      WrittenOne(w, c);
      StopWritten(w, c);
    } else {
      var body, signal := c.(finish := ""), NOTHING.(finish := c.finish);
      WrittenTwo(w, body, signal);
      StopWritten(Written(w, body), signal);
    }
  }

  /** What the client ends up with, given the message and the usage report. */
  ghost predicate Delivered(client: Client, blocks: seq<Block>, finish: string, usage: Option<Usage>) {
    match usage
    case None => client.Reading? && client.blocks == blocks
    case Some(u) => client == Complete(blocks, StopReason(finish), u.completion, InputTokens(u))
  }

  lemma {:induction false} UsageSent(w: Writer, m: Message, u: Usage)
    requires Sent(w, m) && w.stop != ""
    ensures ReadsAll(UsageWritten(w, u).sent) == Complete(m.blocks, w.stop, u.completion, InputTokens(u))
  {
    CloseSent(w, m);
    var c := Closed(w);
    var delta := MessageDelta(c.stop, u.completion, InputTokens(u));
    SendReads(c, delta);
    SendReads(Send(c, delta), MessageStop);
  }

  /** The ending of a stream is written as a made-up finish, then the usage. */
  lemma {:induction false} EndingWritten(w: Writer, d: Loop)
    ensures var v := if d.sawFinish then w else Written(w, NOTHING.(finish := Synthesized(d.sawTools)));
      WrittenAll(w, StreamDecoders.Ending(d)) == if d.held.None? then v else Written(v, NOTHING.(usage := d.held))
  {
    var made := NOTHING.(finish := Synthesized(d.sawTools));
    var usage := NOTHING.(usage := d.held);
    WrittenAppend(w, if d.sawFinish then [] else [made], if d.held.None? then [] else [usage]);
    WrittenOne(w, made);
    WrittenOne(if d.sawFinish then w else Written(w, made), usage);
  }

  lemma {:induction false} EndingSent(w: Writer, m: Message, d: Loop, finish: string)
    requires Sent(w, m) && d.sawFinish == (finish != "")
    requires d.sawFinish ==> w.stop == StopReason(finish)
    ensures Delivered(ReadsAll(WrittenAll(w, StreamDecoders.Ending(d)).sent), m.blocks,
                      FinishOf(finish, d.sawTools, []), d.held)
  {
    EndingWritten(w, d);
    var made := NOTHING.(finish := Synthesized(d.sawTools));
    var v := if d.sawFinish then w else Written(w, made);
    if !d.sawFinish {
      CloseSent(StopNoted(w, made.finish), m);
    }
    if d.held.Some? {
      UsageSent(v, if d.sawFinish then m else Added(m, Pause), d.held.value);
    }
  }

  /** What one more chunk changes for the rest of the pipeline: what is written, */
  lemma {:induction false} WrittenOn(w: Writer, d: Loop, chunks: seq<Chunk>)
    requires chunks != []
    ensures var next, out := Turn(d, chunks[0], true).0, Turn(d, chunks[0], true).1;
      WrittenAll(w, DecodeFrom(d, chunks, true)) == WrittenAll(WrittenAll(w, out), DecodeFrom(next, chunks[1..], true))
  {
    var (next, out) := Turn(d, chunks[0], true);
    DecodeOnce(d, chunks, true);
    WrittenAppend(w, out, DecodeFrom(next, chunks[1..], true));
  }

  /** what is meant, */
  lemma {:induction false} MeantOn(m: Message, chunks: seq<Chunk>)
    requires WellFormed(m) && chunks != []
    ensures Grouped(m, Meaning(chunks)) == Grouped(Grouped(m, MeaningOf(chunks[0])), Meaning(chunks[1..]))
  {
    GroupedAppend(m, MeaningOf(chunks[0]), Meaning(chunks[1..]));
  }

  /** and what it ends with. */
  lemma {:induction false} EndOn(d: Loop, chunks: seq<Chunk>, finish: string)
    requires chunks != [] && d.sawFinish == (finish != "")
    ensures var next, now := Turn(d, chunks[0], true).0, if chunks[0].finish != "" then chunks[0].finish else finish;
      && next.sawFinish == (now != "")
      && FinishOf(finish, d.sawTools, chunks) == FinishOf(now, next.sawTools, chunks[1..])
      && LastUsage(d.held, chunks) == LastUsage(next.held, chunks[1..])
  {
  }

  lemma {:induction false} PipelineSent(w: Writer, m: Message, d: Loop, chunks: seq<Chunk>, finish: string)
    requires Sent(w, m) && d.sawFinish == (finish != "")
    requires d.sawFinish ==> w.stop == StopReason(finish)
    ensures Delivered(ReadsAll(WrittenAll(w, DecodeFrom(d, chunks, true)).sent), Grouped(m, Meaning(chunks)).blocks,
                      FinishOf(finish, d.sawTools, chunks), LastUsage(d.held, chunks))
    decreases |chunks|
  {
    if chunks == [] {
      EndingSent(w, m, d, finish);
    } else {
      var c := chunks[0];
      var (next, out) := Turn(d, c, true);
      TurnSent(w, m, d, c);
      WrittenOn(w, d, chunks);
      MeantOn(m, chunks);
      EndOn(d, chunks, finish);
      PipelineSent(WrittenAll(w, out), Grouped(m, MeaningOf(c)), next, chunks[1..],
                   if c.finish != "" then c.finish else finish);
    }
  }

  /**
   For every upstream stream that ended cleanly, decoded with coalesced usage
   and written out: the events are a well-formed message a strict client can
   read, holding exactly the blocks the upstream meant; it is complete, with a
   stop reason and the last usage report, exactly when there was a report.
   */
  lemma {:induction false} EveryStreamIsWellFormed(chunks: seq<Chunk>)
    ensures var w := WrittenAll(FRESH, DecodeFrom(START, chunks, true));
      Delivered(ReadsAll(w.sent), Grouped(BLANK, Meaning(chunks)).blocks,
                FinishOf("", false, chunks), LastUsage(None, chunks))
  {
    var out := DecodeFrom(START, chunks, true);
    FinishesOut(START, chunks);
    assert out != [];
    StartSent();
    assert Written(FRESH, out[0]) == Written(Started(FRESH), out[0]);
    PipelineSent(Started(FRESH), BLANK, START, chunks, "");
  }

  // ---------- what the message ends with ----------

  ghost predicate LastFinishAt(chunks: seq<Chunk>, i: nat) {
    i < |chunks| && chunks[i].finish != "" && forall j :: i < j < |chunks| ==> chunks[j].finish == ""
  }

  ghost predicate LastReportAt(chunks: seq<Chunk>, k: nat) {
    k < |chunks| && chunks[k].usage.Some? && forall j :: k < j < |chunks| ==> chunks[j].usage.None?
  }

  ghost predicate NoFinish(chunks: seq<Chunk>) {
    forall j :: 0 <= j < |chunks| ==> chunks[j].finish == ""
  }

  ghost predicate CallsTools(chunks: seq<Chunk>) {
    exists j :: 0 <= j < |chunks| && chunks[j].tools != []
  }

  /** How a finish reason is told to a client of this protocol. */
  ghost predicate ToldStop(finish: string, stop: string) {
    && (stop == "tool_use" <==> finish == "tool_calls")
    && (stop == "max_tokens" <==> finish == "length")
    && (stop == "end_turn" <==> finish != "tool_calls" && finish != "length")
  }

  /** The prompt's tokens as told: none rather than a confident zero. */
  ghost predicate ToldInput(u: Usage, input: Option<int>) {
    (u.prompt > 0 ==> input == Some(u.prompt)) && (u.prompt <= 0 ==> input.None?)
  }

  lemma {:induction false} NoMoreReports(was: Option<Usage>, chunks: seq<Chunk>)
    requires forall j :: 0 <= j < |chunks| ==> chunks[j].usage.None?
    ensures LastUsage(was, chunks) == was
    decreases |chunks|
  {
    if chunks != [] {
      NoMoreReports(was, chunks[1..]);
    }
  }

  lemma {:induction false} LastReportIs(was: Option<Usage>, chunks: seq<Chunk>, k: nat)
    requires LastReportAt(chunks, k)
    ensures LastUsage(was, chunks) == chunks[k].usage
    decreases |chunks|
  {
    var rest, now := chunks[1..], if chunks[0].usage.Some? then chunks[0].usage else was;
    if k == 0 {
      NoMoreReports(now, rest);
    } else {
      assert rest[k - 1] == chunks[k];
      LastReportIs(now, rest, k - 1);
    }
  }

  lemma {:induction false} NoMoreFinish(was: string, tools: bool, chunks: seq<Chunk>)
    requires NoFinish(chunks)
    ensures was != "" ==> FinishOf(was, tools, chunks) == was
    ensures was == "" ==> FinishOf(was, tools, chunks) == Synthesized(tools || CallsTools(chunks))
    decreases |chunks|
  {
    if chunks != [] {
      var rest := chunks[1..];
      NoMoreFinish(was, tools || chunks[0].tools != [], rest);
      assert CallsTools(chunks) <==> chunks[0].tools != [] || CallsTools(rest) by {
        if CallsTools(rest) {
          var j :| 0 <= j < |rest| && rest[j].tools != [];
          assert chunks[j + 1].tools != [];
        }
        if CallsTools(chunks) {
          var j :| 0 <= j < |chunks| && chunks[j].tools != [];
          assert j > 0 ==> rest[j - 1] == chunks[j];
        }
      }
    }
  }

  lemma {:induction false} LastFinishIs(was: string, tools: bool, chunks: seq<Chunk>, i: nat)
    requires LastFinishAt(chunks, i)
    ensures FinishOf(was, tools, chunks) == chunks[i].finish
    decreases |chunks|
  {
    var rest, now := chunks[1..], if chunks[0].finish != "" then chunks[0].finish else was;
    if i == 0 {
      NoMoreFinish(now, tools || chunks[0].tools != [], rest);
    } else {
      assert rest[i - 1] == chunks[i];
      LastFinishIs(now, tools || chunks[0].tools != [], rest, i - 1);
    }
  }

  lemma {:induction false} StopIsTold(finish: string)
    ensures ToldStop(finish, StopReason(finish))
  {
  }

  /**
   For every upstream stream with a usage report, the last of them at k: the client's message ends with that report's tokens, and its stop
   reason is the last finish reason in the protocol's words; without any, "tool_use" if the stream called tools and "end_turn" if not.
   */
  lemma {:induction false} EndsAsReported(chunks: seq<Chunk>, k: nat)
    requires LastReportAt(chunks, k)
    ensures var client := ReadsAll(WrittenAll(FRESH, DecodeFrom(START, chunks, true)).sent);
      && client.Complete? && client.output == chunks[k].usage.value.completion && ToldInput(chunks[k].usage.value, client.input)
      && (forall i: nat :: LastFinishAt(chunks, i) ==> ToldStop(chunks[i].finish, client.stop))
      && (NoFinish(chunks) ==> client.stop == if CallsTools(chunks) then "tool_use" else "end_turn")
  {
    EveryStreamIsWellFormed(chunks);
    LastReportIs(None, chunks, k);
    var finish := FinishOf("", false, chunks);
    StopIsTold(finish);
    forall i: nat | LastFinishAt(chunks, i) ensures finish == chunks[i].finish {
      LastFinishIs("", false, chunks, i);
    }
    if NoFinish(chunks) {
      NoMoreFinish("", false, chunks);
    }
  }

  // ---------- usage passed on as it comes ----------

  /** A chunk for which an open message gets no event: no text, no tool call, no report. */
  predicate Silent(c: Chunk) {
    c.content == "" && c.tools == [] && c.usage.None?
  }

  /** The place of the first usage report, or the length of a stream without one. */
  function FirstReport(chunks: seq<Chunk>): (i: nat)
    ensures i <= |chunks|
    ensures i < |chunks| ==> chunks[i].usage.Some?
  {
    if chunks == [] || chunks[0].usage.Some? then 0 else FirstReport(chunks[1..]) + 1
  }

  /** Decoding up to the first report is the same whether or not usage is held back. */
  lemma {:induction false} ReportEndsDecoding(d: Loop, c: Chunk)
    requires c.usage.Some? && d.held.None?
    ensures var (next, out) := Turn(d, c, false);
      next.sawFinish && next.held.None? && out == DecodeFrom(d, [c], true)
      && out != [] && out[|out| - 1] == NOTHING.(usage := c.usage)
  {
    assert [c][1..] == [];
    var s, bare := StreamDecoders.Seen(d, c), c.(usage := None);
    assert DecodeFrom(d, [c], true) == Turn(d, c, true).1 + StreamDecoders.Ending(Turn(d, c, true).0);
    if !s.sawFinish && !HasDelta(bare) {
      assert bare == NOTHING;
    }
  }

  lemma {:induction false} DecodeOnce(d: Loop, chunks: seq<Chunk>, coalesce: bool)
    requires chunks != []
    ensures DecodeFrom(d, chunks, coalesce)
         == Turn(d, chunks[0], coalesce).1 + DecodeFrom(Turn(d, chunks[0], coalesce).0, chunks[1..], coalesce)
  {
  }

  /** A chunk before the first report, put in front of a stream split there. */
  lemma {:induction false} SplitOneMore(d: Loop, n: Loop, out: seq<Chunk>, chunks: seq<Chunk>, i: nat, next: Loop, rest: seq<Chunk>, report: Chunk)
    requires 0 < i < |chunks| && Turn(d, chunks[0], false) == (n, out) && Turn(d, chunks[0], true) == (n, out)
    requires DecodeFrom(n, chunks[1..][..i], true) == rest + [report]
    requires DecodeFrom(n, chunks[1..], false) == DecodeFrom(n, chunks[1..][..i], true) + DecodeFrom(next, chunks[i + 1..], false)
    ensures DecodeFrom(d, chunks[..i + 1], true) == out + rest + [report]
    ensures DecodeFrom(d, chunks, false) == DecodeFrom(d, chunks[..i + 1], true) + DecodeFrom(next, chunks[i + 1..], false)
  {
    DecodeOnce(d, chunks, false);
    DecodeOnce(d, chunks[..i + 1], true);
    assert chunks[..i + 1][1..] == chunks[1..][..i];
    Regroup(out, rest, [report]);
    Regroup(out, rest + [report], DecodeFrom(next, chunks[i + 1..], false));
  }

  lemma {:induction false} SplitAtOnce(d: Loop, chunks: seq<Chunk>) returns (next: Loop, body: seq<Chunk>)
    requires d.held.None? && chunks != [] && chunks[0].usage.Some?
    ensures next.sawFinish && next.held.None?
    ensures DecodeFrom(d, chunks[..1], true) == body + [NOTHING.(usage := chunks[0].usage)]
    ensures DecodeFrom(d, chunks, false) == DecodeFrom(d, chunks[..1], true) + DecodeFrom(next, chunks[1..], false)
  {
    var c := chunks[0];
    ReportEndsDecoding(d, c);
    DecodeOnce(d, chunks, false);
    var out := Turn(d, c, false).1;
    next, body := Turn(d, c, false).0, out[..|out| - 1];
    assert chunks[..1] == [c];
  }

  lemma {:induction false} SplitAtReport(d: Loop, chunks: seq<Chunk>) returns (next: Loop, body: seq<Chunk>)
    requires d.held.None? && FirstReport(chunks) < |chunks|
    ensures next.sawFinish && next.held.None?
    ensures var i := FirstReport(chunks);
      && DecodeFrom(d, chunks[..i + 1], true) == body + [NOTHING.(usage := chunks[i].usage)]
      && DecodeFrom(d, chunks, false) == DecodeFrom(d, chunks[..i + 1], true) + DecodeFrom(next, chunks[i + 1..], false)
    decreases |chunks|
  {
    var i, c := FirstReport(chunks), chunks[0];
    if c.usage.Some? {
      next, body := SplitAtOnce(d, chunks);
    } else {
      var (n, out) := Turn(d, c, false);
      var rest;
      next, rest := SplitAtReport(n, chunks[1..]);
      assert chunks[1..][i..] == chunks[i + 1..] && chunks[1..][i - 1] == chunks[i];
      SplitOneMore(d, n, out, chunks, i, next, rest, NOTHING.(usage := chunks[i].usage));
      body := out + rest;
    }
  }

  lemma {:induction false} ToolsGrow(w: Writer, tools: seq<ToolDelta>)
    ensures w.sent <= ToolsWritten(w, tools).sent
    decreases |tools|
  {
    if tools != [] {
      ToolGrows(w, tools[0]);
      ToolsGrow(ToolWritten(w, tools[0]), tools[1..]);
    }
  }

  lemma {:induction false} ToolGrows(w: Writer, tc: ToolDelta)
    ensures w.sent <= ToolWritten(w, tc).sent
    ensures w.kind.NoBlock? ==> |w.sent| < |ToolWritten(w, tc).sent|
  {
  }

  /** Events are only ever added; a chunk that is not silent adds some even when no block is open. */
  lemma {:induction false} ChunkGrows(w: Writer, c: Chunk)
    requires w.started
    ensures w.sent <= Written(w, c).sent && Written(w, c).started
    ensures w.kind.NoBlock? && Silent(c) ==> Written(w, c).sent == w.sent && Written(w, c).kind.NoBlock?
    ensures w.kind.NoBlock? && RidesAlone(c) && !Silent(c) ==> |w.sent| < |Written(w, c).sent|
  {
    if c.tools != [] {
      var s := StopNoted(w, c.finish);
      ToolGrows(s, c.tools[0]);
      ToolsGrow(ToolWritten(s, c.tools[0]), c.tools[1..]);
      ToolsStart(s, c.tools);
    }
  }

  lemma {:induction false} ToolsStart(w: Writer, tools: seq<ToolDelta>)
    ensures ToolsWritten(w, tools).started == w.started
    decreases |tools|
  {
    if tools != [] {
      ToolsStart(ToolWritten(w, tools[0]), tools[1..]);
    }
  }

  lemma {:induction false} ListGrows(w: Writer, chunks: seq<Chunk>)
    requires w.started && forall c <- chunks :: RidesAlone(c)
    ensures w.sent <= WrittenAll(w, chunks).sent
    ensures w.kind.NoBlock? && (forall c <- chunks :: Silent(c)) ==> WrittenAll(w, chunks).sent == w.sent
    ensures w.kind.NoBlock? && (exists c <- chunks :: !Silent(c)) ==> |w.sent| < |WrittenAll(w, chunks).sent|
    decreases |chunks|
  {
    if chunks != [] {
      ChunkGrows(w, chunks[0]);
      ListGrows(Written(w, chunks[0]), chunks[1..]);
      assert chunks == [chunks[0]] + chunks[1..];
    }
  }

  /** Nothing may follow the end of a message. */
  lemma {:induction false} ReadsPastTheEnd(a: seq<Event>, b: seq<Event>)
    requires a <= b && |a| < |b| && (ReadsAll(a).Complete? || ReadsAll(a).Rejected?)
    ensures ReadsAll(b).Rejected?
    decreases |b|
  {
    var n := |b| - 1;
    if |a| < n {
      ReadsPastTheEnd(a, b[..n]);
    } else {
      assert b[..n] == a;
    }
  }

  lemma {:induction false} TurnIsSilent(d: Loop, c: Chunk)
    requires d.sawFinish
    ensures (forall e <- Turn(d, c, false).1 :: Silent(e)) <==> Silent(c)
    ensures Turn(d, c, false).0.sawFinish
  {
    var out, bare := Turn(d, c, false).1, c.(usage := None);
    if c.usage.Some? {
      assert out[|out| - 1] in out && !Silent(out[|out| - 1]);
    } else {
      assert out[0] in out && out[0].content == c.content && out[0].tools == c.tools && out[0].usage.None?;
      assert |out| == 2 ==> Silent(out[1]);
    }
  }

  /** Once a finish reason has come, what is decoded is silent exactly when the chunks are. */
  lemma {:induction false} RestIsSilent(d: Loop, chunks: seq<Chunk>)
    requires d.sawFinish && d.held.None?
    ensures (forall e <- DecodeFrom(d, chunks, false) :: Silent(e)) <==> forall c <- chunks :: Silent(c)
    decreases |chunks|
  {
    if chunks == [] {
      assert DecodeFrom(d, chunks, false) == [];
    } else {
      var (next, out) := Turn(d, chunks[0], false);
      TurnIsSilent(d, chunks[0]);
      RestIsSilent(next, chunks[1..]);
      assert chunks == [chunks[0]] + chunks[1..];
    }
  }

  lemma {:induction false} ReportCloses(w: Writer, body: seq<Chunk>, u: Usage)
    ensures WrittenAll(w, body + [NOTHING.(usage := Some(u))]).kind.NoBlock?
    ensures WrittenAll(w, body + [NOTHING.(usage := Some(u))]).started
  {
    var report := NOTHING.(usage := Some(u));
    WrittenAppend(w, body, [report]);
    WrittenOne(WrittenAll(w, body), report);
  }

  /**
   With usage passed on as it comes, a strict client reads a complete message exactly when there is a
   report and no text, tool call or further report after the first; the message is then the one coalesced
   decoding of the stream up to that report gives. Anything after it makes the client reject.
   */
  lemma {:induction false} UncoalescedStreams(chunks: seq<Chunk>)
    requires FirstReport(chunks) < |chunks|
    ensures var i := FirstReport(chunks);
      var client := ReadsAll(WrittenAll(FRESH, DecodeFrom(START, chunks, false)).sent);
      var upTo := chunks[..i + 1];
      if forall c <- chunks[i + 1..] :: Silent(c)
      then Delivered(client, Grouped(BLANK, Meaning(upTo)).blocks, FinishOf("", false, upTo), chunks[i].usage)
      else client.Rejected?
  {
    var i := FirstReport(chunks);
    var upTo, later := chunks[..i + 1], chunks[i + 1..];
    var next, body := SplitAtReport(START, chunks);
    var first, rest := DecodeFrom(START, upTo, true), DecodeFrom(next, later, false);
    EveryStreamIsWellFormed(upTo);
    LastUsageSnoc(None, upTo);
    WrittenAppend(FRESH, first, rest);
    var w := WrittenAll(FRESH, first);
    ReportCloses(FRESH, body, chunks[i].usage.value);
    SignalsRideAlone(next, later, false);
    RestIsSilent(next, later);
    ListGrows(w, rest);
    if exists c <- later :: !Silent(c) {
      ReadsPastTheEnd(w.sent, WrittenAll(w, rest).sent);
    }
  }

  lemma {:induction false} LastUsageSnoc(was: Option<Usage>, chunks: seq<Chunk>)
    requires chunks != [] && chunks[|chunks| - 1].usage.Some?
    ensures LastUsage(was, chunks) == chunks[|chunks| - 1].usage
    decreases |chunks|
  {
    if |chunks| > 1 {
      LastUsageSnoc(if chunks[0].usage.Some? then chunks[0].usage else was, chunks[1..]);
    } else {
      assert chunks[1..] == [];
    }
  }

  /** Without a report the two ways of decoding agree, and the message stays open. */
  lemma {:induction false} NoReportNoDifference(d: Loop, chunks: seq<Chunk>)
    requires FirstReport(chunks) == |chunks|
    ensures DecodeFrom(d, chunks, false) == DecodeFrom(d, chunks, true)
    ensures LastUsage(None, chunks) == None
    decreases |chunks|
  {
    if chunks != [] {
      NoReportNoDifference(Turn(d, chunks[0], true).0, chunks[1..]);
    }
  }

  lemma {:induction false} UncoalescedWithoutReport(chunks: seq<Chunk>)
    requires FirstReport(chunks) == |chunks|
    ensures var client := ReadsAll(WrittenAll(FRESH, DecodeFrom(START, chunks, false)).sent);
      client.Reading? && client.blocks == Grouped(BLANK, Meaning(chunks)).blocks
  {
    NoReportNoDifference(START, chunks);
    EveryStreamIsWellFormed(chunks);
  }

  // ---------- conservation of text ----------

  function TextOf(blocks: seq<Block>): string
    decreases |blocks|
  {
    if blocks == [] then ""
    else
      var b := blocks[|blocks| - 1];
      TextOf(blocks[..|blocks| - 1]) + if b.Text? then b.text else ""
  }

  function Said(items: seq<Item>): string {
    if items == [] then "" else (if items[0].Say? then items[0].text else "") + Said(items[1..])
  }

  lemma {:induction false} TextAdded(m: Message, item: Item)
    requires WellFormed(m)
    ensures TextOf(Added(m, item).blocks) == TextOf(m.blocks) + if item.Say? then item.text else ""
  {
    var n := Added(m, item);
    if |n.blocks| > |m.blocks| {
      assert n.blocks[..|m.blocks|] == m.blocks;
    } else if m.blocks != [] {
      assert n.blocks[..|m.blocks| - 1] == m.blocks[..|m.blocks| - 1];
    }
  }

  lemma {:induction false} GroupedCons(m: Message, items: seq<Item>)
    requires WellFormed(m) && items != []
    ensures Grouped(m, items) == Grouped(Added(m, items[0]), items[1..])
  {
  }

  lemma {:induction false} TextGrouped(m: Message, items: seq<Item>)
    requires WellFormed(m)
    ensures TextOf(Grouped(m, items).blocks) == TextOf(m.blocks) + Said(items)
    decreases |items|
  {
    if items != [] {
      var item, rest := items[0], items[1..];
      GroupedCons(m, items);
      TextAdded(m, item);
      TextGrouped(Added(m, item), rest);
      Regroup(TextOf(m.blocks), if item.Say? then item.text else "", Said(rest));
    }
  }

  function AllText(chunks: seq<Chunk>): string {
    if chunks == [] then "" else chunks[0].content + AllText(chunks[1..])
  }

  lemma {:induction false} SaidAppend(a: seq<Item>, b: seq<Item>)
    ensures Said(a + b) == Said(a) + Said(b)
  {
    if a == [] {
      assert a + b == b;
    } else {
      assert (a + b)[1..] == a[1..] + b;
      SaidAppend(a[1..], b);
    }
  }

  lemma {:induction false} CallsSayNothing(tools: seq<ToolDelta>)
    ensures Said(Calls(tools)) == ""
  {
    if tools != [] {
      assert Calls(tools)[1..] == Calls(tools[1..]);
      CallsSayNothing(tools[1..]);
    }
  }

  lemma {:induction false} ChunkSays(c: Chunk)
    ensures Said(MeaningOf(c)) == if c.tools != [] then "" else c.content
  {
    var pause := if c.finish != "" then [Pause] else [];
    SaidAppend(ItemsOf(c.(finish := "")), pause);
    CallsSayNothing(c.tools);
    assert [Pause][1..] == [] && [Say(c.content)][1..] == [];
  }

  predicate TextAlone(c: Chunk) {
    c.content == "" || c.tools == []
  }

  /** Text sent with tool calls is what goes missing, and nothing else. */
  lemma {:induction false} SaidOf(chunks: seq<Chunk>)
    ensures |Said(Meaning(chunks))| <= |AllText(chunks)|
    ensures |Said(Meaning(chunks))| == |AllText(chunks)| ==> forall c <- chunks :: TextAlone(c)
    ensures (forall c <- chunks :: TextAlone(c)) ==> Said(Meaning(chunks)) == AllText(chunks)
  {
    if chunks != [] {
      ChunkSays(chunks[0]);
      SaidAppend(MeaningOf(chunks[0]), Meaning(chunks[1..]));
      SaidOf(chunks[1..]);
      assert chunks[0] in chunks && forall c <- chunks[1..] :: c in chunks;
      assert forall c <- chunks :: c == chunks[0] || c in chunks[1..];
    }
  }

  /**
   The client's text blocks hold all the text of the stream, in order, exactly
   when no chunk carried both text and tool calls.
   */
  lemma {:induction false} TextConserved(chunks: seq<Chunk>)
    ensures TextOf(Grouped(BLANK, Meaning(chunks)).blocks) == AllText(chunks) <==> forall c <- chunks :: TextAlone(c)
  {
    TextGrouped(BLANK, Meaning(chunks));
    assert TextOf([]) + Said(Meaning(chunks)) == Said(Meaning(chunks));
    SaidOf(chunks);
  }

  // ---------- conservation of tool arguments ----------

  predicate IsCall(item: Item, index: int) {
    item.Call? && item.tc.index == index
  }

  function ArgsOf(items: seq<Item>, index: int): string {
    if items == [] then "" else (if IsCall(items[0], index) then items[0].tc.args else "") + ArgsOf(items[1..], index)
  }

  /** The arguments of all the blocks opened for an upstream index, in order. */
  function JsonOf(m: Message, index: int): string
    requires |m.owners| == |m.blocks|
    decreases |m.blocks|
  {
    if m.blocks == [] then ""
    else
      var k := |m.blocks| - 1;
      JsonOf(Message(m.blocks[..k], m.owners[..k], Nothing), index)
      + if m.owners[k] == Some(index) && m.blocks[k].Tool? then m.blocks[k].json else ""
  }

  lemma {:induction false} JsonAdded(m: Message, item: Item, index: int)
    requires WellFormed(m)
    ensures JsonOf(Added(m, item), index) == JsonOf(m, index) + if IsCall(item, index) then item.tc.args else ""
  {
    var n := Added(m, item);
    var k := |m.blocks|;
    if |n.blocks| > k {
      assert n.blocks[..k] == m.blocks && n.owners[..k] == m.owners;
      JsonIgnoresLast(m, index);
    } else if k > 0 {
      assert n.blocks[..k - 1] == m.blocks[..k - 1];
    }
  }

  lemma {:induction false} JsonIgnoresLast(m: Message, index: int)
    requires |m.owners| == |m.blocks|
    ensures JsonOf(m.(last := Nothing), index) == JsonOf(m, index)
  {
  }

  /** Whatever the order of the deltas, no argument byte of any tool call is lost. */
  lemma {:induction false} ArgumentsConserved(m: Message, items: seq<Item>, index: int)
    requires WellFormed(m)
    ensures JsonOf(Grouped(m, items), index) == JsonOf(m, index) + ArgsOf(items, index)
    decreases |items|
  {
    if items != [] {
      var item, rest := items[0], items[1..];
      GroupedCons(m, items);
      JsonAdded(m, item, index);
      ArgumentsConserved(Added(m, item), rest, index);
      Regroup(JsonOf(m, index), if IsCall(item, index) then item.tc.args else "", ArgsOf(rest, index));
    }
  }

  /** Between two deltas of a tool call there is nothing but its own deltas. */
  ghost predicate Contiguous(items: seq<Item>) {
    forall a, b, k :: 0 <= a <= k <= b < |items| && items[a].Call? && IsCall(items[b], items[a].tc.index)
      ==> IsCall(items[k], items[a].tc.index)
  }

  ghost predicate OneBlockEach(owners: seq<Option<int>>) {
    forall a, b :: 0 <= a < b < |owners| && owners[a].Some? ==> owners[a] != owners[b]
  }

  /** The message records which indexes were seen, and which one is being written. */
  ghost predicate Records(m: Message, items: seq<Item>) {
    && WellFormed(m)
    && (forall i :: Some(i) in m.owners <==> exists k :: 0 <= k < |items| && IsCall(items[k], i))
    && (forall i :: m.last == Calling(i) <==> items != [] && IsCall(items[|items| - 1], i))
  }

  lemma {:induction false} RecordsNext(m: Message, items: seq<Item>, item: Item)
    requires Records(m, items)
    ensures Records(Added(m, item), items + [item])
  {
    var n, more := Added(m, item), items + [item];
    forall i
      ensures Some(i) in n.owners <==> exists k :: 0 <= k < |more| && IsCall(more[k], i)
    {
      if Some(i) in m.owners {
        var k :| 0 <= k < |items| && IsCall(items[k], i);
        assert IsCall(more[k], i);
      }
      if IsCall(item, i) {
        assert IsCall(more[|items|], i);
        assert Some(i) in n.owners;
      }
      if exists k :: 0 <= k < |more| && IsCall(more[k], i) {
        var k :| 0 <= k < |more| && IsCall(more[k], i);
        assert k < |items| ==> IsCall(items[k], i);
      }
    }
  }

  ghost predicate Seen(items: seq<Item>, index: int) {
    exists k :: 0 <= k < |items| && IsCall(items[k], index)
  }

  /** A delta of a call seen before keeps the items contiguous only right behind its own. */
  lemma {:induction false} ContiguousNext(items: seq<Item>, item: Item)
    ensures Contiguous(items + [item]) <==>
      Contiguous(items)
      && (item.Call? && Seen(items, item.tc.index) ==> IsCall(items[|items| - 1], item.tc.index))
  {
    var more := items + [item];
    if Contiguous(more) {
      ContiguousPrefix(items, item);
      if item.Call? && Seen(items, item.tc.index) {
        var a :| 0 <= a < |items| && IsCall(items[a], item.tc.index);
        assert more[a] == items[a] && more[|items|] == item && more[|items| - 1] == items[|items| - 1];
      }
    }
    if Contiguous(items) && (item.Call? && Seen(items, item.tc.index) ==> IsCall(items[|items| - 1], item.tc.index)) {
      forall a, b, k | 0 <= a <= k <= b < |more| && more[a].Call? && IsCall(more[b], more[a].tc.index)
        ensures IsCall(more[k], more[a].tc.index)
      {
        if a < |items| && b == |items| && k < |items| {
          assert IsCall(items[a], item.tc.index);
          assert IsCall(items[|items| - 1], items[a].tc.index);
        }
      }
    }
  }

  lemma {:induction false} ContiguousPrefix(items: seq<Item>, item: Item)
    requires Contiguous(items + [item])
    ensures Contiguous(items)
  {
    var more := items + [item];
    assert forall k :: 0 <= k < |items| ==> more[k] == items[k];
  }

  lemma {:induction false} OneBlockEachNext(owners: seq<Option<int>>, i: int)
    ensures OneBlockEach(owners + [Some(i)]) <==> OneBlockEach(owners) && Some(i) !in owners
  {
    var more := owners + [Some(i)];
    assert forall k :: 0 <= k < |owners| ==> more[k] == owners[k];
    assert more[|owners|] == Some(i);
  }

  lemma {:induction false} OneBlockEachKeeps(owners: seq<Option<int>>)
    ensures OneBlockEach(owners + [None]) <==> OneBlockEach(owners)
  {
    var more := owners + [None];
    assert forall k :: 0 <= k < |owners| ==> more[k] == owners[k];
  }

  lemma {:induction false} GroupedSnoc(items: seq<Item>)
    requires items != []
    ensures var n := |items| - 1;
      Grouped(BLANK, items) == Added(Grouped(BLANK, items[..n]), items[n]) && items == items[..n] + [items[n]]
  {
    var n := |items| - 1;
    assert items == items[..n] + [items[n]];
    GroupedAppend(BLANK, items[..n], [items[n]]);
    GroupedOne(Grouped(BLANK, items[..n]), items[n]);
  }

  /** Each tool call gets one block of its own exactly when its deltas are contiguous. */
  lemma {:induction false} OneBlockIffContiguous(items: seq<Item>)
    ensures Records(Grouped(BLANK, items), items)
    ensures OneBlockEach(Grouped(BLANK, items).owners) <==> Contiguous(items)
    decreases |items|
  {
    if items != [] {
      var n := |items| - 1;
      var item, m := items[n], Grouped(BLANK, items[..n]);
      GroupedSnoc(items);
      OneBlockIffContiguous(items[..n]);
      RecordsNext(m, items[..n], item);
      ContiguousNext(items[..n], item);
      OwnersNext(m, items[..n], item);
    }
  }

  lemma {:induction false} OwnersNext(m: Message, items: seq<Item>, item: Item)
    requires Records(m, items)
    ensures OneBlockEach(Added(m, item).owners) <==>
      OneBlockEach(m.owners)
      && (item.Call? && Seen(items, item.tc.index) ==> IsCall(items[|items| - 1], item.tc.index))
  {
    OneBlockEachKeeps(m.owners);
    if item.Call? {
      assert Some(item.tc.index) in m.owners <==> Seen(items, item.tc.index);
      OneBlockEachNext(m.owners, item.tc.index);
    }
  }

  lemma {:induction false} JsonOfOne(m: Message, k: nat, index: int)
    requires |m.owners| == |m.blocks| && OneBlockEach(m.owners)
    requires k < |m.blocks| && m.owners[k] == Some(index) && m.blocks[k].Tool?
    ensures JsonOf(m, index) == m.blocks[k].json
    decreases |m.blocks|
  {
    var n := |m.blocks| - 1;
    var rest := Message(m.blocks[..n], m.owners[..n], Nothing);
    if k == n {
      JsonOfNone(rest, index);
    } else {
      JsonOfOne(rest, k, index);
    }
  }

  lemma {:induction false} JsonOfNone(m: Message, index: int)
    requires |m.owners| == |m.blocks| && Some(index) !in m.owners
    ensures JsonOf(m, index) == ""
    decreases |m.blocks|
  {
    if m.blocks != [] {
      var n := |m.blocks| - 1;
      JsonOfNone(Message(m.blocks[..n], m.owners[..n], Nothing), index);
    }
  }

  /** Blocks with an upstream index are the tool blocks. */
  ghost predicate OwnersFit(m: Message) {
    && |m.owners| == |m.blocks|
    && forall k :: 0 <= k < |m.blocks| ==> (m.owners[k].Some? <==> m.blocks[k].Tool?)
  }

  lemma {:induction false} AddedOwnersFit(m: Message, item: Item)
    requires WellFormed(m) && OwnersFit(m)
    ensures OwnersFit(Added(m, item))
  {
  }

  lemma {:induction false} GroupedOwnersFit(m: Message, items: seq<Item>)
    requires WellFormed(m) && OwnersFit(m)
    ensures OwnersFit(Grouped(m, items))
    decreases |items|
  {
    if items != [] {
      GroupedCons(m, items);
      AddedOwnersFit(m, items[0]);
      GroupedOwnersFit(Added(m, items[0]), items[1..]);
    }
  }

  lemma {:induction false} ContiguousHaveOneBlock(items: seq<Item>)
    requires Contiguous(items)
    ensures OneBlockEach(Grouped(BLANK, items).owners)
  {
    OneBlockIffContiguous(items);
  }

  lemma {:induction false} OwnedIsTool(items: seq<Item>, k: nat, index: int)
    requires var m := Grouped(BLANK, items); k < |m.blocks| && |m.owners| == |m.blocks| && m.owners[k] == Some(index)
    ensures Grouped(BLANK, items).blocks[k].Tool?
  {
    GroupedOwnersFit(BLANK, items);
  }

  lemma {:induction false} AllArguments(items: seq<Item>, index: int)
    ensures JsonOf(Grouped(BLANK, items), index) == ArgsOf(items, index)
  {
    ArgumentsConserved(BLANK, items, index);
    assert JsonOf(BLANK, index) == "";
    assert "" + ArgsOf(items, index) == ArgsOf(items, index);
  }

  lemma {:induction false} ToolBlockIsWhole(items: seq<Item>, k: nat, index: int)
    requires Contiguous(items)
    requires var m := Grouped(BLANK, items); k < |m.blocks| && |m.owners| == |m.blocks| && m.owners[k] == Some(index)
    ensures var m := Grouped(BLANK, items); m.blocks[k].Tool? && m.blocks[k].json == ArgsOf(items, index)
  {
    OwnedIsTool(items, k, index);
    ContiguousHaveOneBlock(items);
    AllArguments(items, index);
    JsonOfOne(Grouped(BLANK, items), k, index);
  }

  /**
   When each tool call's deltas are contiguous, the one block opened for a call
   holds all of that call's arguments, in order.
   */
  lemma {:induction false} ToolBlocksAreWhole(chunks: seq<Chunk>, k: nat, index: int)
    requires Contiguous(Meaning(chunks))
    requires var m := Grouped(BLANK, Meaning(chunks)); k < |m.blocks| && m.owners[k] == Some(index)
    ensures var m := Grouped(BLANK, Meaning(chunks));
      m.blocks[k].Tool? && m.blocks[k].json == ArgsOf(Meaning(chunks), index)
  {
    ToolBlockIsWhole(Meaning(chunks), k, index);
  }
}
