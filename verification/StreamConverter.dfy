/**
 The OpenAI-to-Anthropic stream conversion as a machine over values.

 `blocks` lists the content blocks in the order their indices were handed out, so a block's
 position is its Anthropic index. Beside what the program keeps, a block here remembers the
 body sent so far, and text blocks stay in the list after they are closed.
 */
module StreamConverter {
  import opened Wrappers
  import opened TokenUsage
  import opened StreamProtocol

  /** A tool call's block: what is known of the call, and what was sent of it. */
  datatype Tool = Tool(key: int, id: string, name: string, pending: string,
                       head: Option<BlockHead>,  // what content_block_start announced, once it was sent
                       body: string, open: bool)
  {
    /** Nothing is known about the tool call yet. */
    predicate Blank() { head.None? && id == "" && name == "" && pending == "" }
  }

  datatype Block = TextBlock(body: string, textOpen: bool) | ToolBlock(tool: Tool) {
    predicate Announced() { TextBlock? || tool.head.Some? }

    predicate Open() { if TextBlock? then textOpen else tool.open }

    predicate Serves(key: int) { ToolBlock? && tool.key == key }

    /** The block in the client's eyes. */
    function Seen(): Received
      requires Announced()
    {
      if TextBlock? then Received(TextHead, body, textOpen) else Received(tool.head.value, tool.body, tool.open)
    }
  }

  /** What one chunk asks for, in the order the program acts on it. */
  datatype Item =
    | TextItem(text: string)
    | CallItem(call: ToolCall)
    | FinishItem(reason: string)

  function Calls(calls: seq<ToolCall>): seq<Item> {
    seq(|calls|, i requires 0 <= i < |calls| => CallItem(calls[i]))
  }

  function DeltaItems(delta: Option<Delta>): seq<Item> {
    if delta.None? then []
    else
      (if delta.value.content != "" then [TextItem(delta.value.content)] else []) +
      Calls(delta.value.toolCalls)
  }

  function ChoiceItems(choice: Choice): seq<Item> {
    DeltaItems(choice.delta) + (if choice.finishReason.Some? then [FinishItem(choice.finishReason.value)] else [])
  }

  /** Only the first choice of a chunk is read. */
  function ChunkItems(chunk: Chunk): seq<Item> {
    if chunk.choices == [] then [] else ChoiceItems(chunk.choices[0])
  }

  function AllItems(chunks: seq<Chunk>): seq<Item> {
    if chunks == [] then [] else AllItems(chunks[..|chunks| - 1]) + ChunkItems(chunks[|chunks| - 1])
  }

  /** New block list and the events sent meanwhile. */
  datatype Step = Step(blocks: seq<Block>, events: seq<Event>)

  // ----- Text -----

  predicate TextOpen(b: seq<Block>) {
    |b| > 0 && b[|b| - 1].TextBlock? && b[|b| - 1].textOpen
  }

  function Text(b: seq<Block>, text: string): Step {
    var last := |b| - 1;
    if TextOpen(b) then
      Step(b[last := TextBlock(b[last].body + text, true)], [ContentBlockDelta(last, TextDelta(text))])
    else
      Step(b + [TextBlock(text, true)], [ContentBlockStart(|b|, TextHead), ContentBlockDelta(|b|, TextDelta(text))])
  }

  function CloseText(b: seq<Block>): Step {
    var last := |b| - 1;
    if TextOpen(b) then Step(b[last := TextBlock(b[last].body, false)], [ContentBlockStop(last)]) else Step(b, [])
  }

  // ----- Tool calls -----

  /** Position of the block of tool call `key`, or |b| when there is none. */
  function Find(b: seq<Block>, key: int): (i: nat)
    ensures i <= |b|
    ensures i < |b| ==> b[i].Serves(key)
    ensures i == |b| ==> forall j | 0 <= j < |b| :: !b[j].Serves(key)
  {
    if b == [] then 0
    else
      var i := Find(b[..|b| - 1], key);
      if i < |b| - 1 then i
      else if b[|b| - 1].Serves(key) then |b| - 1 else |b|
  }

  function NewTool(key: int): Tool { Tool(key, "", "", "", None, "", false) }

  /** The tool and events after announcing it under (id, name) with whatever was held back. */
  function Announce(t: Tool, i: nat, id: string, name: string): (Tool, seq<Event>) {
    (Tool(t.key, id, name, "", Some(ToolUseHead(id, name)), t.pending, true),
     [ContentBlockStart(i, ToolUseHead(id, name))] +
     (if t.pending != "" then [ContentBlockDelta(i, InputJsonDelta(t.pending))] else []))
  }

  /** A later id or name replaces the known one. */
  function Learn(t: Tool, call: ToolCall): Tool {
    t.(id := if call.id != "" then call.id else t.id, name := if call.name != "" then call.name else t.name)
  }

  /** The tool is announced as soon as both its id and its name are known. */
  function Start(t: Tool, i: nat): (Tool, seq<Event>) {
    if t.head.None? && t.id != "" && t.name != "" then Announce(t, i, t.id, t.name) else (t, [])
  }

  /** Arguments go out at once on an announced block and are held back before that. */
  function Argue(t: Tool, i: nat, arguments: string): (Tool, seq<Event>) {
    if arguments == "" then (t, [])
    else if t.head.Some? then (t.(body := t.body + arguments), [ContentBlockDelta(i, InputJsonDelta(arguments))])
    else (t.(pending := t.pending + arguments), [])
  }

  function CallTool(t: Tool, i: nat, call: ToolCall): (Tool, seq<Event>) {
    var (started, e1) := Start(Learn(t, call), i);
    var (argued, e2) := Argue(started, i, call.arguments);
    (argued, e1 + e2)
  }

  /** The block list with a block for `key`, which takes the next index when it is new. */
  function WithTool(b: seq<Block>, key: int): (b': seq<Block>)
    ensures Find(b, key) < |b'| && b'[Find(b, key)].Serves(key)
  {
    if Find(b, key) == |b| then b + [ToolBlock(NewTool(key))] else b
  }

  function Call(b: seq<Block>, call: ToolCall): Step {
    var i := Find(b, call.Key());
    var b' := WithTool(b, call.Key());
    var (t, events) := CallTool(b'[i].tool, i, call);
    Step(b'[i := ToolBlock(t)], events)
  }

  /** A tool call closes the open text block. The program does this once before the calls of
      a delta; for the calls after the first one there is nothing left to close. */
  function ClosingCall(b: seq<Block>, call: ToolCall): Step {
    var closed := CloseText(b);
    var called := Call(closed.blocks, call);
    Step(called.blocks, closed.events + called.events)
  }

  // ----- End of the message -----

  /** A tool call that is not announced by the end gets a generated id and a stock name. */
  function LateOne(t: Block, i: nat, newId: int -> string): (Block, seq<Event>) {
    if t.Announced() || t.tool.Blank() then (t, [])
    else
      var (late, events) := Announce(t.tool, i, if t.tool.id == "" then newId(t.tool.key) else t.tool.id,
                                     if t.tool.name == "" then "unknown_tool" else t.tool.name);
      (ToolBlock(late), events)
  }

  function LateStart(b: seq<Block>, newId: int -> string): (s: Step)
    ensures |s.blocks| == |b|
  {
    if b == [] then Step([], [])
    else
      var n := |b| - 1;
      var before := LateStart(b[..n], newId);
      var (t, events) := LateOne(b[n], n, newId);
      Step(before.blocks + [t], before.events + events)
  }

  function CloseOne(t: Block, i: nat): (Block, seq<Event>) {
    if t.ToolBlock? && t.tool.open then (ToolBlock(t.tool.(open := false)), [ContentBlockStop(i)]) else (t, [])
  }

  function CloseTools(b: seq<Block>): (s: Step)
    ensures |s.blocks| == |b|
  {
    if b == [] then Step([], [])
    else
      var n := |b| - 1;
      var before := CloseTools(b[..n]);
      var (t, events) := CloseOne(b[n], n);
      Step(before.blocks + [t], before.events + events)
  }

  /** Everything is announced and closed: done at the first finish and again at the end. */
  function Settle(b: seq<Block>, newId: int -> string): Step {
    var s1 := CloseText(b);
    var s2 := LateStart(s1.blocks, newId);
    var s3 := CloseTools(s2.blocks);
    Step(s3.blocks, s1.events + s2.events + s3.events)
  }

  // ----- Items and chunks -----

  predicate Finished(items: seq<Item>) {
    exists i | 0 <= i < |items| :: items[i].FinishItem?
  }

  function ItemStep(b: seq<Block>, finished: bool, item: Item, newId: int -> string): Step {
    match item
    case TextItem(text) => Text(b, text)
    case CallItem(call) => ClosingCall(b, call)
    case FinishItem(_) => if finished then Step(b, []) else Settle(b, newId)
  }

  /** The run over `items` from blocks `b`; only the first finish counts. */
  function Run(b: seq<Block>, finished: bool, items: seq<Item>, newId: int -> string): Step {
    if items == [] then Step(b, [])
    else
      var init := items[..|items| - 1];
      var before := Run(b, finished, init, newId);
      var now := ItemStep(before.blocks, finished || Finished(init), items[|items| - 1], newId);
      Step(now.blocks, before.events + now.events)
  }

  /** The converter's state between chunks. */
  datatype State = State(messageStarted: bool, messageId: string, model: string, blocks: seq<Block>,
                         stopReason: Option<string>, usage: Option<AnthropicUsage>, deltaEmitted: bool)

  const INITIAL := State(false, "", "", [], None, None, false)

  /** The first finish reason, translated. */
  function StopAfter(stop: Option<string>, items: seq<Item>): Option<string> {
    if items == [] then stop
    else
      var before := StopAfter(stop, items[..|items| - 1]);
      var last := items[|items| - 1];
      if before.None? && last.FinishItem? then Some(AnthropicStopReason(last.reason)) else before
  }

  function UsageReport(chunk: Chunk): Option<AnthropicUsage> {
    if chunk.usage.Some? then Some(ToAnthropic(chunk.usage.value)) else None
  }

  function StartHeader(st: State): seq<Event> {
    [MessageStart(st.messageId, st.model, Some(st.usage.GetOr(NO_USAGE))), Ping]
  }

  /** The message is started if this chunk can start it. */
  function StartMessage(st: State, chunk: Chunk, isFirst: bool): (State, seq<Event>) {
    if !st.messageStarted && (isFirst || chunk.id != "" || chunk.choices != []) then
      var named := st.(messageId := if chunk.id != "" then chunk.id else st.messageId,
                       model := if chunk.model != "" then chunk.model else st.model);
      (named.(messageStarted := true), StartHeader(named))
    else (st, [])
  }

  /** Usage is merged first. */
  function Prepare(st: State, chunk: Chunk, isFirst: bool): (State, seq<Event>) {
    StartMessage(st.(usage := Merge(st.usage, UsageReport(chunk))), chunk, isFirst)
  }

  function ChunkStep(st: State, chunk: Chunk, isFirst: bool, newId: int -> string): (State, seq<Event>) {
    var (ready, header) := Prepare(st, chunk, isFirst);
    var items := ChunkItems(chunk);
    var run := Run(ready.blocks, ready.stopReason.Some?, items, newId);
    (ready.(blocks := run.blocks, stopReason := StopAfter(ready.stopReason, items)), header + run.events)
  }

  function Trailer(stop: Option<string>, usage: Option<AnthropicUsage>): seq<Event> {
    [MessageDelta(Some(stop.GetOr("end_turn")), Some(usage.GetOr(NO_USAGE))), MessageStop]
  }

  function Finalize(st: State, newId: int -> string): (State, seq<Event>) {
    if st.deltaEmitted then (st, [])
    else
      var s := Settle(st.blocks, newId);
      (st.(blocks := s.blocks, deltaEmitted := true), s.events + Trailer(st.stopReason, st.usage))
  }

  /** All chunks of a stream, driven as the handler does: the first one is marked first. */
  function RunChunks(chunks: seq<Chunk>, newId: int -> string): (State, seq<Event>) {
    if chunks == [] then (INITIAL, [])
    else
      var (st, events) := RunChunks(chunks[..|chunks| - 1], newId);
      var (st', more) := ChunkStep(st, chunks[|chunks| - 1], |chunks| == 1, newId);
      (st', events + more)
  }

  /** The whole converted stream, up to the end of the upstream. */
  function Convert(chunks: seq<Chunk>, newId: int -> string): seq<Event> {
    var (st, events) := RunChunks(chunks, newId);
    events + Finalize(st, newId).1
  }
}
