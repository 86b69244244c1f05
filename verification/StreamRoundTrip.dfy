/**
 From Anthropic to OpenAI and back: for every well-formed sequential Anthropic stream, what a
 client receives after both conversions, and exactly when that is what it would have
 received directly.
 */
module StreamRoundTrip {
  import opened Wrappers
  import opened TokenUsage
  import opened StreamProtocol
  import opened StreamConverter
  import opened StreamBracketing
  import opened StreamMeaning
  import opened StreamTheorems
  import opened ReverseStream

  // ----- Sequential Anthropic streams -----

  datatype Source = Source(head: BlockHead, body: string)

  /** Blocks so far, the last one possibly still open. */
  datatype Reading = Reading(blocks: seq<Source>, open: bool)

  /** Blocks come one after the other under the indices 0, 1, ... */
  function Follow(r: Reading, e: Event): Option<Reading> {
    var last := |r.blocks| - 1;
    match e
    case ContentBlockStart(i, head) =>
      if !r.open && i == |r.blocks| then Some(Reading(r.blocks + [Source(head, "")], true)) else None
    case ContentBlockDelta(i, f) =>
      if r.open && i == last >= 0 && f.Fits(r.blocks[last].head)
      then Some(Reading(r.blocks[last := Source(r.blocks[last].head, r.blocks[last].body + f.Payload())], true))
      else None
    case ContentBlockStop(i) => if r.open && i == last >= 0 then Some(Reading(r.blocks, false)) else None
    case Ping => Some(r)
    case Other(_) => Some(r)
    case _ => None
  }

  function FollowAll(events: seq<Event>): Option<Reading> {
    if events == [] then Some(Reading([], false))
    else
      var before := FollowAll(events[..|events| - 1]);
      if before.None? then None else Follow(before.value, events[|events| - 1])
  }

  ghost function SourceBlocks(r: Reading): map<int, Received> {
    map i: int | 0 <= i < |r.blocks| :: Received(r.blocks[i].head, r.blocks[i].body, r.open && i == |r.blocks| - 1)
  }

  /** A sequential stream is an ordinary one: a client accepts it and holds its blocks. */
  lemma {:induction false} SequentialIsAccepted(header: Header, events: seq<Event>)
    requires FollowAll(events).Some?
    ensures FeedAll(Streaming(header, map[]), events) == Streaming(header, SourceBlocks(FollowAll(events).value))
    ensures FollowAll(events).value.open ==> FollowAll(events).value.blocks != []
    decreases |events|
  {
    if events == [] {
      assert SourceBlocks(Reading([], false)) == map[];
    } else {
      var e := events[|events| - 1];
      SequentialIsAccepted(header, events[..|events| - 1]);
      FollowAccepted(header, FollowAll(events[..|events| - 1]).value, e);
    }
  }

  lemma FollowAccepted(header: Header, r: Reading, e: Event)
    requires Follow(r, e).Some?
    ensures Feed(Streaming(header, SourceBlocks(r)), e) == Streaming(header, SourceBlocks(Follow(r, e).value))
    ensures (r.open ==> r.blocks != []) ==> (Follow(r, e).value.open ==> Follow(r, e).value.blocks != [])
  {
    var r' := Follow(r, e).value;
    var last := |r.blocks| - 1;
    match e
    case ContentBlockStart(i, head) =>
      assert SourceBlocks(r') == SourceBlocks(r)[i := Received(head, "", true)];
    case ContentBlockDelta(i, f) =>
      assert SourceBlocks(r') ==
          SourceBlocks(r)[last := Received(r.blocks[last].head, r.blocks[last].body + f.Payload(), true)];
    case ContentBlockStop(i) =>
      assert SourceBlocks(r') == SourceBlocks(r)[last := Received(r.blocks[last].head, r.blocks[last].body, false)];
    case _ =>
  }

  // ----- Normal form -----

  /** Text continues the preceding text block. */
  function AddText(n: seq<Source>, text: string): seq<Source> {
    var last := |n| - 1;
    if text == "" then n
    else if last >= 0 && n[last].head.TextHead? then n[last := Source(TextHead, n[last].body + text)]
    else n + [Source(TextHead, text)]
  }

  /** Thinking, unknown and empty text blocks dropped, neighbouring text blocks merged. */
  function Normal(blocks: seq<Source>): seq<Source> {
    if blocks == [] then []
    else
      var n := Normal(blocks[..|blocks| - 1]);
      var last := blocks[|blocks| - 1];
      match last.head
      case TextHead => AddText(n, last.body)
      case ToolUseHead(_, _) => n + [last]
      case _ => n
  }

  function ToolCount(n: seq<Source>): nat {
    if n == [] then 0 else ToolCount(n[..|n| - 1]) + (if n[|n| - 1].head.ToolUseHead? then 1 else 0)
  }

  // ----- The converter mirrors the normal form -----

  /** A tool with an id and a name is announced at once, the others wait for the finish. */
  function MirrorTool(key: int, head: BlockHead, body: string): Tool
    requires head.ToolUseHead?
  {
    if head.id != "" && head.name != "" then Tool(key, head.id, head.name, "", Some(head), body, true)
    else Tool(key, head.id, head.name, body, None, "", false)
  }

  function Mirror(s: Source, key: int, isLast: bool): Block
    requires s.head.TextHead? || s.head.ToolUseHead?
  {
    if s.head.TextHead? then TextBlock(s.body, isLast) else ToolBlock(MirrorTool(key, s.head, s.body))
  }

  function MirrorAll(n: seq<Source>, isLast: bool): (b: seq<Block>)
    requires forall s | s in n :: s.head.TextHead? || s.head.ToolUseHead?
    ensures |b| == |n|
  {
    if n == [] then []
    else MirrorAll(n[..|n| - 1], false) + [Mirror(n[|n| - 1], ToolCount(n[..|n| - 1]), isLast)]
  }

  lemma {:induction false} NormalKinds(blocks: seq<Source>)
    ensures forall s | s in Normal(blocks) :: s.head.TextHead? || s.head.ToolUseHead?
    decreases |blocks|
  {
    if blocks != [] { NormalKinds(blocks[..|blocks| - 1]); }
  }

  /** Keys in the mirror are 0, 1, ... in order, so a key from the count on is new. */
  lemma {:induction false} MirrorKeys(n: seq<Source>, isLast: bool, key: int)
    requires forall s | s in n :: s.head.TextHead? || s.head.ToolUseHead?
    requires key >= ToolCount(n)
    ensures Find(MirrorAll(n, isLast), key) == |n|
    decreases |n|
  {
    if n != [] { MirrorKeys(n[..|n| - 1], false, key); }
  }

  // Each kind of chunk keeps the mirror.

  lemma MirrorCloseText(n: seq<Source>)
    requires forall s | s in n :: s.head.TextHead? || s.head.ToolUseHead?
    ensures CloseText(MirrorAll(n, true)).blocks == MirrorAll(n, false) && !TextOpen(MirrorAll(n, false))
  {
  }

  lemma MirrorText(n: seq<Source>, text: string)
    requires forall s | s in n :: s.head.TextHead? || s.head.ToolUseHead?
    requires text != ""
    ensures forall s | s in AddText(n, text) :: s.head.TextHead? || s.head.ToolUseHead?
    ensures Text(MirrorAll(n, true), text).blocks == MirrorAll(AddText(n, text), true)
  {
    var last := |n| - 1;
    if last >= 0 && n[last].head.TextHead? {
      assert AddText(n, text)[..last] == n[..last];
    } else {
      assert AddText(n, text)[..|n|] == n;
      if n != [] { assert MirrorAll(n, true) == MirrorAll(n, false); }
    }
  }

  /** A call for the last block changes that block alone. */
  lemma CallLast(b: seq<Block>, t: Tool, call: ToolCall)
    requires Find(b, call.Key()) == |b| && t.key == call.Key()
    ensures ClosingCall(b + [ToolBlock(t)], call).blocks == b + [ToolBlock(CallTool(t, |b|, call).0)]
  {
    hide CallTool;
    var whole := b + [ToolBlock(t)];
    FindLast(b, ToolBlock(t), call.Key());
    assert WithTool(whole, call.Key()) == whole && CloseText(whole).blocks == whole;
    assert whole[|b| := ToolBlock(CallTool(t, |b|, call).0)] == b + [ToolBlock(CallTool(t, |b|, call).0)];
  }

  lemma FindLast(b: seq<Block>, t: Block, key: int)
    requires Find(b, key) == |b| && t.Serves(key)
    ensures Find(b + [t], key) == |b|
  {
    assert (b + [t])[..|b|] == b;
  }

  /** A call under a new key appends a block. */
  lemma CallNew(b: seq<Block>, call: ToolCall)
    requires Find(b, call.Key()) == |b| && !TextOpen(b)
    ensures ClosingCall(b, call).blocks == b + [ToolBlock(CallTool(NewTool(call.Key()), |b|, call).0)]
  {
    hide CallTool, Find;
    var t := NewTool(call.Key());
    var whole := b + [ToolBlock(t)];
    assert CloseText(b).blocks == b && WithTool(b, call.Key()) == whole;
    assert whole[|b| := ToolBlock(CallTool(t, |b|, call).0)] == b + [ToolBlock(CallTool(t, |b|, call).0)];
  }

  lemma MirrorSnoc(n: seq<Source>, s: Source, isLast: bool)
    requires forall x | x in n :: x.head.TextHead? || x.head.ToolUseHead?
    requires s.head.TextHead? || s.head.ToolUseHead?
    ensures forall x | x in n + [s] :: x.head.TextHead? || x.head.ToolUseHead?
    ensures MirrorAll(n + [s], isLast) == MirrorAll(n, false) + [Mirror(s, ToolCount(n), isLast)]
  {
    assert (n + [s])[..|n|] == n;
  }

  lemma MirrorStart(n: seq<Source>, head: BlockHead)
    requires forall s | s in n :: s.head.TextHead? || s.head.ToolUseHead?
    requires head.ToolUseHead?
    ensures forall s | s in n + [Source(head, "")] :: s.head.TextHead? || s.head.ToolUseHead?
    ensures ClosingCall(MirrorAll(n, true), ToolCall(Some(ToolCount(n)), head.id, head.name, "")).blocks ==
            MirrorAll(n + [Source(head, "")], true)
  {
    hide MirrorAll, Find;
    var key := ToolCount(n);
    var b := MirrorAll(n, false);
    var call := ToolCall(Some(key), head.id, head.name, "");
    MirrorCloseText(n);
    MirrorKeys(n, false, key);
    CallNew(b, call);
    MirrorSnoc(n, Source(head, ""), true);
    assert CallTool(NewTool(key), |n|, call).0 == MirrorTool(key, head, "");
  }

  lemma MirrorArgue(n: seq<Source>, head: BlockHead, body: string, json: string)
    requires forall s | s in n :: s.head.TextHead? || s.head.ToolUseHead?
    requires head.ToolUseHead? && json != ""
    ensures forall s | s in n + [Source(head, body)] :: s.head.TextHead? || s.head.ToolUseHead?
    ensures forall s | s in n + [Source(head, body + json)] :: s.head.TextHead? || s.head.ToolUseHead?
    ensures ClosingCall(MirrorAll(n + [Source(head, body)], true), ToolCall(Some(ToolCount(n)), "", "", json)).blocks ==
            MirrorAll(n + [Source(head, body + json)], true)
  {
    hide MirrorAll, Find, ClosingCall;
    var key := ToolCount(n);
    var b := MirrorAll(n, false);
    var t := MirrorTool(key, head, body);
    var call := ToolCall(Some(key), "", "", json);
    MirrorSnoc(n, Source(head, body), true);
    MirrorSnoc(n, Source(head, body + json), true);
    MirrorKeys(n, false, key);
    CallLast(b, t, call);
    assert CallTool(t, |n|, call).0 == MirrorTool(key, head, body + json);
  }

  // ----- Following both machines -----

  /** The mirror of what has been read, as the second converter has it. */
  ghost predicate Synced(t: Trace, r: Reading, newId: int -> string) {
    var n := Normal(r.blocks);
    var h := AllItems(t.chunks);
    && (r.open ==> r.blocks != [])
    && (forall s | s in n :: s.head.TextHead? || s.head.ToolUseHead?)
    && !t.done && !Finished(h)
    && Run([], false, h, newId).blocks == MirrorAll(n, true)
    && t.st.current == (if r.open then Some(r.blocks[|r.blocks| - 1].head) else None)
    && t.st.toolCallIndex == ToolCount(Normal(if r.open then r.blocks[..|r.blocks| - 1] else r.blocks))
  }

  lemma NormalSnoc(blocks: seq<Source>, s: Source)
    ensures Normal(blocks + [s]) ==
      match s.head
      case TextHead => AddText(Normal(blocks), s.body)
      case ToolUseHead(_, _) => Normal(blocks) + [s]
      case _ => Normal(blocks)
  {
    assert (blocks + [s])[..|blocks|] == blocks;
  }

  lemma AddTextTwice(n: seq<Source>, a: string, b: string)
    ensures AddText(AddText(n, a), b) == AddText(n, a + b)
  {
    var last := |n| - 1;
    if a == "" {
      assert a + b == b;
    } else if b == "" {
      assert a + b == a;
    } else if last >= 0 && n[last].head.TextHead? {
      assert (n[last].body + a) + b == n[last].body + (a + b);
    }
  }

  lemma AllItemsSnoc(chunks: seq<Chunk>, c: Chunk)
    ensures AllItems(chunks + [c]) == AllItems(chunks) + ChunkItems(c)
  {
    assert (chunks + [c])[..|chunks|] == chunks;
  }

  /** A chunk with one item that is no finish moves the second converter by that item. */
  lemma ChunkMoves(chunks: seq<Chunk>, c: Chunk, item: Item, newId: int -> string)
    requires ChunkItems(c) == [item] && !item.FinishItem? && !Finished(AllItems(chunks))
    ensures !Finished(AllItems(chunks + [c]))
    ensures Run([], false, AllItems(chunks + [c]), newId).blocks ==
            ItemStep(Run([], false, AllItems(chunks), newId).blocks, false, item, newId).blocks
  {
    hide ItemStep;
    AllItemsSnoc(chunks, c);
    FinishedAppend(AllItems(chunks), [item]);
    RunSnoc([], false, AllItems(chunks), item, newId);
  }

  /** A chunk with one delta is one item. */
  lemma DeltaItem(id: string, model: string, text: string, call: ToolCall)
    ensures text != "" ==> ChunkItems(DeltaChunk(id, model, Delta(text, [])).chunk) == [TextItem(text)]
    ensures ChunkItems(DeltaChunk(id, model, Delta("", [call])).chunk) == [CallItem(call)]
    ensures ChunkItems(DeltaChunk(id, model, Delta("", [])).chunk) == []
  {
    assert Calls([]) == [];
    assert Calls([call]) == [CallItem(call)];
  }

  /** What one event of a sequential stream does to both machines. */
  lemma StartSynced(t: Trace, r: Reading, i: int, head: BlockHead, model: string, drawn: string, newId: int -> string)
    requires Synced(t, r, newId) && Follow(r, ContentBlockStart(i, head)).Some?
    ensures var (st, line) := Emit(t.st, ContentBlockStart(i, head), model, drawn);
      Synced(Extend(t, line, st), Follow(r, ContentBlockStart(i, head)).value, newId)
  {
    hide Run, ItemStep, MirrorAll, AllItems, Finished;
    var n := Normal(r.blocks);
    var (st, line) := Emit(t.st, ContentBlockStart(i, head), model, drawn);
    var r' := Follow(r, ContentBlockStart(i, head)).value;
    NormalSnoc(r.blocks, Source(head, ""));
    assert r'.blocks[..|r.blocks|] == r.blocks;
    if head.ToolUseHead? {
      var call := ToolCall(Some(t.st.toolCallIndex), head.id, head.name, "");
      DeltaItem(st.chunkId, model, "", call);
      ChunkMoves(t.chunks, line.chunk, CallItem(call), newId);
      CallStep(MirrorAll(n, true), call, newId);
      MirrorStart(n, head);
    }
  }

  lemma CallStep(b: seq<Block>, call: ToolCall, newId: int -> string)
    ensures ItemStep(b, false, CallItem(call), newId) == ClosingCall(b, call)
  {
  }

  lemma TextStep(b: seq<Block>, text: string, newId: int -> string)
    ensures ItemStep(b, false, TextItem(text), newId) == Text(b, text)
  {
  }

  lemma TextSynced(t: Trace, init: seq<Source>, body: string, text: string, model: string, newId: int -> string)
    requires Synced(t, Reading(init + [Source(TextHead, body)], true), newId) && text != ""
    ensures Synced(Trace(t.st, t.chunks + [DeltaChunk(t.st.chunkId, model, Delta(text, [])).chunk], false),
                   Reading(init + [Source(TextHead, body + text)], true), newId)
  {
    hide Run, ItemStep, MirrorAll, AllItems, Finished, ToolCount, AddText, Normal, Text;
    var n := Normal(init + [Source(TextHead, body)]);
    var chunk := DeltaChunk(t.st.chunkId, model, Delta(text, [])).chunk;
    assert (init + [Source(TextHead, body)])[..|init|] == init
        && (init + [Source(TextHead, body + text)])[..|init|] == init;
    NormalSnoc(init, Source(TextHead, body));
    NormalSnoc(init, Source(TextHead, body + text));
    AddTextTwice(Normal(init), body, text);
    DeltaItem(t.st.chunkId, model, text, ToolCall(None, "", "", ""));
    ChunkMoves(t.chunks, chunk, TextItem(text), newId);
    TextStep(MirrorAll(n, true), text, newId);
    MirrorText(n, text);
  }

  lemma JsonSynced(t: Trace, init: seq<Source>, head: BlockHead, body: string, json: string, model: string,
      newId: int -> string)
    requires Synced(t, Reading(init + [Source(head, body)], true), newId) && json != "" && head.ToolUseHead?
    ensures var call := ToolCall(Some(t.st.toolCallIndex), "", "", json);
      Synced(Trace(t.st, t.chunks + [DeltaChunk(t.st.chunkId, model, Delta("", [call])).chunk], false),
             Reading(init + [Source(head, body + json)], true), newId)
  {
    hide Run, ItemStep, MirrorAll, AllItems, Finished, ToolCount, AddText, Normal, ClosingCall;
    var n := Normal(init);
    var call := ToolCall(Some(t.st.toolCallIndex), "", "", json);
    var chunk := DeltaChunk(t.st.chunkId, model, Delta("", [call])).chunk;
    assert (init + [Source(head, body)])[..|init|] == init && (init + [Source(head, body + json)])[..|init|] == init;
    NormalSnoc(init, Source(head, body));
    NormalSnoc(init, Source(head, body + json));
    DeltaItem(t.st.chunkId, model, "", call);
    ChunkMoves(t.chunks, chunk, CallItem(call), newId);
    CallStep(MirrorAll(n + [Source(head, body)], true), call, newId);
    MirrorArgue(n, head, body, json);
  }

  /** Fragments that say nothing leave the second machine alone. */
  lemma SilentSynced(t: Trace, init: seq<Source>, head: BlockHead, body: string, payload: string, newId: int -> string)
    requires Synced(t, Reading(init + [Source(head, body)], true), newId)
    requires payload == "" || !(head.TextHead? || head.ToolUseHead?)
    ensures Synced(t, Reading(init + [Source(head, body + payload)], true), newId)
  {
    hide Run, MirrorAll, AllItems, Finished, ToolCount, AddText, Normal;
    if payload == "" {
      assert body + payload == body;
    } else {
      assert (init + [Source(head, body)])[..|init|] == init
          && (init + [Source(head, body + payload)])[..|init|] == init;
      NormalSnoc(init, Source(head, body));
      NormalSnoc(init, Source(head, body + payload));
    }
  }

  lemma DeltaSynced(t: Trace, r: Reading, i: int, f: Fragment, model: string, drawn: string, newId: int -> string)
    requires Synced(t, r, newId) && Follow(r, ContentBlockDelta(i, f)).Some?
    requires t.st.chunkId != ""
    ensures var (st, line) := Emit(t.st, ContentBlockDelta(i, f), model, drawn);
      Synced(Extend(t, line, st), Follow(r, ContentBlockDelta(i, f)).value, newId)
  {
    hide Run, ItemStep, MirrorAll, AllItems, Finished, ToolCount, Normal;
    var last := |r.blocks| - 1;
    var init, head, body := r.blocks[..last], r.blocks[last].head, r.blocks[last].body;
    assert r.blocks == init + [Source(head, body)];
    assert Follow(r, ContentBlockDelta(i, f)).value.blocks == init + [Source(head, body + f.Payload())];
    if f.TextDelta? && f.text != "" {
      TextSynced(t, init, body, f.text, model, newId);
    } else if f.InputJsonDelta? && f.partialJson != "" {
      JsonSynced(t, init, head, body, f.partialJson, model, newId);
    } else {
      SilentSynced(t, init, head, body, f.Payload(), newId);
    }
  }

  lemma ToolCountSnoc(n: seq<Source>, s: Source)
    ensures ToolCount(n + [s]) == ToolCount(n) + (if s.head.ToolUseHead? then 1 else 0)
  {
    assert (n + [s])[..|n|] == n;
  }

  lemma AddTextCount(n: seq<Source>, text: string)
    ensures ToolCount(AddText(n, text)) == ToolCount(n)
  {
    var last := |n| - 1;
    if text != "" {
      if last >= 0 && n[last].head.TextHead? {
        assert n == n[..last] + [n[last]];
        assert AddText(n, text) == n[..last] + [Source(TextHead, n[last].body + text)];
        ToolCountSnoc(n[..last], n[last]);
        ToolCountSnoc(n[..last], Source(TextHead, n[last].body + text));
      } else {
        ToolCountSnoc(n, Source(TextHead, text));
      }
    }
  }

  lemma StopSynced(t: Trace, r: Reading, i: int, model: string, drawn: string, newId: int -> string)
    requires Synced(t, r, newId) && Follow(r, ContentBlockStop(i)).Some?
    ensures var (st, line) := Emit(t.st, ContentBlockStop(i), model, drawn);
      Synced(Extend(t, line, st), Follow(r, ContentBlockStop(i)).value, newId)
  {
    hide Run, MirrorAll, AllItems, Finished, ToolCount, Normal, AddText;
    var last := |r.blocks| - 1;
    var init := r.blocks[..last];
    assert r.blocks == init + [r.blocks[last]];
    NormalSnoc(init, r.blocks[last]);
    ToolCountSnoc(Normal(init), r.blocks[last]);
    AddTextCount(Normal(init), r.blocks[last].body);
  }

  lemma EventSynced(t: Trace, r: Reading, e: Event, model: string, drawn: string, newId: int -> string)
    requires Synced(t, r, newId) && Follow(r, e).Some? && t.st.chunkId != ""
    ensures var (st, line) := Emit(t.st, e, model, drawn); Synced(Extend(t, line, st), Follow(r, e).value, newId)
  {
    hide Run, MirrorAll, AllItems, Finished, ToolCount, Normal;
    match e
    case ContentBlockStart(i, head) => StartSynced(t, r, i, head, model, drawn, newId);
    case ContentBlockDelta(i, f) => DeltaSynced(t, r, i, f, model, drawn, newId);
    case ContentBlockStop(i) => StopSynced(t, r, i, model, drawn, newId);
    case _ =>
  }

  lemma BackwardSnoc(events: seq<Event>, e: Event, model: string, drawn: string)
    ensures var before := Backward(events, model, drawn);
      var (st, line) := Emit(before.st, e, model, drawn);
      Backward(events + [e], model, drawn) == Extend(before, line, st)
  {
    assert (events + [e])[..|events|] == events;
  }

  /** After the start of the message and any sequential events, both machines are in step. */
  lemma {:induction false} BodySynced(start: Event, body: seq<Event>, model: string, drawn: string,
      newId: int -> string)
    requires start.MessageStart? && FollowAll(body).Some?
    ensures Synced(Backward([start] + body, model, drawn), FollowAll(body).value, newId)
    decreases |body|
  {
    hide Synced, Emit;
    if body == [] {
      FirstSynced(start, model, drawn, newId);
      assert [start] + body == [start];
    } else {
      var init, e := body[..|body| - 1], body[|body| - 1];
      BodySynced(start, init, model, drawn, newId);
      assert [start] + body == ([start] + init) + [e];
      BackwardSnoc([start] + init, e, model, drawn);
      OneChunkId([start] + init, model, drawn);
      EventSynced(Backward([start] + init, model, drawn), FollowAll(init).value, e, model, drawn, newId);
    }
  }

  lemma FirstTrace(start: Event, model: string, drawn: string)
    requires start.MessageStart?
    ensures Backward([start], model, drawn) ==
            Trace(Reverse(None, 0, "chatcmpl-" + drawn),
                [DeltaChunk("chatcmpl-" + drawn, model, Delta("", [])).chunk], false)
  {
    assert [] + [start] == [start];
    BackwardSnoc([], start, model, drawn);
  }

  lemma FirstSynced(start: Event, model: string, drawn: string, newId: int -> string)
    requires start.MessageStart?
    ensures Synced(Backward([start], model, drawn), Reading([], false), newId)
  {
    FirstTrace(start, model, drawn);
    var chunk := DeltaChunk("chatcmpl-" + drawn, model, Delta("", [])).chunk;
    AllItemsSnoc([], chunk);
    assert [] + [chunk] == [chunk];
    DeltaItem("chatcmpl-" + drawn, model, "", ToolCall(None, "", "", ""));
    assert AllItems([chunk]) == [];
  }

  /** No event before the message delta reports usage. */
  lemma {:induction false} BodyReportsNothing(start: Event, body: seq<Event>, model: string, drawn: string)
    requires start.MessageStart? && FollowAll(body).Some?
    ensures var t := Backward([start] + body, model, drawn); t.chunks != [] && Reports(t.chunks) == []
    decreases |body|
  {
    if body == [] {
      FirstTrace(start, model, drawn);
      assert [start] + body == [start];
      assert [Backward([start], model, drawn).chunks[0]][..0] == [];
    } else {
      hide FollowAll;
      var init, e := body[..|body| - 1], body[|body| - 1];
      FollowsBefore(body);
      BodyReportsNothing(start, init, model, drawn);
      assert [start] + body == ([start] + init) + [e];
      BackwardSnoc([start] + init, e, model, drawn);
      EventReportsNothing(Backward([start] + init, model, drawn), e, model, drawn);
    }
  }

  lemma FollowsBefore(body: seq<Event>)
    requires body != [] && FollowAll(body).Some?
    ensures FollowAll(body[..|body| - 1]).Some? && !body[|body| - 1].MessageDelta? && !body[|body| - 1].MessageStop?
  {
  }

  lemma EventReportsNothing(t: Trace, e: Event, model: string, drawn: string)
    requires !e.MessageDelta? && t.chunks != [] && Reports(t.chunks) == []
    ensures var (st, line) := Emit(t.st, e, model, drawn);
      var t' := Extend(t, line, st);
      t'.chunks != [] && Reports(t'.chunks) == []
  {
    hide Reports;
    var (st, line) := Emit(t.st, e, model, drawn);
    if line.ChunkLine? {
      ReportsSnoc(t.chunks, line.chunk);
    }
  }

  lemma ReportsSnoc(chunks: seq<Chunk>, c: Chunk)
    ensures Reports(chunks + [c]) == Reports(chunks) + (if UsageReport(c).Some? then [UsageReport(c).value] else [])
  {
    assert (chunks + [c])[..|chunks|] == chunks;
  }

  // ----- The whole message -----

  /** A whole Anthropic message stream around sequential block events. */
  function Message(start: Event, body: seq<Event>, stop: string, usage: Option<AnthropicUsage>): seq<Event> {
    ([start] + body) + [MessageDelta(Some(stop), usage)] + [MessageStop]
  }

  /** A tool block without id, name and input never reaches the other side. */
  predicate Mute(s: Source) { s.head.ToolUseHead? && s.head.id == "" && s.head.name == "" && s.body == "" }

  /** A missing id is drawn anew and a missing name becomes the stock name. */
  function StandIn(head: BlockHead, key: int, newId: int -> string): BlockHead {
    if !head.ToolUseHead? then head
    else
      ToolUseHead(if head.id == "" then newId(key) else head.id,
                  if head.name == "" then "unknown_tool" else head.name)
  }

  /** What the client at the far end holds of the normal form `n`. */
  ghost function Delivered(n: seq<Source>, newId: int -> string): map<int, Received> {
    map i: int | 0 <= i < |n| && !Mute(n[i]) :: Received(StandIn(n[i].head, ToolCount(n[..i]), newId), n[i].body, false)
  }

  lemma {:induction false} MirrorAt(n: seq<Source>, isLast: bool, i: nat)
    requires forall s | s in n :: s.head.TextHead? || s.head.ToolUseHead?
    requires i < |n|
    ensures MirrorAll(n, isLast)[i] == Mirror(n[i], ToolCount(n[..i]), isLast && i == |n| - 1)
    decreases |n|
  {
    if i < |n| - 1 {
      MirrorAt(n[..|n| - 1], false, i);
      assert n[..|n| - 1][..i] == n[..i];
    }
  }

  lemma SettledMirror(s: Source, key: int, isLast: bool, newId: int -> string)
    requires s.head.TextHead? || s.head.ToolUseHead?
    ensures var t := SettledBlock(SettledBlock(Mirror(s, key, isLast), newId), newId);
      && (t.Announced() <==> !Mute(s))
      && (t.Announced() ==> t.Seen() == Received(StandIn(s.head, key, newId), s.body, false))
  {
  }

  lemma SettledDelivered(n: seq<Source>, newId: int -> string)
    requires forall s | s in n :: s.head.TextHead? || s.head.ToolUseHead?
    requires Valid(MirrorAll(n, true))
    ensures Seen(Settle(Settle(MirrorAll(n, true), newId).blocks, newId).blocks) == Delivered(n, newId)
  {
    hide Valid, Settle, SettledBlock, MirrorAll, ToolCount;
    var b := MirrorAll(n, true);
    SettleAt(b, newId);
    SettleValid(b, newId);
    SettleAt(Settle(b, newId).blocks, newId);
    var twice := Settle(Settle(b, newId).blocks, newId).blocks;
    forall i: nat | i < |n|
      ensures twice[i].Announced() <==> !Mute(n[i])
      ensures twice[i].Announced() ==>
          twice[i].Seen() == Received(StandIn(n[i].head, ToolCount(n[..i]), newId), n[i].body, false)
    {
      MirrorAt(n, true, i);
      SettledMirror(n[i], ToolCount(n[..i]), i == |n| - 1, newId);
    }
  }

  lemma {:induction false} NothingLateBeforeFinish(h: seq<Item>)
    requires !Finished(h)
    ensures !LateArguments(h) && StopAfter(None, h) == None
    decreases |h|
  {
    if h != [] {
      var init := h[..|h| - 1];
      assert h == init + [h[|h| - 1]];
      FinishedAppend(init, [h[|h| - 1]]);
      NothingLateBeforeFinish(init);
      SealedBounds(init);
    }
  }

  lemma LastFinish(h: seq<Item>, reason: string)
    requires !Finished(h)
    ensures !LateArguments(h + [FinishItem(reason)])
    ensures StopAfter(None, h + [FinishItem(reason)]) == Some(AnthropicStopReason(reason))
  {
    NothingLateBeforeFinish(h);
    assert (h + [FinishItem(reason)])[..|h|] == h;
  }

  /** The chunks of a whole message are those of its body and the finish chunk. */
  lemma MessageChunks(start: Event, body: seq<Event>, stop: string, usage: Option<AnthropicUsage>, model: string,
      drawn: string)
    requires start.MessageStart? && FollowAll(body).Some? && !Backward([start] + body, model, drawn).done
    ensures var last := Chunk("chatcmpl-" + drawn, model, [Choice(Some(Delta("", [])), Some(OpenAiStopReason(stop)))],
                              if usage.Some? then Some(ToOpenAi(usage.value)) else None);
      && Backward(Message(start, body, stop, usage), model, drawn).chunks ==
          Backward([start] + body, model, drawn).chunks + [last]
      && ChunkItems(last) == [FinishItem(OpenAiStopReason(stop))]
  {
    BackwardSnoc([start] + body, MessageDelta(Some(stop), usage), model, drawn);
    BackwardSnoc(([start] + body) + [MessageDelta(Some(stop), usage)], MessageStop, model, drawn);
    OneChunkId([start] + body, model, drawn);
    assert Calls([]) == [];
  }

  /** The items, reports and converter blocks of a whole message. */
  lemma MessageRun(start: Event, body: seq<Event>, stop: string, usage: Option<AnthropicUsage>,
                   model: string, drawn: string, newId: int -> string)
    returns (h: seq<Item>)
    requires start.MessageStart? && FollowAll(body).Some?
    ensures var chunks := Backward(Message(start, body, stop, usage), model, drawn).chunks;
      var n := Normal(FollowAll(body).value.blocks);
      && chunks != []
      && AllItems(chunks) == h + [FinishItem(OpenAiStopReason(stop))] && !Finished(h)
      && Reports(chunks) == (if usage.Some? then [ToAnthropic(ToOpenAi(usage.value))] else [])
      && UsageReport(chunks[0]).None?
      && (forall s | s in n :: s.head.TextHead? || s.head.ToolUseHead?)
      && Run([], false, h, newId).blocks == MirrorAll(n, true)
  {
    hide Run, ItemStep, AllItems, Reports, MirrorAll, Normal, FollowAll, Finished, Backward, ToolCount;
    var t := Backward([start] + body, model, drawn);
    BodySynced(start, body, model, drawn, newId);
    BodyReportsNothing(start, body, model, drawn);
    MessageChunks(start, body, stop, usage, model, drawn);
    var chunks := Backward(Message(start, body, stop, usage), model, drawn).chunks;
    h := AllItems(t.chunks);
    AllItemsSnoc(t.chunks, chunks[|chunks| - 1]);
    ReportsSnoc(t.chunks, chunks[|chunks| - 1]);
    ReportsSound(t.chunks);
    assert chunks[0] == t.chunks[0];
  }

  /** The counts a client holds that was told nothing at the start and at the end what the
      OpenAI format leaves of `end`. */
  function Carried(end: AnthropicUsage): AnthropicUsage { Updated(NO_USAGE, Some(ToAnthropic(ToOpenAi(end)))) }

  lemma CarriedUsage(usage: Option<AnthropicUsage>)
    ensures var reports := if usage.Some? then [ToAnthropic(ToOpenAi(usage.value))] else [];
      var merged := MergeAll(reports).GetOr(NO_USAGE);
      merged.(output := Positive(merged.output)) == Carried(usage.GetOr(NO_USAGE))
  {
    MergeOne(if usage.Some? then ToAnthropic(ToOpenAi(usage.value)) else NO_USAGE);
  }

  /** What a client receives after both conversions of a sequential Anthropic stream: the
      normal form of its blocks, the stop reason as the round trip leaves it, and what it leaves
      of the counts of the message delta. The counts of the message start are lost: the far
      stream opens with none, whatever the start has told. */
  lemma RoundTrip(start: Event, body: seq<Event>, stop: string, usage: Option<AnthropicUsage>,
                  model: string, drawn: string, newId: int -> string)
    requires start.MessageStart? && FollowAll(body).Some?
    ensures var chunks := Backward(Message(start, body, stop, usage), model, drawn).chunks;
      && Convert(chunks, newId) != []
      && Convert(chunks, newId)[0] == MessageStart("chatcmpl-" + drawn, model, Some(NO_USAGE))
      && Read(Convert(chunks, newId)) ==
          Complete(Header("chatcmpl-" + drawn, model, Carried(usage.GetOr(NO_USAGE))),
                   Delivered(Normal(FollowAll(body).value.blocks), newId),
                   Some(AnthropicStopReason(OpenAiStopReason(stop))))
  {
    hide Run, ItemStep, AllItems, Reports, LateArguments, StopAfter, MirrorAll, Normal, FollowAll, Settle, Valid,
         Seen, Meaning, MergeAll, Finished, Backward, ToolCount, Delivered, Message, Read, Convert, Carried,
         Told, Usages, Converted;
    var n := Normal(FollowAll(body).value.blocks);
    var chunks := Backward(Message(start, body, stop, usage), model, drawn).chunks;
    var h := MessageRun(start, body, stop, usage, model, drawn, newId);
    var finish := FinishItem(OpenAiStopReason(stop));
    OneChunkId(Message(start, body, stop, usage), model, drawn);
    assert chunks[0] in chunks;
    LastFinish(h, finish.reason);
    ItemsAreTold(chunks, AllItems(chunks));
    ReportsAreUsages(chunks);
    ReadConvert(chunks, AllItems(chunks), newId);
    MeaningIsSettled(h + [finish], newId);
    RunSnoc([], false, h, finish, newId);
    FinishStep(MirrorAll(n, true), finish, newId);
    EmptyValid();
    RunValid([], false, h, newId);
    SettledDelivered(n, newId);
    CarriedUsage(usage);
    ConvertOpens(chunks, newId);
  }

  lemma FinishStep(b: seq<Block>, finish: Item, newId: int -> string)
    requires finish.FinishItem?
    ensures ItemStep(b, false, finish, newId) == Settle(b, newId)
  {
  }

  lemma EmptyValid()
    ensures Valid([])
  {
  }

  lemma MergeOne(u: AnthropicUsage)
    ensures MergeAll([]) == None && MergeAll([u]) == Some(u)
  {
    assert [u][..0] == [];
  }

  /** The blocks of the normal form, as a client would hold them. */
  ghost function Blocks(n: seq<Source>): map<int, Received> {
    map i: int | 0 <= i < |n| :: Received(n[i].head, n[i].body, false)
  }

  /** The round trip gives back the stream's own blocks exactly when every tool block has an
      id and a name. */
  lemma BlocksPreservedIffNamed(n: seq<Source>, newId: int -> string)
    requires forall key :: newId(key) != ""
    ensures Delivered(n, newId) == Blocks(n) <==>
            forall i | 0 <= i < |n| && n[i].head.ToolUseHead? :: n[i].head.id != "" && n[i].head.name != ""
  {
    var delivered, blocks := Delivered(n, newId), Blocks(n);
    if delivered == blocks {
      forall i | 0 <= i < |n| && n[i].head.ToolUseHead? ensures n[i].head.id != "" && n[i].head.name != "" {
        assert i in blocks && i in delivered;
        assert delivered[i] == blocks[i];
      }
    }
    if forall i | 0 <= i < |n| && n[i].head.ToolUseHead? :: n[i].head.id != "" && n[i].head.name != "" {
      assert forall i | 0 <= i < |n| :: !Mute(n[i]);
      assert delivered.Keys == blocks.Keys;
      assert delivered == blocks;
    }
  }

  /** Normalising keeps the text and keeps every tool block, in order. */
  lemma {:induction false} NormalKeeps(blocks: seq<Source>)
    ensures Texts(Normal(blocks)) == Texts(blocks) && Tools(Normal(blocks)) == Tools(blocks)
    decreases |blocks|
  {
    hide Texts, Tools;
    if blocks == [] {
      assert Normal(blocks) == blocks;
    } else {
      var init, s := blocks[..|blocks| - 1], blocks[|blocks| - 1];
      NormalKeeps(init);
      assert blocks == init + [s];
      Snocs(init, s);
      assert Texts(init) + "" == Texts(init) && Tools(init) + [] == Tools(init);
      if s.head.TextHead? {
        AddTextKeeps(Normal(init), s.body);
      } else if s.head.ToolUseHead? {
        Snocs(Normal(init), s);
      }
    }
  }

  function Texts(n: seq<Source>): string {
    if n == [] then "" else Texts(n[..|n| - 1]) + (if n[|n| - 1].head.TextHead? then n[|n| - 1].body else "")
  }

  function Tools(n: seq<Source>): seq<Source> {
    if n == [] then [] else Tools(n[..|n| - 1]) + (if n[|n| - 1].head.ToolUseHead? then [n[|n| - 1]] else [])
  }

  lemma Snocs(n: seq<Source>, s: Source)
    ensures Texts(n + [s]) == Texts(n) + (if s.head.TextHead? then s.body else "")
    ensures Tools(n + [s]) == Tools(n) + (if s.head.ToolUseHead? then [s] else [])
  {
    assert (n + [s])[..|n|] == n;
  }

  lemma AddTextKeeps(n: seq<Source>, text: string)
    ensures Texts(AddText(n, text)) == Texts(n) + text && Tools(AddText(n, text)) == Tools(n)
  {
    hide Texts, Tools;
    var last := |n| - 1;
    if text == "" {
      assert Texts(n) + text == Texts(n);
    } else {
      if last >= 0 && n[last].head.TextHead? {
        assert n == n[..last] + [n[last]];
        assert AddText(n, text) == n[..last] + [Source(TextHead, n[last].body + text)];
        Snocs(n[..last], n[last]);
        Snocs(n[..last], Source(TextHead, n[last].body + text));
        assert (Texts(n[..last]) + n[last].body) + text == Texts(n[..last]) + (n[last].body + text);
      } else {
        Snocs(n, Source(TextHead, text));
      }
    }
  }

  /** No two neighbouring text blocks and no empty one. */
  predicate IsNormal(n: seq<Source>) {
    && (forall i | 0 <= i < |n| :: n[i].head.TextHead? ==> |n[i].body| > 0)
    && (forall i | 0 <= i < |n| - 1 :: n[i].head.TextHead? ==> !n[i + 1].head.TextHead?)
  }

  lemma AddTextNormal(n: seq<Source>, text: string)
    requires IsNormal(n)
    ensures IsNormal(AddText(n, text))
  {
    var last := |n| - 1;
    assert text != "" ==> |text| > 0;
    if last >= 0 && n[last].head.TextHead? {
      assert |n[last].body + text| > 0;
    }
  }

  lemma {:induction false} NormalIsNormal(blocks: seq<Source>)
    ensures IsNormal(Normal(blocks))
    decreases |blocks|
  {
    if blocks != [] {
      NormalIsNormal(blocks[..|blocks| - 1]);
      AddTextNormal(Normal(blocks[..|blocks| - 1]), blocks[|blocks| - 1].body);
    }
  }

  // ----- When the round trip is invisible -----

  lemma AddTextSize(n: seq<Source>, text: string)
    ensures |AddText(n, text)| <= |n| + 1
    ensures |AddText(n, text)| == |n| + 1 ==> AddText(n, text) == n + [Source(TextHead, text)]
  {
  }

  /** Normalising never adds blocks, and changes nothing if it drops none. */
  lemma {:induction false} NormalSize(blocks: seq<Source>)
    ensures |Normal(blocks)| <= |blocks|
    ensures |Normal(blocks)| == |blocks| ==> Normal(blocks) == blocks
    decreases |blocks|
  {
    hide AddText;
    if blocks != [] {
      var init, last := blocks[..|blocks| - 1], blocks[|blocks| - 1];
      NormalSize(init);
      AddTextSize(Normal(init), last.body);
      assert blocks == init + [last];
    }
  }

  /** Only text and tool blocks, no text empty and no two neighbouring. */
  predicate Plain(blocks: seq<Source>) {
    IsNormal(blocks) && forall i | 0 <= i < |blocks| :: blocks[i].head.TextHead? || blocks[i].head.ToolUseHead?
  }

  predicate Named(blocks: seq<Source>) {
    forall i | 0 <= i < |blocks| && blocks[i].head.ToolUseHead? :: blocks[i].head.id != "" && blocks[i].head.name != ""
  }

  lemma {:induction false} PlainIsNormal(blocks: seq<Source>)
    requires Plain(blocks)
    ensures Normal(blocks) == blocks
    decreases |blocks|
  {
    hide AddText, Plain;
    if blocks != [] {
      var n := |blocks| - 1;
      PlainKinds(blocks);
      PlainSnoc(blocks);
      PlainIsNormal(blocks[..n]);
    }
  }

  lemma PlainKinds(blocks: seq<Source>)
    requires Plain(blocks)
    ensures forall s | s in blocks :: s.head.TextHead? || s.head.ToolUseHead?
  {
  }

  lemma PlainSnoc(blocks: seq<Source>)
    requires Plain(blocks) && blocks != []
    ensures var n := |blocks| - 1;
      blocks == if blocks[n].head.TextHead? then AddText(blocks[..n], blocks[n].body) else blocks[..n] + [blocks[n]]
    ensures Plain(blocks[..|blocks| - 1])
  {
    var n := |blocks| - 1;
    assert blocks == blocks[..n] + [blocks[n]];
    if n > 0 { assert blocks[..n][n - 1] == blocks[n - 1]; }
    if blocks[n].head.TextHead? { assert |blocks[n].body| > 0 && blocks[n] == Source(TextHead, blocks[n].body); }
  }

  lemma UnchangedIffPlain(blocks: seq<Source>)
    ensures Normal(blocks) == blocks <==> Plain(blocks)
  {
    hide Normal;
    NormalIsNormal(blocks);
    NormalKinds(blocks);
    if Plain(blocks) { PlainIsNormal(blocks); }
  }

  lemma SameBlocksIff(blocks: seq<Source>, newId: int -> string)
    requires forall key :: newId(key) != ""
    ensures Delivered(Normal(blocks), newId) == Blocks(blocks) <==> Plain(blocks) && Named(blocks)
  {
    hide Normal, StandIn, Mute, ToolCount, Plain;
    var n := Normal(blocks);
    NormalSize(blocks);
    UnchangedIffPlain(blocks);
    BlocksPreservedIffNamed(n, newId);
    if Delivered(n, newId) == Blocks(blocks) {
      assert |blocks| > 0 ==> |blocks| - 1 in Blocks(blocks);
      assert |n| == |blocks|;
    }
  }

  /** What a client receives of a sequential stream itself. Its counts are those of the message
      start, updated by those of the message delta. */
  lemma ReadDirect(start: Event, body: seq<Event>, stop: string, usage: Option<AnthropicUsage>)
    requires start.MessageStart? && FollowAll(body).Some?
    ensures var r := FollowAll(body).value;
      Read(Message(start, body, stop, usage)) ==
      if r.open then Violation
      else
        Complete(Header(start.id, start.model, Updated(start.usage.GetOr(NO_USAGE), usage)), Blocks(r.blocks),
                 Some(stop))
  {
    hide FollowAll;
    var r := FollowAll(body).value;
    var header := Header(start.id, start.model, start.usage.GetOr(NO_USAGE));
    var before := Streaming(header, SourceBlocks(r));
    var delta := MessageDelta(Some(stop), usage);
    FeedOne(Waiting, start);
    FeedAppend(Waiting, [start], body);
    SequentialIsAccepted(header, body);
    FeedAppend(Waiting, [start] + body, [delta]);
    FeedOne(before, delta);
    FeedAppend(Waiting, ([start] + body) + [delta], [MessageStop]);
    FeedOne(Feed(before, delta), MessageStop);
    if r.open {
      assert |r.blocks| - 1 in SourceBlocks(r);
    } else {
      assert SourceBlocks(r) == Blocks(r.blocks);
    }
  }

  /** Two clients that completed a message with the same blocks, stop reason and token counts. */
  ghost predicate SameMessage(a: Client, b: Client) {
    && a.Complete? && b.Complete?
    && a.blocks == b.blocks && a.stopReason == b.stopReason && a.header.usage == b.header.usage
  }

  lemma ToldNothing(known: AnthropicUsage)
    ensures Updated(known, Some(NO_USAGE)) == Updated(known, None)
  {
  }

  /** The client at the far end of both conversions holds what a direct client would, exactly
      when the stream closes its blocks, holds nothing but plain blocks with named tools, ends
      with one of the three common stop reasons, and tells at its end all the counts that it told
      at its start, in a form that the OpenAI format can carry. */
  lemma RoundTripInvisibleIff(start: Event, body: seq<Event>, stop: string, usage: Option<AnthropicUsage>,
                              model: string, drawn: string, newId: int -> string)
    requires start.MessageStart? && FollowAll(body).Some? && forall key :: newId(key) != ""
    ensures var message := Message(start, body, stop, usage);
      var r := FollowAll(body).value;
      SameMessage(Read(Convert(Backward(message, model, drawn).chunks, newId)), Read(message)) <==>
      && !r.open && Plain(r.blocks) && Named(r.blocks)
      && stop in {"end_turn", "max_tokens", "tool_use"}
      && RetoldAtEnd(start.usage.GetOr(NO_USAGE), usage.GetOr(NO_USAGE))
  {
    hide FollowAll, Message, Read, Convert, Backward, Normal, Delivered, Blocks, Plain, Named,
         AnthropicStopReason, OpenAiStopReason, ToAnthropic, ToOpenAi, RetoldAtEnd, Updated;
    RoundTrip(start, body, stop, usage, model, drawn, newId);
    ReadDirect(start, body, stop, usage);
    SameBlocksIff(FollowAll(body).value.blocks, newId);
    StopReasonRoundTrip(stop);
    SameCountsIffRetold(start.usage.GetOr(NO_USAGE), usage.GetOr(NO_USAGE));
    ToldNothing(start.usage.GetOr(NO_USAGE));
  }
}
