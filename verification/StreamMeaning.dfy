/**
 What a stream of chunks says, independently of how it is converted, and the main theorem:
 a client of the converted stream receives exactly that.

 The meaning is a reading of the whole history `h` of items: the layout of text runs and tool
 calls, and for each tool call a view that looks at its own deltas only.
 */
module StreamMeaning {
  import opened Wrappers
  import opened TokenUsage
  import opened StreamProtocol
  import opened StreamConverter
  import opened StreamBracketing

  // ----- What the chunks say -----

  /** `h` is what one chunk says: the text of its first choice, then its tool calls, then its
      finish reason, whatever its id, model and usage. */
  ghost predicate Spells(h: seq<Item>, chunk: Chunk) {
    if chunk.choices == [] then h == []
    else
      var choice := chunk.choices[0];
      var content := if choice.delta.Some? then choice.delta.value.content else "";
      var calls := if choice.delta.Some? then choice.delta.value.toolCalls else [];
      var texts := if content == "" then 0 else 1;
      && |h| == texts + |calls| + (if choice.finishReason.Some? then 1 else 0)
      && (content != "" ==> h[0] == TextItem(content))
      && (forall j | 0 <= j < |calls| :: h[texts + j] == CallItem(calls[j]))
      && (choice.finishReason.Some? ==> h[|h| - 1] == FinishItem(choice.finishReason.value))
  }

  /** `h` is what the chunks say, one after the other. */
  ghost predicate Told(h: seq<Item>, chunks: seq<Chunk>)
    decreases |chunks|
  {
    if chunks == [] then h == []
    else
      var n := |chunks| - 1;
      exists k | 0 <= k <= |h| :: Told(h[..k], chunks[..n]) && Spells(h[k..], chunks[n])
  }

  lemma SpelledOnce(g: seq<Item>, h: seq<Item>, chunk: Chunk)
    requires Spells(g, chunk) && Spells(h, chunk)
    ensures g == h
  {
    if chunk.choices != [] {
      var choice := chunk.choices[0];
      var calls := if choice.delta.Some? then choice.delta.value.toolCalls else [];
      var texts := if choice.delta.Some? && choice.delta.value.content != "" then 1 else 0;
      forall i | 0 <= i < |h| ensures g[i] == h[i] {
        var j := i - texts;
        if 0 <= j < |calls| { assert g[texts + j] == CallItem(calls[j]) && h[texts + j] == CallItem(calls[j]); }
      }
    }
  }

  lemma ChunkItemsSpell(h: seq<Item>, chunk: Chunk)
    ensures Spells(h, chunk) <==> h == ChunkItems(chunk)
  {
    hide Spells, ChunkItems;
    ItemsSpell(chunk);
    if Spells(h, chunk) { SpelledOnce(h, ChunkItems(chunk), chunk); }
  }

  lemma ItemsSpell(chunk: Chunk)
    ensures Spells(ChunkItems(chunk), chunk)
  {
    if chunk.choices != [] && chunk.choices[0].delta.Some? {
      var items, delta := ChunkItems(chunk), chunk.choices[0].delta.value;
      var texts := if delta.content == "" then 0 else 1;
      assert |Calls(delta.toolCalls)| == |delta.toolCalls|;
      forall j | 0 <= j < |delta.toolCalls| ensures items[texts + j] == CallItem(delta.toolCalls[j]) {
        assert items[texts + j] == DeltaItems(chunk.choices[0].delta)[texts + j] == Calls(delta.toolCalls)[j];
      }
    }
  }

  /** The converter acts on what the chunks say, in that order, and on nothing else. */
  lemma {:induction false} ItemsAreTold(chunks: seq<Chunk>, h: seq<Item>)
    ensures Told(h, chunks) <==> h == AllItems(chunks)
    decreases |chunks|
  {
    hide Spells, ChunkItems;
    if chunks != [] {
      var n := |chunks| - 1;
      var init, last := AllItems(chunks[..n]), ChunkItems(chunks[n]);
      ItemsAreTold(chunks[..n], init);
      ChunkItemsSpell(last, chunks[n]);
      assert (init + last)[..|init|] == init && (init + last)[|init|..] == last;
      if Told(h, chunks) {
        var k :| 0 <= k <= |h| && Told(h[..k], chunks[..n]) && Spells(h[k..], chunks[n]);
        ItemsAreTold(chunks[..n], h[..k]);
        ChunkItemsSpell(h[k..], chunks[n]);
        assert h == h[..k] + h[k..];
      }
    }
  }

  /** The text of a chunk, and of all chunks. */
  function TextOf(chunk: Chunk): string {
    if chunk.choices != [] && chunk.choices[0].delta.Some? then chunk.choices[0].delta.value.content else ""
  }

  function Content(chunks: seq<Chunk>): string {
    if chunks == [] then "" else Content(chunks[..|chunks| - 1]) + TextOf(chunks[|chunks| - 1])
  }

  /** The tool calls of a chunk. */
  function CallsIn(chunk: Chunk): seq<ToolCall> {
    if chunk.choices != [] && chunk.choices[0].delta.Some? then chunk.choices[0].delta.value.toolCalls else []
  }

  /** The argument fragments for tool call number `key`, which is 0 for a call without index. */
  function ArgumentsAmong(calls: seq<ToolCall>, key: int): string {
    if calls == [] then ""
    else
      var last := calls[|calls| - 1];
      ArgumentsAmong(calls[..|calls| - 1], key) +
      (if (if last.index.Some? then last.index.value else 0) == key then last.arguments else "")
  }

  function ArgumentsOf(chunks: seq<Chunk>, key: int): string {
    if chunks == [] then ""
    else ArgumentsOf(chunks[..|chunks| - 1], key) + ArgumentsAmong(CallsIn(chunks[|chunks| - 1]), key)
  }

  /** The usage reports among the chunks, in order. */
  function Usages(chunks: seq<Chunk>): seq<OpenAiUsage> {
    if chunks == [] then []
    else
      var u := chunks[|chunks| - 1].usage;
      Usages(chunks[..|chunks| - 1]) + (if u.Some? then [u.value] else [])
  }

  // ----- Meaning -----

  datatype Slot = TextSlot(text: string) | ToolSlot(key: int)

  /** The last thing said was text: the next text belongs to the same block. */
  predicate TextRun(h: seq<Item>) {
    if h == [] then false
    else
      match h[|h| - 1]
      case TextItem(_) => true
      case CallItem(_) => false
      case FinishItem(_) => Finished(h[..|h| - 1]) && TextRun(h[..|h| - 1])
  }

  /** Runs of text and first appearances of tool calls, in order. */
  function Layout(h: seq<Item>): (slots: seq<Slot>)
    ensures TextRun(h) ==> slots != [] && slots[|slots| - 1].TextSlot?
  {
    if h == [] then []
    else
      var slots := Layout(h[..|h| - 1]);
      match h[|h| - 1]
      case TextItem(text) =>
        if TextRun(h[..|h| - 1]) then slots[|slots| - 1 := TextSlot(slots[|slots| - 1].text + text)]
            else slots + [TextSlot(text)]
      case CallItem(call) => if ToolSlot(call.Key()) in slots then slots else slots + [ToolSlot(call.Key())]
      case FinishItem(_) => slots
  }

  /** What the deltas of one tool call say. */
  datatype ToolView = ToolView(id: string, name: string, arguments: string, head: Option<BlockHead>) {
    function Learn(call: ToolCall): ToolView {
      var id' := if call.id != "" then call.id else id;
      var name' := if call.name != "" then call.name else name;
      ToolView(id', name', arguments + call.arguments,
               if head.None? && id' != "" && name' != "" then Some(ToolUseHead(id', name')) else head)
    }

    /** At the end an unannounced call that said anything gets stand-ins for what it did not say. */
    function End(key: int, newId: int -> string): ToolView {
      if head.Some? || (id == "" && name == "" && arguments == "") then this
      else
        var id' := if id == "" then newId(key) else id;
        var name' := if name == "" then "unknown_tool" else name;
        ToolView(id', name', arguments, Some(ToolUseHead(id', name')))
    }
  }

  function ViewOf(h: seq<Item>, key: int, newId: int -> string): ToolView {
    if h == [] then ToolView("", "", "", None)
    else
      var before := ViewOf(h[..|h| - 1], key, newId);
      match h[|h| - 1]
      case TextItem(_) => before
      case CallItem(call) => if call.Key() == key then before.Learn(call) else before
      case FinishItem(_) => if Finished(h[..|h| - 1]) then before else before.End(key, newId)
  }

  /** Everything a client should hold at the end of the stream. */
  ghost function Meaning(h: seq<Item>, newId: int -> string): map<int, Received> {
    var slots := Layout(h);
    map i: int | 0 <= i < |slots|
        && (slots[i].ToolSlot? ==> ViewOf(h, slots[i].key, newId).End(slots[i].key, newId).head.Some?) ::
      match slots[i]
      case TextSlot(text) => Received(TextHead, text, false)
      case ToolSlot(key) => Received(ViewOf(h, key, newId).End(key, newId).head.value,
          ViewOf(h, key, newId).arguments, false)
  }

  /** Tool calls that said anything. */
  function Spoken(h: seq<Item>): set<int> {
    if h == [] then {}
    else
      var last := h[|h| - 1];
      Spoken(h[..|h| - 1]) + (if last.CallItem? && !last.call.Empty() then {last.call.Key()} else {})
  }

  /** Tool calls that had said anything when the first finish reason came. */
  function Sealed(h: seq<Item>): set<int> {
    if h == [] then {}
    else
      var init := h[..|h| - 1];
      if h[|h| - 1].FinishItem? && !Finished(init) then Spoken(init) else Sealed(init)
  }

  /** Arguments arrive after the first finish reason for a tool call that was sealed by it. */
  predicate LateArguments(h: seq<Item>) {
    if h == [] then false
    else
      var init := h[..|h| - 1];
      var last := h[|h| - 1];
      LateArguments(init) || (last.CallItem? && last.call.arguments != "" && last.call.Key() in Sealed(init))
  }

  // ----- The converter tracks the meaning -----

  ghost predicate TracksTool(t: Tool, v: ToolView, isSpoken: bool, isSealed: bool) {
    && t.id == v.id && t.name == v.name && t.head == v.head
    && t.body + t.pending == v.arguments
    && (t.Blank() <==> !isSpoken)
    && (Shut(t) <==> isSealed)
  }

  ghost predicate TracksBlock(t: Block, slot: Slot, h: seq<Item>, newId: int -> string) {
    match slot
    case TextSlot(text) => t.TextBlock? && t.body == text
    case ToolSlot(key) => t.Serves(key) && TracksTool(t.tool, ViewOf(h, key, newId), key in Spoken(h), key in Sealed(h))
  }

  ghost predicate TracksBlocks(b: seq<Block>, h: seq<Item>, newId: int -> string) {
    && |b| == |Layout(h)|
    && (forall i | 0 <= i < |b| :: TracksBlock(b[i], Layout(h)[i], h, newId))
  }

  ghost predicate Tracks(b: seq<Block>, h: seq<Item>, newId: int -> string) {
    && TracksBlocks(b, h, newId)
    && (TextOpen(b) <==> TextRun(h))
  }

  lemma TextTracks(b: seq<Block>, h: seq<Item>, text: string, newId: int -> string)
    requires Valid(b) && Tracks(b, h, newId)
    ensures Tracks(Text(b, text).blocks, h + [TextItem(text)], newId)
  {
    var h' := h + [TextItem(text)];
    assert h'[..|h|] == h;
    var b' := Text(b, text).blocks;
    forall i | 0 <= i < |b'| ensures TracksBlock(b'[i], Layout(h')[i], h', newId) {
      if i < |b| { assert TracksBlock(b[i], Layout(h)[i], h, newId); }
    }
  }

  lemma CallToolTracks(t: Tool, i: nat, call: ToolCall, v: ToolView, isSpoken: bool, isSealed: bool)
    requires ValidTool(t) && TracksTool(t, v, isSpoken, isSealed)
    ensures TracksTool(CallTool(t, i, call).0, v.Learn(call), isSpoken || !call.Empty(), isSealed)
  {
  }

  lemma {:induction false} Unmentioned(h: seq<Item>, key: int, newId: int -> string)
    requires ToolSlot(key) !in Layout(h)
    ensures ViewOf(h, key, newId) == ToolView("", "", "", None) && key !in Spoken(h) && key !in Sealed(h)
    decreases |h|
  {
    if h != [] {
      var init := h[..|h| - 1];
      forall slot | slot in Layout(init) && slot.ToolSlot? ensures slot in Layout(h) {
        var i :| 0 <= i < |Layout(init)| && Layout(init)[i] == slot;
        assert Layout(h)[i] == slot;
      }
      if h[|h| - 1].CallItem? {
        assert ToolSlot(h[|h| - 1].call.Key()) in Layout(h);
      }
      Unmentioned(init, key, newId);
    }
  }

  lemma CloseTextTracks(b: seq<Block>, h: seq<Item>, newId: int -> string)
    requires Valid(b) && TracksBlocks(b, h, newId)
    ensures TracksBlocks(CloseText(b).blocks, h, newId)
  {
    forall i | 0 <= i < |b| ensures TracksBlock(CloseText(b).blocks[i], Layout(h)[i], h, newId) {
      assert TracksBlock(b[i], Layout(h)[i], h, newId);
    }
  }

  lemma SlotAt(b: seq<Block>, h: seq<Item>, i: nat, key: int, newId: int -> string)
    requires TracksBlocks(b, h, newId) && i < |b|
    ensures b[i].Serves(key) <==> Layout(h)[i] == ToolSlot(key)
  {
    assert TracksBlock(b[i], Layout(h)[i], h, newId);
  }

  lemma SlotFound(b: seq<Block>, h: seq<Item>, key: int, newId: int -> string)
    requires TracksBlocks(b, h, newId)
    ensures Find(b, key) < |b| ==> Layout(h)[Find(b, key)] == ToolSlot(key)
    ensures Find(b, key) == |b| ==> ToolSlot(key) !in Layout(h)
  {
    forall i | 0 <= i < |b| ensures b[i].Serves(key) <==> Layout(h)[i] == ToolSlot(key) {
      SlotAt(b, h, i, key, newId);
    }
  }

  /** A call changes the view of its own tool only. */
  lemma OtherBlockTracks(t: Block, slot: Slot, h: seq<Item>, call: ToolCall, newId: int -> string)
    requires TracksBlock(t, slot, h, newId) && !t.Serves(call.Key())
    ensures TracksBlock(t, slot, h + [CallItem(call)], newId)
  {
    assert (h + [CallItem(call)])[..|h|] == h;
  }

  lemma OwnBlockTracks(t: Tool, i: nat, h: seq<Item>, call: ToolCall, newId: int -> string)
    requires t.key == call.Key() && ValidTool(t)
    requires TracksTool(t, ViewOf(h, t.key, newId), t.key in Spoken(h), t.key in Sealed(h))
    ensures TracksBlock(ToolBlock(CallTool(t, i, call).0), ToolSlot(t.key), h + [CallItem(call)], newId)
  {
    assert (h + [CallItem(call)])[..|h|] == h;
    CallToolTracks(t, i, call, ViewOf(h, t.key, newId), t.key in Spoken(h), t.key in Sealed(h));
    CallToolValid(t, i, call);
  }

  lemma CallTracks(b: seq<Block>, h: seq<Item>, call: ToolCall, newId: int -> string)
    requires Valid(b) && !TextOpen(b) && TracksBlocks(b, h, newId)
    ensures TracksBlocks(Call(b, call).blocks, h + [CallItem(call)], newId)
  {
    hide CallTool, TextRun, Finished, ViewOf, Spoken, Sealed;
    var h' := h + [CallItem(call)];
    assert h'[..|h|] == h;
    var key := call.Key();
    var at := Find(b, key);
    var b1 := WithTool(b, key);
    SlotFound(b, h, key, newId);
    if at == |b| {
      Unmentioned(h, key, newId);
    } else {
      assert TracksBlock(b[at], Layout(h)[at], h, newId);
    }
    OwnBlockTracks(b1[at].tool, at, h, call, newId);
    var b2 := Call(b, call).blocks;
    forall i | 0 <= i < |b2| ensures TracksBlock(b2[i], Layout(h')[i], h', newId) {
      if i != at {
        assert TracksBlock(b[i], Layout(h)[i], h, newId);
        assert !b[i].Serves(key);
        OtherBlockTracks(b[i], Layout(h)[i], h, call, newId);
      }
    }
  }

  lemma ClosingCallTracks(b: seq<Block>, h: seq<Item>, call: ToolCall, newId: int -> string)
    requires Valid(b) && Tracks(b, h, newId)
    ensures Tracks(ClosingCall(b, call).blocks, h + [CallItem(call)], newId)
  {
    CloseTextValid(b);
    CloseTextTracks(b, h, newId);
    CallTracks(CloseText(b).blocks, h, call, newId);
    ClosingCallValid(b, call);
    assert (h + [CallItem(call)])[..|h|] == h;
  }

  lemma {:induction false} SealedBounds(h: seq<Item>)
    ensures !Finished(h) ==> Sealed(h) == {}
    ensures Sealed(h) <= Spoken(h)
    decreases |h|
  {
    if h != [] {
      var init := h[..|h| - 1];
      SealedBounds(init);
      assert Finished(init) ==> Finished(h);
      assert h[|h| - 1].FinishItem? ==> Finished(h);
    }
  }

  /** The first finish announces every call that said anything, and seals it. */
  lemma SettleTracks(b: seq<Block>, h: seq<Item>, reason: string, newId: int -> string)
    requires Valid(b) && Tracks(b, h, newId) && !Finished(h)
    ensures Tracks(Settle(b, newId).blocks, h + [FinishItem(reason)], newId)
  {
    var h' := h + [FinishItem(reason)];
    assert h'[..|h|] == h;
    SettleAt(b, newId);
    SealedBounds(h);
    var b' := Settle(b, newId).blocks;
    forall i | 0 <= i < |b'| ensures TracksBlock(b'[i], Layout(h')[i], h', newId) {
      assert TracksBlock(b[i], Layout(h)[i], h, newId);
      if b[i].ToolBlock? {
        assert b[i].tool.body + "" == b[i].tool.body && "" + b[i].tool.pending == b[i].tool.pending;
        assert ValidTool(b[i].tool);
      }
    }
  }

  lemma SecondFinishTracks(b: seq<Block>, h: seq<Item>, reason: string, newId: int -> string)
    requires Tracks(b, h, newId) && Finished(h)
    ensures Tracks(b, h + [FinishItem(reason)], newId)
  {
    var h' := h + [FinishItem(reason)];
    assert h'[..|h|] == h;
    forall i | 0 <= i < |b| ensures TracksBlock(b[i], Layout(h')[i], h', newId) {
      assert TracksBlock(b[i], Layout(h)[i], h, newId);
    }
  }

  lemma ItemTracks(b: seq<Block>, h: seq<Item>, item: Item, newId: int -> string)
    requires Valid(b) && Tracks(b, h, newId)
    ensures Tracks(ItemStep(b, Finished(h), item, newId).blocks, h + [item], newId)
  {
    match item
    case TextItem(text) => TextTracks(b, h, text, newId);
    case CallItem(call) => ClosingCallTracks(b, h, call, newId);
    case FinishItem(reason) =>
      if Finished(h) {
        SecondFinishTracks(b, h, reason, newId);
      } else {
        SettleTracks(b, h, reason, newId);
      }
  }

  lemma NothingTracks(newId: int -> string)
    ensures Valid([]) && Tracks([], [], newId)
  {
  }

  /** After every history the block list holds the history's meaning so far. */
  lemma {:induction false} RunTracks(h: seq<Item>, newId: int -> string)
    ensures Tracks(Run([], false, h, newId).blocks, h, newId)
    decreases |h|
  {
    hide ItemStep, Valid, Tracks;
    if h == [] {
      NothingTracks(newId);
    } else {
      var init := h[..|h| - 1];
      RunTracks(init, newId);
      NothingTracks(newId);
      RunValid([], false, init, newId);
      assert h == init + [h[|h| - 1]];
      ItemTracks(Run([], false, init, newId).blocks, init, h[|h| - 1], newId);
    }
  }

  /** A run hits a closed block exactly when arguments arrive late. */
  lemma {:induction false} HitsClosedIsLate(h: seq<Item>, newId: int -> string)
    ensures RunHitsClosed([], false, h, newId) <==> LateArguments(h)
    decreases |h|
  {
    if h != [] {
      var init := h[..|h| - 1];
      var last := h[|h| - 1];
      HitsClosedIsLate(init, newId);
      if last.CallItem? {
        var key := last.call.Key();
        var b := Run([], false, init, newId).blocks;
        RunTracks(init, newId);
        SlotFound(b, init, key, newId);
        var at := Find(b, key);
        if at < |b| {
          assert TracksBlock(b[at], Layout(init)[at], init, newId);
        } else {
          Unmentioned(init, key, newId);
        }
      }
    }
  }
}
