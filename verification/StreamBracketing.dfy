/**
 What a client makes of the converted stream.

 The client's blocks are exactly the announced blocks of the converter after every item, and
 the only way to a protocol violation is a tool-call delta whose block is already closed.
 */
module StreamBracketing {
  import opened StreamProtocol
  import opened StreamConverter

  /** The client's view of a block list: announced blocks under their positions. */
  ghost function Seen(b: seq<Block>): map<int, Received> {
    map i: int | 0 <= i < |b| && b[i].Announced() :: b[i].Seen()
  }

  /** Every reachable block list: only the last text block may be open, a tool block is
      open only once announced, holds nothing back after that and sent nothing before, and no
      two blocks serve the same tool call. */
  ghost predicate Valid(b: seq<Block>) {
    && (forall i | 0 <= i < |b| - 1 :: b[i].TextBlock? ==> !b[i].textOpen)
    && (forall i | 0 <= i < |b| :: b[i].ToolBlock? ==> ValidTool(b[i].tool))
    && (forall i, j | 0 <= i < j < |b| :: b[i].ToolBlock? && b[j].ToolBlock? ==> b[i].tool.key != b[j].tool.key)
  }

  ghost predicate ValidTool(t: Tool) {
    && (t.head.Some? ==> t.head.value.ToolUseHead? && t.pending == "")
    && (t.head.None? ==> !t.open && t.body == "")
  }

  predicate Shut(t: Tool) { t.head.Some? && !t.open }

  /** The tool call comes too late: its block was announced and closed, and it has arguments. */
  predicate HitsClosed(b: seq<Block>, call: ToolCall) {
    var i := Find(b, call.Key());
    call.arguments != "" && i < |b| && Shut(b[i].tool)
  }

  ghost function View(header: Header, b: seq<Block>): Client { Streaming(header, Seen(b)) }

  // ----- One change of a block list -----

  lemma SeenAppend(b: seq<Block>, t: Block)
    ensures Seen(b + [t]) == if t.Announced() then Seen(b)[|b| := t.Seen()] else Seen(b)
  {
  }

  lemma SeenUpdate(b: seq<Block>, i: nat, t: Block)
    requires i < |b|
    ensures t.Announced() ==> Seen(b[i := t]) == Seen(b)[i := t.Seen()]
    ensures !t.Announced() && !b[i].Announced() ==> Seen(b[i := t]) == Seen(b)
  {
  }

  lemma FeedOne(c: Client, e: Event)
    ensures FeedAll(c, [e]) == Feed(c, e)
  {
    assert [e][..0] == [];
  }

  lemma FeedTwo(c: Client, d: Event, e: Event)
    ensures FeedAll(c, [d, e]) == Feed(Feed(c, d), e)
  {
    assert [d, e] == [d] + [e];
    FeedAppend(c, [d], [e]);
    FeedOne(c, d);
    FeedOne(Feed(c, d), e);
  }

  // ----- Text -----

  lemma TextValid(b: seq<Block>, text: string)
    requires Valid(b)
    ensures Valid(Text(b, text).blocks)
  {
  }

  lemma TextSeen(header: Header, b: seq<Block>, text: string)
    requires Valid(b)
    ensures FeedAll(View(header, b), Text(b, text).events) == View(header, Text(b, text).blocks)
  {
    var n := |b|;
    var c := View(header, b);
    if TextOpen(b) {
      SeenUpdate(b, n - 1, TextBlock(b[n - 1].body + text, true));
      FeedOne(c, ContentBlockDelta(n - 1, TextDelta(text)));
    } else {
      SeenAppend(b, TextBlock(text, true));
      FeedTwo(c, ContentBlockStart(n, TextHead), ContentBlockDelta(n, TextDelta(text)));
      assert "" + text == text;
    }
  }

  lemma CloseTextValid(b: seq<Block>)
    requires Valid(b)
    ensures Valid(CloseText(b).blocks) && !TextOpen(CloseText(b).blocks)
    ensures forall i | 0 <= i < |b| :: CloseText(b).blocks[i].TextBlock? ==> !CloseText(b).blocks[i].textOpen
  {
  }

  lemma CloseTextSeen(header: Header, b: seq<Block>)
    requires Valid(b)
    ensures FeedAll(View(header, b), CloseText(b).events) == View(header, CloseText(b).blocks)
  {
    if TextOpen(b) {
      SeenUpdate(b, |b| - 1, TextBlock(b[|b| - 1].body, false));
      FeedOne(View(header, b), ContentBlockStop(|b| - 1));
    }
  }

  // ----- Announcing and arguing -----

  /** Announcing the block at `i` is a start, and a delta when arguments were held back. */
  lemma AnnounceSeen(header: Header, b: seq<Block>, i: nat, toolId: string, name: string)
    requires i < |b| && b[i].ToolBlock? && b[i].tool.head.None?
    ensures var (t, events) := Announce(b[i].tool, i, toolId, name);
      FeedAll(View(header, b), events) == View(header, b[i := ToolBlock(t)])
  {
    var pending := b[i].tool.pending;
    var (t, events) := Announce(b[i].tool, i, toolId, name);
    var head := ToolUseHead(toolId, name);
    var c := View(header, b);
    SeenUpdate(b, i, ToolBlock(t));
    if pending == "" {
      assert events == [ContentBlockStart(i, head)];
      FeedOne(c, events[0]);
    } else {
      assert events == [ContentBlockStart(i, head), ContentBlockDelta(i, InputJsonDelta(pending))];
      FeedTwo(c, events[0], events[1]);
      assert "" + pending == pending;
    }
  }

  lemma StartSeen(header: Header, b: seq<Block>, i: nat)
    requires i < |b| && b[i].ToolBlock?
    ensures var (t, events) := Start(b[i].tool, i);
      FeedAll(View(header, b), events) == View(header, b[i := ToolBlock(t)])
  {
    var t := b[i].tool;
    if t.head.None? && t.id != "" && t.name != "" {
      AnnounceSeen(header, b, i, t.id, t.name);
    } else {
      assert b[i := ToolBlock(t)] == b;
    }
  }

  /** Arguments reach the client, unless the block is closed. */
  lemma ArgueSeen(header: Header, b: seq<Block>, i: nat, arguments: string)
    requires i < |b| && b[i].ToolBlock? && ValidTool(b[i].tool)
    ensures var (t, events) := Argue(b[i].tool, i, arguments);
      FeedAll(View(header, b), events) ==
      if arguments != "" && Shut(b[i].tool) then Violation else View(header, b[i := ToolBlock(t)])
  {
    var (t, events) := Argue(b[i].tool, i, arguments);
    if arguments == "" {
      assert b[i := ToolBlock(t)] == b;
    } else {
      SeenUpdate(b, i, ToolBlock(t));
      if b[i].tool.head.Some? {
        FeedOne(View(header, b), events[0]);
      }
    }
  }

  // ----- A tool call -----

  lemma FindUnique(b: seq<Block>, i: nat)
    requires Valid(b) && i < |b| && b[i].ToolBlock?
    ensures Find(b, b[i].tool.key) == i
  {
    var j := Find(b, b[i].tool.key);
    assert j < |b| && b[j].Serves(b[i].tool.key);
  }

  lemma CallToolValid(t: Tool, i: nat, call: ToolCall)
    requires ValidTool(t)
    ensures var t' := CallTool(t, i, call).0; ValidTool(t') && t'.key == t.key
  {
  }

  lemma CallToolSeen(header: Header, b: seq<Block>, i: nat, call: ToolCall)
    requires i < |b| && b[i].ToolBlock? && ValidTool(b[i].tool)
    ensures var (t, events) := CallTool(b[i].tool, i, call);
      FeedAll(View(header, b), events) ==
      if call.arguments != "" && Shut(b[i].tool) then Violation else View(header, b[i := ToolBlock(t)])
  {
    var known := Learn(b[i].tool, call);
    var b1 := b[i := ToolBlock(known)];
    SeenUpdate(b, i, ToolBlock(known));
    assert Seen(b1) == Seen(b);
    var (started, e1) := Start(known, i);
    StartSeen(header, b1, i);
    var b2 := b1[i := ToolBlock(started)];
    var (argued, e2) := Argue(started, i, call.arguments);
    ArgueSeen(header, b2, i, call.arguments);
    FeedAppend(View(header, b), e1, e2);
    assert b2[i := ToolBlock(argued)] == b[i := ToolBlock(argued)];
  }

  lemma WithToolValid(b: seq<Block>, key: int)
    requires Valid(b) && !TextOpen(b)
    ensures Valid(WithTool(b, key)) && !TextOpen(WithTool(b, key))
    ensures Seen(WithTool(b, key)) == Seen(b)
  {
    SeenAppend(b, ToolBlock(NewTool(key)));
  }

  lemma CallValid(b: seq<Block>, call: ToolCall)
    requires Valid(b) && !TextOpen(b)
    ensures Valid(Call(b, call).blocks) && !TextOpen(Call(b, call).blocks)
  {
    var i := Find(b, call.Key());
    WithToolValid(b, call.Key());
    CallToolValid(WithTool(b, call.Key())[i].tool, i, call);
  }

  lemma CallSeen(header: Header, b: seq<Block>, call: ToolCall)
    requires Valid(b) && !TextOpen(b)
    ensures FeedAll(View(header, b), Call(b, call).events) ==
            if HitsClosed(b, call) then Violation else View(header, Call(b, call).blocks)
  {
    WithToolValid(b, call.Key());
    CallToolSeen(header, WithTool(b, call.Key()), Find(b, call.Key()), call);
  }

  lemma CloseTextKeepsTools(b: seq<Block>, key: int)
    ensures Find(CloseText(b).blocks, key) == Find(b, key)
    ensures Find(b, key) < |b| ==> CloseText(b).blocks[Find(b, key)] == b[Find(b, key)]
  {
    FindIsLeast(b, key);
    FindIsLeast(CloseText(b).blocks, key);
  }

  /** `Find` gives the first position that serves the key. */
  lemma FindIsLeast(b: seq<Block>, key: int)
    ensures forall j | 0 <= j < Find(b, key) :: !b[j].Serves(key)
  {
    if b != [] {
      FindIsLeast(b[..|b| - 1], key);
      assert forall j | 0 <= j < |b| - 1 :: b[..|b| - 1][j] == b[j];
    }
  }

  lemma ClosingCallValid(b: seq<Block>, call: ToolCall)
    requires Valid(b)
    ensures Valid(ClosingCall(b, call).blocks) && !TextOpen(ClosingCall(b, call).blocks)
  {
    CloseTextValid(b);
    CallValid(CloseText(b).blocks, call);
  }

  lemma ClosingCallSeen(header: Header, b: seq<Block>, call: ToolCall)
    requires Valid(b)
    ensures FeedAll(View(header, b), ClosingCall(b, call).events) ==
            if HitsClosed(b, call) then Violation else View(header, ClosingCall(b, call).blocks)
  {
    var closed := CloseText(b);
    CloseTextValid(b);
    CloseTextSeen(header, b);
    CloseTextKeepsTools(b, call.Key());
    CallSeen(header, closed.blocks, call);
    FeedAppend(View(header, b), closed.events, Call(closed.blocks, call).events);
  }

  // ----- Settling -----

  /** What late starting makes of each block; positions do not matter for the blocks. */
  lemma {:induction false} LateStartAt(b: seq<Block>, newId: int -> string, i: nat)
    requires i < |b|
    ensures LateStart(b, newId).blocks[i] == LateOne(b[i], i, newId).0
    decreases |b|
  {
    var n := |b| - 1;
    if i < n {
      LateStartAt(b[..n], newId, i);
    }
  }

  lemma {:induction false} CloseToolsAt(b: seq<Block>, i: nat)
    requires i < |b|
    ensures CloseTools(b).blocks[i] == CloseOne(b[i], i).0
    decreases |b|
  {
    var n := |b| - 1;
    if i < n {
      CloseToolsAt(b[..n], i);
    }
  }

  lemma LateStartValid(b: seq<Block>, newId: int -> string)
    requires Valid(b)
    ensures Valid(LateStart(b, newId).blocks)
  {
    forall i | 0 <= i < |b| ensures LateStart(b, newId).blocks[i] == LateOne(b[i], i, newId).0 {
      LateStartAt(b, newId, i);
    }
  }

  lemma CloseToolsValid(b: seq<Block>)
    requires Valid(b)
    ensures Valid(CloseTools(b).blocks)
  {
    forall i | 0 <= i < |b| ensures CloseTools(b).blocks[i] == CloseOne(b[i], i).0 {
      CloseToolsAt(b, i);
    }
  }

  lemma LateOneSeen(header: Header, b: seq<Block>, i: nat, newId: int -> string)
    requires i < |b|
    ensures var (t, events) := LateOne(b[i], i, newId);
      FeedAll(View(header, b), events) == View(header, b[i := t])
  {
    if b[i].Announced() || b[i].tool.Blank() {
      assert b[i := b[i]] == b;
    } else {
      var late := b[i].tool;
      AnnounceSeen(header, b, i, if late.id == "" then newId(late.key) else late.id,
                   if late.name == "" then "unknown_tool" else late.name);
    }
  }

  lemma CloseOneSeen(header: Header, b: seq<Block>, i: nat)
    requires i < |b| && (b[i].ToolBlock? ==> ValidTool(b[i].tool))
    ensures var (t, events) := CloseOne(b[i], i); FeedAll(View(header, b), events) == View(header, b[i := t])
  {
    var t := CloseOne(b[i], i).0;
    if b[i].ToolBlock? && b[i].tool.open {
      SeenUpdate(b, i, t);
      FeedOne(View(header, b), ContentBlockStop(i));
    } else {
      assert b[i := b[i]] == b;
    }
  }

  lemma {:induction false} LateStartSeen(header: Header, b: seq<Block>, newId: int -> string, n: nat)
    requires n <= |b|
    ensures FeedAll(View(header, b), LateStart(b[..n], newId).events) ==
            View(header, LateStart(b[..n], newId).blocks + b[n..])
    decreases n
  {
    hide Feed, LateOne, View;
    if n == 0 {
      assert b[..0] == [] && [] + b[0..] == b;
    } else {
      var m := n - 1;
      LateStartSeen(header, b, newId, m);
      var before := LateStart(b[..m], newId);
      assert b[..n][..m] == b[..m];
      var (t, events) := LateOne(b[m], m, newId);
      var mixed := before.blocks + b[m..];
      FeedAppend(View(header, b), before.events, events);
      assert mixed[m] == b[m];
      assert mixed[m := t] == LateStart(b[..n], newId).blocks + b[n..];
      LateOneSeen(header, mixed, m, newId);
    }
  }

  lemma {:induction false} CloseToolsSeen(header: Header, b: seq<Block>, n: nat)
    requires Valid(b) && n <= |b|
    ensures FeedAll(View(header, b), CloseTools(b[..n]).events) ==
        View(header, CloseTools(b[..n]).blocks + b[n..])
    decreases n
  {
    hide Feed, CloseOne, View;
    if n == 0 {
      assert b[..0] == [] && [] + b[0..] == b;
    } else {
      var m := n - 1;
      CloseToolsSeen(header, b, m);
      var before := CloseTools(b[..m]);
      assert b[..n][..m] == b[..m];
      var (t, events) := CloseOne(b[m], m);
      var mixed := before.blocks + b[m..];
      FeedAppend(View(header, b), before.events, events);
      assert mixed[m] == b[m];
      assert mixed[m := t] == CloseTools(b[..n]).blocks + b[n..];
      CloseOneSeen(header, mixed, m);
    }
  }

  lemma SettleValid(b: seq<Block>, newId: int -> string)
    requires Valid(b)
    ensures Valid(Settle(b, newId).blocks)
  {
    CloseTextValid(b);
    LateStartValid(CloseText(b).blocks, newId);
    CloseToolsValid(LateStart(CloseText(b).blocks, newId).blocks);
  }

  lemma SettleSeen(header: Header, b: seq<Block>, newId: int -> string)
    requires Valid(b)
    ensures FeedAll(View(header, b), Settle(b, newId).events) == View(header, Settle(b, newId).blocks)
  {
    var s1 := CloseText(b);
    CloseTextValid(b);
    CloseTextSeen(header, b);
    var s2 := LateStart(s1.blocks, newId);
    LateStartValid(s1.blocks, newId);
    LateStartSeen(header, s1.blocks, newId, |b|);
    assert s1.blocks[..|b|] == s1.blocks && s2.blocks + s1.blocks[|b|..] == s2.blocks;
    CloseToolsSeen(header, s2.blocks, |b|);
    var s3 := CloseTools(s2.blocks);
    assert s2.blocks[..|b|] == s2.blocks && s3.blocks + s2.blocks[|b|..] == s3.blocks;
    FeedAppend(View(header, b), s1.events, s2.events);
    FeedAppend(View(header, b), s1.events + s2.events, s3.events);
  }

  /** Block by block, settling announces what is not blank and closes everything. */
  function SettledBlock(t: Block, newId: int -> string): Block {
    CloseOne(LateOne(if t.TextBlock? then TextBlock(t.body, false) else t, 0, newId).0, 0).0
  }

  lemma SettleAt(b: seq<Block>, newId: int -> string)
    requires Valid(b)
    ensures |Settle(b, newId).blocks| == |b|
    ensures forall i | 0 <= i < |b| ::
              Settle(b, newId).blocks[i] == SettledBlock(b[i], newId) && !Settle(b, newId).blocks[i].Open()
  {
    var b1 := CloseText(b).blocks;
    var b2 := LateStart(b1, newId).blocks;
    forall i | 0 <= i < |b|
      ensures Settle(b, newId).blocks[i] == SettledBlock(b[i], newId) && !Settle(b, newId).blocks[i].Open()
    {
      LateStartAt(b1, newId, i);
      CloseToolsAt(b2, i);
    }
  }

  // ----- Whole runs -----

  /** Some item of the run finds the block of its tool call already closed. */
  predicate RunHitsClosed(b: seq<Block>, finished: bool, items: seq<Item>, newId: int -> string) {
    if items == [] then false
    else
      var init := items[..|items| - 1];
      var last := items[|items| - 1];
      RunHitsClosed(b, finished, init, newId) ||
      (last.CallItem? && HitsClosed(Run(b, finished, init, newId).blocks, last.call))
  }

  lemma ItemStepValid(b: seq<Block>, finished: bool, item: Item, newId: int -> string)
    requires Valid(b)
    ensures Valid(ItemStep(b, finished, item, newId).blocks)
  {
    match item
    case TextItem(text) => TextValid(b, text);
    case CallItem(call) => ClosingCallValid(b, call);
    case FinishItem(_) => SettleValid(b, newId);
  }

  lemma ItemSeen(header: Header, b: seq<Block>, finished: bool, item: Item, newId: int -> string)
    requires Valid(b)
    ensures FeedAll(View(header, b), ItemStep(b, finished, item, newId).events) ==
            if item.CallItem? && HitsClosed(b, item.call) then Violation
            else View(header, ItemStep(b, finished, item, newId).blocks)
  {
    match item
    case TextItem(text) => TextSeen(header, b, text);
    case CallItem(call) => ClosingCallSeen(header, b, call);
    case FinishItem(_) => SettleSeen(header, b, newId);
  }

  lemma {:induction false} RunValid(b: seq<Block>, finished: bool, items: seq<Item>, newId: int -> string)
    requires Valid(b)
    ensures Valid(Run(b, finished, items, newId).blocks)
    decreases |items|
  {
    hide ItemStep, Valid;
    if items != [] {
      var init := items[..|items| - 1];
      RunValid(b, finished, init, newId);
      ItemStepValid(Run(b, finished, init, newId).blocks, finished || Finished(init), items[|items| - 1], newId);
    }
  }

  /** A client that follows the run sees exactly the announced blocks, and a violation if and
      only if a tool call hits a closed block. */
  lemma {:induction false} RunSeen(header: Header, b: seq<Block>, finished: bool, items: seq<Item>,
      newId: int -> string)
    requires Valid(b)
    ensures FeedAll(View(header, b), Run(b, finished, items, newId).events) ==
            if RunHitsClosed(b, finished, items, newId) then Violation
                else View(header, Run(b, finished, items, newId).blocks)
    decreases |items|
  {
    hide ItemStep, Valid, View, HitsClosed, Feed;
    if items != [] {
      var init := items[..|items| - 1];
      var last := items[|items| - 1];
      var before := Run(b, finished, init, newId);
      var now := ItemStep(before.blocks, finished || Finished(init), last, newId);
      RunSeen(header, b, finished, init, newId);
      RunValid(b, finished, init, newId);
      FeedAppend(View(header, b), before.events, now.events);
      if RunHitsClosed(b, finished, init, newId) {
        ViolationSticks(now.events);
      } else {
        ItemSeen(header, before.blocks, finished || Finished(init), last, newId);
      }
    }
  }
}
