/**
 The OpenAI-to-Anthropic converter as the program keeps it: a mutable state object with a map
 of mutable tool blocks. Every method is proved to do to the ghost block list, and to write,
 exactly what the machine of `StreamConverter` does.
 */
module StreamState {
  import opened Wrappers
  import opened TokenUsage
  import opened StreamProtocol
  import opened StreamConverter
  import opened StreamBracketing
  import opened StreamTheorems

  /** The string builder the events are written to. */
  class EventBuilder {
    var events: seq<Event>

    constructor ()
      ensures events == []
    {
      events := [];
    }

    method Write(e: Event)
      modifies this
      ensures events == old(events) + [e]
    {
      events := events + [e];
    }
  }

  class UsageRecord {
    var inputTokens: int
    var outputTokens: int
    var cacheCreationInputTokens: int
    var cacheReadInputTokens: int

    constructor (u: AnthropicUsage)
      ensures Value() == u
    {
      inputTokens, outputTokens := u.input, u.output;
      cacheCreationInputTokens, cacheReadInputTokens := u.cacheCreation, u.cacheRead;
    }

    function Value(): AnthropicUsage
      reads this
    {
      AnthropicUsage(inputTokens, outputTokens, cacheCreationInputTokens, cacheReadInputTokens)
    }
  }

  function ValueOf(u: UsageRecord?): Option<AnthropicUsage>
    reads u
  {
    if u == null then None else Some(u.Value())
  }

  /** Updates `dst` in place unless there is nothing to update it with, or nothing to update. */
  method MergeAnthropicUsage(dst: UsageRecord?, src: UsageRecord?) returns (r: UsageRecord?)
    requires dst == null || dst != src
    modifies dst
    ensures r == (if dst == null then src else dst)
    ensures ValueOf(r) == Merge(old(ValueOf(dst)), old(ValueOf(src)))
  {
    if src == null { return dst; }
    if dst == null { return src; }
    if src.inputTokens > 0 { dst.inputTokens := src.inputTokens; }
    if src.outputTokens > 0 { dst.outputTokens := src.outputTokens; }
    if src.cacheReadInputTokens > 0 { dst.cacheReadInputTokens := src.cacheReadInputTokens; }
    if src.cacheCreationInputTokens > 0 { dst.cacheCreationInputTokens := src.cacheCreationInputTokens; }
    return dst;
  }

  class ToolBlockState {
    var started: bool
    const anthropicIndex: nat
    var id: string
    var name: string
    var pendingArgs: string
    var open: bool

    constructor (index: nat)
      ensures anthropicIndex == index && !started && !open && id == "" && name == "" && pendingArgs == ""
    {
      started, open, id, name, pendingArgs := false, false, "", "", "";
      anthropicIndex := index;
    }

    /** The stored fields are those of `t`. */
    ghost predicate Holds(t: Tool)
      reads this
    {
      started == t.head.Some? && id == t.id && name == t.name && pendingArgs == t.pending && open == t.open
    }
  }

  // ----- Sorting the indices of the blocks to close -----

  ghost predicate Ascending(s: seq<int>) {
    forall i, j | 0 <= i < j < |s| :: s[i] <= s[j]
  }

  /** Everything before `i` is sorted and no larger than anything from `i` on. */
  ghost predicate Settled(s: seq<int>, i: nat) {
    forall p, q | 0 <= p < i && p < q < |s| :: s[p] <= s[q]
  }

  lemma SwapKeepsSettled(s: seq<int>, i: nat, j: nat)
    requires i < j < |s| && Settled(s, i)
    ensures Settled(s[i := s[j]][j := s[i]], i)
    ensures multiset(s[i := s[j]][j := s[i]]) == multiset(s)
  {
  }

  method SortToolBlockIndices(a: array<int>)
    modifies a
    ensures Ascending(a[..]) && multiset(a[..]) == multiset(old(a[..]))
  {
    var i := 0;
    while i < a.Length
      invariant 0 <= i <= a.Length && Settled(a[..], i) && multiset(a[..]) == multiset(old(a[..]))
    {
      var j := i + 1;
      while j < a.Length
        invariant i < j <= a.Length && Settled(a[..], i) && multiset(a[..]) == multiset(old(a[..]))
        invariant forall q | i < q < j :: a[i] <= a[q]
      {
        if a[j] < a[i] {
          ghost var before := a[..];
          a[i], a[j] := a[j], a[i];
          assert a[..] == before[i := before[j]][j := before[i]];
          SwapKeepsSettled(before, i, j);
        }
        j := j + 1;
      }
      i := i + 1;
    }
  }

  // ----- Which blocks close, and which start late -----

  /** `xs` is the ascending list of the open tool blocks among the first `n`. */
  ghost predicate ListsOpen(xs: seq<int>, b: seq<Block>) {
    && (forall p, q | 0 <= p < q < |xs| :: xs[p] < xs[q])
    && (forall p | 0 <= p < |xs| :: 0 <= xs[p] < |b| && b[xs[p]].ToolBlock? && b[xs[p]].tool.open)
    && (forall i | 0 <= i < |b| && b[i].ToolBlock? && b[i].tool.open :: i in xs)
  }

  function Stops(xs: seq<int>): seq<Event> {
    seq(|xs|, p requires 0 <= p < |xs| => ContentBlockStop(xs[p]))
  }

  lemma CloseOneEvents(t: Block, i: nat)
    ensures CloseOne(t, i).1 == if t.ToolBlock? && t.tool.open then [ContentBlockStop(i)] else []
  {
  }

  /** There is only one ascending list, so the order in which a map is walked does not show. */
  lemma {:induction false} StopsAreCloseTools(xs: seq<int>, b: seq<Block>)
    requires ListsOpen(xs, b)
    ensures Stops(xs) == CloseTools(b).events
    decreases |b|
  {
    hide CloseOne;
    if b == [] {
    } else {
      var n := |b| - 1;
      CloseOneEvents(b[n], n);
      if b[n].ToolBlock? && b[n].tool.open {
        var last := |xs| - 1;
        LastIsOpen(xs, b);
        ListsOpenInit(xs[..last], b[..n], xs, b);
        StopsAreCloseTools(xs[..last], b[..n]);
        assert Stops(xs) == Stops(xs[..last]) + [ContentBlockStop(n)];
      } else {
        ListsOpenInit(xs, b[..n], xs, b);
        StopsAreCloseTools(xs, b[..n]);
      }
    }
  }

  lemma LastIsOpen(xs: seq<int>, b: seq<Block>)
    requires ListsOpen(xs, b) && b != [] && b[|b| - 1].ToolBlock? && b[|b| - 1].tool.open
    ensures xs != [] && xs[|xs| - 1] == |b| - 1
  {
    var p :| 0 <= p < |xs| && xs[p] == |b| - 1;
    assert p == |xs| - 1;
  }

  lemma ListsOpenInit(xs': seq<int>, b': seq<Block>, xs: seq<int>, b: seq<Block>)
    requires ListsOpen(xs, b) && b != [] && b' == b[..|b| - 1]
    requires if b[|b| - 1].ToolBlock? && b[|b| - 1].tool.open
             then xs != [] && xs[|xs| - 1] == |b| - 1 && xs' == xs[..|xs| - 1] else xs' == xs
    ensures ListsOpen(xs', b')
  {
    forall i | 0 <= i < |b'| && b'[i].ToolBlock? && b'[i].tool.open ensures i in xs' {
      assert b'[i] == b[i];
      var p :| 0 <= p < |xs| && xs[p] == i;
      assert p < |xs'| && xs'[p] == i;
    }
  }

  /** A tool block that is announced late, under stand-ins for what is missing. */
  datatype LateTool = LateTool(index: int, id: string, name: string, pending: string) {
    function Events(): seq<Event> {
      [ContentBlockStart(index, ToolUseHead(id, name))] +
      (if pending != "" then [ContentBlockDelta(index, InputJsonDelta(pending))] else [])
    }
  }

  predicate StartsLate(t: Block) { !t.Announced() && !t.tool.Blank() }

  function LateToolOf(b: seq<Block>, i: nat, newId: int -> string): LateTool
    requires i < |b| && StartsLate(b[i])
  {
    var t := b[i].tool;
    LateTool(i, if t.id == "" then newId(t.key) else t.id, if t.name == "" then "unknown_tool" else t.name, t.pending)
  }

  function LateEvents(xs: seq<LateTool>): seq<Event> {
    if xs == [] then [] else LateEvents(xs[..|xs| - 1]) + xs[|xs| - 1].Events()
  }

  ghost predicate LateAt(x: LateTool, b: seq<Block>, newId: int -> string) {
    0 <= x.index < |b| && StartsLate(b[x.index]) && x == LateToolOf(b, x.index, newId)
  }

  ghost predicate ListsLate(xs: seq<LateTool>, b: seq<Block>, newId: int -> string) {
    && (forall p, q | 0 <= p < q < |xs| :: xs[p].index < xs[q].index)
    && (forall p | 0 <= p < |xs| :: LateAt(xs[p], b, newId))
    && (forall i | 0 <= i < |b| && StartsLate(b[i]) :: LateToolOf(b, i, newId) in xs)
  }

  lemma LateOneEvents(b: seq<Block>, i: nat, newId: int -> string)
    requires i < |b|
    ensures LateOne(b[i], i, newId).1 == if StartsLate(b[i]) then LateToolOf(b, i, newId).Events() else []
  {
  }

  lemma {:induction false} LateEventsAreLateStart(xs: seq<LateTool>, b: seq<Block>, newId: int -> string)
    requires ListsLate(xs, b, newId)
    ensures LateEvents(xs) == LateStart(b, newId).events
    decreases |b|
  {
    hide LateOne, StartsLate;
    if b == [] {
    } else {
      var n := |b| - 1;
      LateOneEvents(b, n, newId);
      if StartsLate(b[n]) {
        var last := |xs| - 1;
        LastIsLate(xs, b, newId);
        ListsLateInit(xs[..last], b[..n], xs, b, newId);
        LateEventsAreLateStart(xs[..last], b[..n], newId);
      } else {
        ListsLateInit(xs, b[..n], xs, b, newId);
        LateEventsAreLateStart(xs, b[..n], newId);
      }
    }
  }

  lemma LastIsLate(xs: seq<LateTool>, b: seq<Block>, newId: int -> string)
    requires ListsLate(xs, b, newId) && b != [] && StartsLate(b[|b| - 1])
    ensures xs != [] && xs[|xs| - 1] == LateToolOf(b, |b| - 1, newId)
  {
    var p :| 0 <= p < |xs| && xs[p] == LateToolOf(b, |b| - 1, newId);
    assert LateAt(xs[|xs| - 1], b, newId);
    assert p == |xs| - 1;
  }

  lemma ListsLateInit(xs': seq<LateTool>, b': seq<Block>, xs: seq<LateTool>, b: seq<Block>, newId: int -> string)
    requires ListsLate(xs, b, newId) && b != [] && b' == b[..|b| - 1]
    requires if StartsLate(b[|b| - 1])
             then xs != [] && xs[|xs| - 1].index == |b| - 1 && xs' == xs[..|xs| - 1] else xs' == xs
    ensures ListsLate(xs', b', newId)
  {
    forall p | 0 <= p < |xs'| ensures LateAt(xs'[p], b', newId) {
      assert LateAt(xs[p], b, newId);
    }
    forall i | 0 <= i < |b'| && StartsLate(b'[i]) ensures LateToolOf(b', i, newId) in xs' {
      assert b'[i] == b[i];
      var p :| 0 <= p < |xs| && xs[p] == LateToolOf(b, i, newId);
      assert p < |xs'| && xs'[p] == xs[p];
    }
  }

  // Sorting by index, as the library does it.

  function Insert(x: LateTool, xs: seq<LateTool>): (r: seq<LateTool>)
    ensures multiset(r) == multiset(xs) + multiset{x}
  {
    if xs == [] then [x]
    else if x.index <= xs[0].index then [x] + xs
    else
      assert xs == [xs[0]] + xs[1..];
      [xs[0]] + Insert(x, xs[1..])
  }

  function SortByIndex(xs: seq<LateTool>): (r: seq<LateTool>)
    ensures multiset(r) == multiset(xs)
  {
    if xs == [] then []
    else
      assert xs == [xs[0]] + xs[1..];
      Insert(xs[0], SortByIndex(xs[1..]))
  }

  ghost predicate ByIndex(xs: seq<LateTool>) {
    forall p, q | 0 <= p < q < |xs| :: xs[p].index <= xs[q].index
  }

  lemma {:induction false} InsertSorts(x: LateTool, xs: seq<LateTool>)
    requires ByIndex(xs)
    ensures ByIndex(Insert(x, xs))
    decreases |xs|
  {
    if xs != [] && x.index > xs[0].index {
      InsertSorts(x, xs[1..]);
      var rest := Insert(x, xs[1..]);
      forall q | 0 <= q < |rest| ensures xs[0].index <= rest[q].index {
        assert rest[q] in multiset(rest);
        assert rest[q] == x || rest[q] in xs[1..];
      }
    }
  }

  lemma {:induction false} SortByIndexSorts(xs: seq<LateTool>)
    ensures ByIndex(SortByIndex(xs))
    decreases |xs|
  {
    if xs != [] {
      SortByIndexSorts(xs[1..]);
      InsertSorts(xs[0], SortByIndex(xs[1..]));
    }
  }

  /** Equal elements at two places count twice. */
  lemma TwiceCounts<T>(s: seq<T>, p: nat, q: nat)
    requires p < q < |s| && s[p] == s[q]
    ensures multiset(s)[s[q]] >= 2
  {
    assert s == s[..q] + s[q..];
    assert s[..q][p] == s[q] && s[q..][0] == s[q];
  }

  // ----- The converter state -----

  class OpenAIToAnthropicState {
    var messageStarted: bool
    var messageId: string
    var model: string
    var nextBlockIndex: nat
    var openTextBlock: bool
    var textBlockIndex: nat
    var toolBlocks: map<int, ToolBlockState>
    var pendingStopReason: Option<string>
    var pendingUsage: UsageRecord?
    var messageDeltaEmitted: bool
    ghost var blocks: seq<Block>  // every block that has been given an index

    ghost function Repr(): set<object>
      reads this
    {
      {this} + toolBlocks.Values + (if pendingUsage == null then {} else {pendingUsage})
    }

    /** The tool block of `key` is the block at its index. */
    ghost predicate Linked(key: int)
      reads `toolBlocks, `blocks, toolBlocks.Values
    {
      && key in toolBlocks
      && toolBlocks[key].anthropicIndex < |blocks|
      && blocks[toolBlocks[key].anthropicIndex].Serves(key)
      && toolBlocks[key].Holds(blocks[toolBlocks[key].anthropicIndex].tool)
    }

    ghost predicate Valid()
      reads `nextBlockIndex, `openTextBlock, `textBlockIndex, `toolBlocks, `blocks, toolBlocks.Values
    {
      && nextBlockIndex == |blocks|
      && StreamBracketing.Valid(blocks)
      && (openTextBlock <==> TextOpen(blocks))
      && (openTextBlock ==> textBlockIndex == |blocks| - 1)
      && (forall key | key in toolBlocks :: Linked(key))
      && (forall i | 0 <= i < |blocks| && blocks[i].ToolBlock? ::
            blocks[i].tool.key in toolBlocks && toolBlocks[blocks[i].tool.key].anthropicIndex == i)
    }

    /** The state as the machine of `StreamConverter` has it. */
    ghost function Model(): State
      reads this, pendingUsage
    {
      State(messageStarted, messageId, model, blocks, pendingStopReason, ValueOf(pendingUsage), messageDeltaEmitted)
    }

    constructor ()
      ensures Valid() && fresh(Repr()) && Model() == INITIAL
    {
      messageStarted, messageId, model := false, "", "";
      nextBlockIndex, openTextBlock, textBlockIndex := 0, false, 0;
      toolBlocks := map[];
      pendingStopReason, pendingUsage, messageDeltaEmitted := None, null, false;
      blocks := [];
    }

    method CloseOpenTextBlock(sb: EventBuilder)
      requires Valid()
      modifies this`openTextBlock, this`blocks, sb
      ensures Valid() && !openTextBlock
      ensures blocks == CloseText(old(blocks)).blocks
      ensures sb.events == old(sb.events) + CloseText(old(blocks)).events
    {
      if !openTextBlock { return; }
      sb.Write(ContentBlockStop(textBlockIndex));
      openTextBlock := false;
      CloseTextValid(blocks);
      blocks := CloseText(blocks).blocks;
    }

    method GetOrCreateToolBlock(toolIdx: int) returns (tb: ToolBlockState)
      requires Valid() && !openTextBlock
      modifies this`nextBlockIndex, this`toolBlocks, this`blocks
      ensures Valid() && !openTextBlock
      ensures toolIdx in toolBlocks && toolBlocks[toolIdx] == tb
      ensures blocks == WithTool(old(blocks), toolIdx)
      ensures tb.anthropicIndex == Find(old(blocks), toolIdx)
      ensures forall key | key in old(toolBlocks) :: key in toolBlocks && toolBlocks[key] == old(toolBlocks[key])
      ensures toolIdx in old(toolBlocks) ==> toolBlocks == old(toolBlocks)
      ensures toolIdx !in old(toolBlocks) ==> fresh(tb) && toolBlocks == old(toolBlocks)[toolIdx := tb]
    {
      if toolIdx in toolBlocks {
        FindUnique(blocks, toolBlocks[toolIdx].anthropicIndex);
        return toolBlocks[toolIdx];
      }
      WithToolValid(blocks, toolIdx);
      assert Find(blocks, toolIdx) == |blocks|;
      tb := new ToolBlockState(nextBlockIndex);
      nextBlockIndex := nextBlockIndex + 1;
      toolBlocks := toolBlocks[toolIdx := tb];
      blocks := blocks + [ToolBlock(NewTool(toolIdx))];
    }

    /** Announces the tool block and sends what was held back. */
    static method StartToolBlock(sb: EventBuilder, tb: ToolBlockState, ghost t: Tool)
      requires tb.Holds(t)
      modifies sb, tb
      ensures tb.Holds(Announce(t, tb.anthropicIndex, t.id, t.name).0)
      ensures sb.events == old(sb.events) + Announce(t, tb.anthropicIndex, t.id, t.name).1
    {
      tb.started := true;
      tb.open := true;
      sb.Write(ContentBlockStart(tb.anthropicIndex, ToolUseHead(tb.id, tb.name)));
      if tb.pendingArgs != "" {
        sb.Write(ContentBlockDelta(tb.anthropicIndex, InputJsonDelta(tb.pendingArgs)));
        tb.pendingArgs := "";
      }
    }

    /** One tool call of a delta applied to its tool block. */
    static method ApplyToolCall(sb: EventBuilder, tb: ToolBlockState, tc: ToolCall, ghost t: Tool)
      requires tb.Holds(t)
      modifies sb, tb
      ensures tb.Holds(CallTool(t, tb.anthropicIndex, tc).0)
      ensures sb.events == old(sb.events) + CallTool(t, tb.anthropicIndex, tc).1
    {
      if tc.id != "" { tb.id := tc.id; }
      if tc.name != "" { tb.name := tc.name; }
      ghost var known := Learn(t, tc);
      if !tb.started && tb.id != "" && tb.name != "" {
        StartToolBlock(sb, tb, known);
      }
      ghost var started := Start(known, tb.anthropicIndex).0;
      if tc.arguments != "" {
        if tb.started {
          sb.Write(ContentBlockDelta(tb.anthropicIndex, InputJsonDelta(tc.arguments)));
        } else {
          tb.pendingArgs := tb.pendingArgs + tc.arguments;
        }
      }
      assert tb.Holds(Argue(started, tb.anthropicIndex, tc.arguments).0);
    }

    /** Different tool calls have different blocks and different block objects. */
    lemma Unshared(key: int, other: int)
      requires Valid() && key in toolBlocks && other in toolBlocks && key != other
      ensures toolBlocks[key] != toolBlocks[other]
      ensures toolBlocks[key].anthropicIndex != toolBlocks[other].anthropicIndex
    {
      assert Linked(key) && Linked(other);
    }

    method ProcessOpenAIToolCallDeltas(sb: EventBuilder, toolCalls: seq<ToolCall>)
      requires Valid() && toolCalls != []
      modifies this`openTextBlock, this`nextBlockIndex, this`toolBlocks, this`blocks, toolBlocks.Values, sb
      ensures Valid() && fresh(toolBlocks.Values - old(toolBlocks.Values))
      ensures var closed := CloseText(old(blocks));
        var run := CallsRun(closed.blocks, toolCalls);
        blocks == run.blocks && sb.events == old(sb.events) + closed.events + run.events
    {
      hide Call, CloseText, CallsRun, StreamBracketing.Valid, TextOpen;
      CloseOpenTextBlock(sb);
      ghost var b0, e0 := blocks, sb.events;
      var i := 0;
      CallsRunNone(b0);
      assert toolCalls[..0] == [];
      while i < |toolCalls|
        invariant 0 <= i <= |toolCalls| && Valid() && !openTextBlock
        invariant fresh(toolBlocks.Values - old(toolBlocks.Values))
        invariant blocks == CallsRun(b0, toolCalls[..i]).blocks
        invariant sb.events == e0 + CallsRun(b0, toolCalls[..i]).events
      {
        var tc := toolCalls[i];
        ProcessToolCall(sb, tc);
        CallsRunSnoc(b0, toolCalls[..i], tc);
        assert toolCalls[..i + 1] == toolCalls[..i] + [tc];
        i := i + 1;
      }
      assert toolCalls[..|toolCalls|] == toolCalls;
    }

    method ProcessToolCall(sb: EventBuilder, tc: ToolCall)
      requires Valid() && !openTextBlock
      modifies this`nextBlockIndex, this`toolBlocks, this`blocks, toolBlocks.Values, sb
      ensures Valid() && !openTextBlock && fresh(toolBlocks.Values - old(toolBlocks.Values))
      ensures blocks == Call(old(blocks), tc).blocks
      ensures sb.events == old(sb.events) + Call(old(blocks), tc).events
    {
      hide CallTool, StreamBracketing.Valid;
      ghost var b0 := blocks;
      var toolIdx := tc.Key();
      var tb := GetOrCreateToolBlock(toolIdx);
      ghost var i := tb.anthropicIndex;
      assert Linked(toolIdx);
      forall key | key in toolBlocks && key != toolIdx
        ensures toolBlocks[key] != tb && toolBlocks[key].anthropicIndex != i && Linked(key)
      {
        Unshared(toolIdx, key);
      }
      ghost var t := blocks[i].tool;
      ApplyToolCall(sb, tb, tc, t);
      CallIsValid(b0, tc);
      blocks := blocks[i := ToolBlock(CallTool(t, i, tc).0)];
      CallToolKey(t, i, tc);
      forall key | key in toolBlocks ensures Linked(key) {
      }
    }

    /** The tool block of `key` is at its index in the ghost list, whatever its fields hold. */
    ghost predicate Placed(key: int)
      reads `toolBlocks, `blocks, toolBlocks.Values
    {
      && key in toolBlocks
      && toolBlocks[key].anthropicIndex < |blocks|
      && blocks[toolBlocks[key].anthropicIndex].Serves(key)
    }

    /** The keys of the map are the keys of the list. */
    ghost predicate AllPlaced()
      reads `toolBlocks, `blocks, toolBlocks.Values
    {
      && (forall key | key in toolBlocks :: Placed(key))
      && (forall i | 0 <= i < |blocks| && blocks[i].ToolBlock? ::
            blocks[i].tool.key in toolBlocks && toolBlocks[blocks[i].tool.key].anthropicIndex == i)
    }

    /** Closes the open tool blocks, taking the map in any order. */
    method CollectOpen() returns (indices: seq<int>)
      requires AllPlaced() && forall key | key in toolBlocks :: Linked(key)
      modifies toolBlocks.Values
      ensures OpenOnes(indices, blocks, {})
      ensures forall key | key in toolBlocks ::
        toolBlocks[key].Holds(CloseOne(blocks[toolBlocks[key].anthropicIndex], 0).0.tool)
    {
      hide OpenOnes;
      indices := [];
      OpenOnesNone(blocks, toolBlocks.Keys);
      var rest := toolBlocks.Keys;
      while rest != {}
        invariant rest <= toolBlocks.Keys && OpenOnes(indices, blocks, rest)
        invariant forall key | key in toolBlocks && key in rest :: Linked(key)
        invariant forall key | key in toolBlocks && key !in rest ::
          toolBlocks[key].Holds(CloseOne(blocks[toolBlocks[key].anthropicIndex], 0).0.tool)
      {
        HasMember(rest);
        var key :| key in rest;
        var tb := toolBlocks[key];
        assert Placed(key) && Linked(key);
        forall other | other in toolBlocks && other != key ensures toolBlocks[other] != tb {
          assert Placed(other);
        }
        if tb.open {
          OpenOnesAdd(indices, blocks, rest, key, tb.anthropicIndex);
          indices := indices + [tb.anthropicIndex];
          tb.open := false;
        } else {
          OpenOnesSkip(indices, blocks, rest, key, tb.anthropicIndex);
        }
        rest := rest - {key};
      }
    }

    /** The state after the open tool blocks are closed, and their indices in any order. */
    method TakeOpen() returns (indices: seq<int>)
      requires Valid()
      modifies this`blocks, toolBlocks.Values
      ensures Valid()
      ensures blocks == CloseTools(old(blocks)).blocks
      ensures OpenOnes(indices, old(blocks), {})
    {
      hide StreamBracketing.Valid, TextOpen, CloseTools, CloseOne, OpenOnes;
      forall key | key in toolBlocks ensures Placed(key) {
        assert Linked(key);
      }
      ghost var b0 := blocks;
      indices := CollectOpen();
      CloseToolsPlaces(b0);
      forall key | key in toolBlocks ensures Placed(key) {
      }
      blocks := CloseTools(b0).blocks;
      forall key | key in toolBlocks ensures Linked(key) {
      }
    }

    /** The open tool blocks are closed in any order and reported in ascending order. */
    method CloseOpenToolBlocks(sb: EventBuilder)
      requires Valid()
      modifies this`blocks, toolBlocks.Values, sb
      ensures Valid()
      ensures blocks == CloseTools(old(blocks)).blocks
      ensures sb.events == old(sb.events) + CloseTools(old(blocks)).events
    {
      hide Valid, CloseTools, OpenOnes, ListsOpen, Stops, Ascending;
      ghost var b0 := blocks;
      var indices := TakeOpen();
      var a := new int[|indices|](i requires 0 <= i < |indices| => indices[i]);
      assert a[..] == indices;
      SortToolBlockIndices(a);
      SortedListsOpen(indices, a[..], b0);
      StopsAreCloseTools(a[..], b0);
      WriteStops(sb, a);
    }

    /** Fills in what is missing and marks the tool block as announced. */
    static method AnnounceLate(tb: ToolBlockState, key: int, newId: int -> string, ghost b: seq<Block>, ghost i: nat)
      returns (late: LateTool)
      requires i < |b| && StartsLate(b[i]) && tb.Holds(b[i].tool) && b[i].tool.key == key && tb.anthropicIndex == i
      modifies tb
      ensures tb.Holds(AfterLate(b[i].tool, newId)) && late == LateToolOf(b, i, newId)
    {
      var id := if tb.id == "" then newId(key) else tb.id;
      var name := if tb.name == "" then "unknown_tool" else tb.name;
      tb.started := true;
      tb.open := true;
      late := LateTool(tb.anthropicIndex, id, name, tb.pendingArgs);
      tb.id := id;
      tb.name := name;
      tb.pendingArgs := "";
    }

    /** What is announced already, or said nothing, is left alone. */
    lemma LeftAlone(tb: ToolBlockState, t: Tool, newId: int -> string)
      requires tb.Holds(t) && (tb.started || (tb.pendingArgs == "" && tb.id == "" && tb.name == ""))
      ensures !StartsLate(ToolBlock(t)) && tb.Holds(AfterLate(t, newId))
    {
    }

    lemma NotLeftAlone(tb: ToolBlockState, t: Tool)
      requires tb.Holds(t) && !tb.started && !(tb.pendingArgs == "" && tb.id == "" && tb.name == "")
      ensures StartsLate(ToolBlock(t))
    {
    }

    /** Announces the tool blocks that said something but could not be announced so far. */
    method CollectLate(newId: int -> string) returns (starts: seq<LateTool>)
      requires AllPlaced() && forall key | key in toolBlocks :: Linked(key)
      modifies toolBlocks.Values
      ensures LateOnes(starts, blocks, {}, newId)
      ensures forall key | key in toolBlocks ::
        toolBlocks[key].Holds(AfterLate(blocks[toolBlocks[key].anthropicIndex].tool, newId))
    {
      hide LateOnes, AfterLate, StartsLate, LateToolOf, ToolBlockState.Holds;
      starts := [];
      LateOnesNone(blocks, toolBlocks.Keys, newId);
      var rest := toolBlocks.Keys;
      while rest != {}
        invariant rest <= toolBlocks.Keys && LateOnes(starts, blocks, rest, newId)
        invariant forall key | key in toolBlocks && key in rest :: Linked(key)
        invariant forall key | key in toolBlocks && key !in rest ::
          toolBlocks[key].Holds(AfterLate(blocks[toolBlocks[key].anthropicIndex].tool, newId))
      {
        HasMember(rest);
        var key :| key in rest;
        var tb := toolBlocks[key];
        assert Placed(key) && Linked(key);
        forall other | other in toolBlocks && other != key ensures toolBlocks[other] != tb {
          assert Placed(other);
        }
        if !tb.started && !(tb.pendingArgs == "" && tb.id == "" && tb.name == "") {
          NotLeftAlone(tb, blocks[tb.anthropicIndex].tool);
          LateOnesAdd(starts, blocks, rest, key, tb.anthropicIndex, newId);
          var late := AnnounceLate(tb, key, newId, blocks, tb.anthropicIndex);
          starts := starts + [late];
        } else {
          LeftAlone(tb, blocks[tb.anthropicIndex].tool, newId);
          LateOnesSkip(starts, blocks, rest, key, tb.anthropicIndex, newId);
        }
        rest := rest - {key};
      }
    }

    method TakeLate(newId: int -> string) returns (starts: seq<LateTool>)
      requires Valid()
      modifies this`blocks, toolBlocks.Values
      ensures Valid()
      ensures blocks == LateStart(old(blocks), newId).blocks
      ensures LateOnes(starts, old(blocks), {}, newId)
    {
      hide StreamBracketing.Valid, TextOpen, LateStart, LateOnes, AfterLate;
      forall key | key in toolBlocks ensures Placed(key) {
        assert Linked(key);
      }
      ghost var b0 := blocks;
      starts := CollectLate(newId);
      LateStartPlaces(b0, newId);
      forall key | key in toolBlocks ensures Placed(key) {
      }
      blocks := LateStart(b0, newId).blocks;
      forall key | key in toolBlocks ensures Linked(key) {
      }
    }

    /** Late announcements are collected in any order and sent in ascending order. */
    method LateStartPendingToolBlocks(sb: EventBuilder, newId: int -> string)
      requires Valid()
      modifies this`blocks, toolBlocks.Values, sb
      ensures Valid()
      ensures blocks == LateStart(old(blocks), newId).blocks
      ensures sb.events == old(sb.events) + LateStart(old(blocks), newId).events
    {
      hide Valid, LateStart, LateOnes, ListsLate, LateEvents, ByIndex;
      ghost var b0 := blocks;
      var starts := TakeLate(newId);
      var sorted := SortByIndex(starts);
      SortByIndexSorts(starts);
      SortedListsLate(starts, sorted, b0, newId);
      LateEventsAreLateStart(sorted, b0, newId);
      WriteLate(sb, sorted);
    }

    // ----- Chunks -----

    method WriteMessageStart(sb: EventBuilder)
      modifies sb
      ensures sb.events == old(sb.events) + StartHeader(Model())
    {
      var usage := if pendingUsage == null then NO_USAGE else pendingUsage.Value();
      sb.Write(MessageStart(messageId, model, Some(usage)));
      sb.Write(Ping);
    }

    method MergeUsage(usage: Option<OpenAiUsage>)
      requires Valid()
      modifies this`pendingUsage, pendingUsage
      ensures Valid()
      ensures pendingUsage == old(pendingUsage) || (pendingUsage != null && fresh(pendingUsage))
      ensures ValueOf(pendingUsage) ==
              Merge(old(ValueOf(pendingUsage)), if usage.Some? then Some(ToAnthropic(usage.value)) else None)
    {
      if usage.Some? {
        var report := new UsageRecord(ToAnthropic(usage.value));
        pendingUsage := MergeAnthropicUsage(pendingUsage, report);
      }
    }

    method StartMessage(sb: EventBuilder, chunk: Chunk, isFirst: bool)
      modifies this`messageStarted, this`messageId, this`model, sb
      ensures Model() == StreamConverter.StartMessage(old(Model()), chunk, isFirst).0
      ensures sb.events == old(sb.events) + StreamConverter.StartMessage(old(Model()), chunk, isFirst).1
    {
      if !messageStarted && (isFirst || chunk.id != "" || chunk.choices != []) {
        if chunk.id != "" { messageId := chunk.id; }
        if chunk.model != "" { model := chunk.model; }
        WriteMessageStart(sb);
        messageStarted := true;
      }
    }

    method AppendText(sb: EventBuilder, text: string)
      requires Valid() && text != ""
      modifies this`textBlockIndex, this`nextBlockIndex, this`openTextBlock, this`blocks, sb
      ensures Valid()
      ensures blocks == Text(old(blocks), text).blocks
      ensures sb.events == old(sb.events) + Text(old(blocks), text).events
    {
      hide StreamBracketing.Valid;
      TextValid(blocks, text);
      if !openTextBlock {
        textBlockIndex := nextBlockIndex;
        nextBlockIndex := nextBlockIndex + 1;
        openTextBlock := true;
        sb.Write(ContentBlockStart(textBlockIndex, TextHead));
      }
      sb.Write(ContentBlockDelta(textBlockIndex, TextDelta(text)));
      blocks := Text(blocks, text).blocks;
    }

    method ApplyDelta(sb: EventBuilder, delta: Option<Delta>, ghost finished: bool, newId: int -> string)
      requires Valid()
      modifies this`textBlockIndex, this`nextBlockIndex, this`openTextBlock, this`blocks, this`toolBlocks,
          toolBlocks.Values, sb
      ensures Valid() && fresh(toolBlocks.Values - old(toolBlocks.Values))
      ensures blocks == Run(old(blocks), finished, DeltaItems(delta), newId).blocks
      ensures sb.events == old(sb.events) + Run(old(blocks), finished, DeltaItems(delta), newId).events
    {
      hide Valid, Run, Text, CloseText, CallsRun, DeltaItems, StreamBracketing.Valid;
      ghost var b0 := blocks;
      ValidHolds();
      RunDelta(b0, finished, delta, newId);
      if delta.Some? {
        if delta.value.content != "" {
          AppendText(sb, delta.value.content);
        }
        if delta.value.toolCalls != [] {
          ProcessOpenAIToolCallDeltas(sb, delta.value.toolCalls);
        }
      }
    }

    lemma ValidHolds()
      requires Valid()
      ensures StreamBracketing.Valid(blocks)
    {
    }

    /** Everything is closed: at the first finish reason and at the end of the stream. */
    method CloseAll(sb: EventBuilder, newId: int -> string)
      requires Valid()
      modifies this`openTextBlock, this`blocks, toolBlocks.Values, sb
      ensures Valid()
      ensures blocks == Settle(old(blocks), newId).blocks
      ensures sb.events == old(sb.events) + Settle(old(blocks), newId).events
    {
      hide Valid, CloseText, LateStart, CloseTools;
      CloseOpenTextBlock(sb);
      LateStartPendingToolBlocks(sb, newId);
      CloseOpenToolBlocks(sb);
    }

    method ApplyFinish(sb: EventBuilder, finish: Option<string>, newId: int -> string)
      requires Valid()
      modifies this`openTextBlock, this`blocks, this`pendingStopReason, toolBlocks.Values, sb
      ensures Valid()
      ensures var items := if finish.Some? then [FinishItem(finish.value)] else [];
        var run := Run(old(blocks), old(pendingStopReason).Some?, items, newId);
        && blocks == run.blocks && sb.events == old(sb.events) + run.events
        && pendingStopReason == StopAfter(old(pendingStopReason), items)
    {
      hide Settle;
      if finish.Some? {
        RunOne(blocks, pendingStopReason.Some?, FinishItem(finish.value), newId);
        StopAfterOne(pendingStopReason, FinishItem(finish.value));
        if pendingStopReason.None? {
          CloseAll(sb, newId);
          pendingStopReason := Some(AnthropicStopReason(finish.value));
        }
      }
    }

    /** The first choice of a chunk: its delta, then its finish reason. */
    method ApplyChoice(sb: EventBuilder, choice: Choice, newId: int -> string)
      requires Valid()
      modifies this`textBlockIndex, this`nextBlockIndex, this`openTextBlock, this`blocks, this`toolBlocks,
               this`pendingStopReason, toolBlocks.Values, sb
      ensures Valid() && fresh(toolBlocks.Values - old(toolBlocks.Values))
      ensures var run := Run(old(blocks), old(pendingStopReason).Some?, ChoiceItems(choice), newId);
        && blocks == run.blocks && sb.events == old(sb.events) + run.events
        && pendingStopReason == StopAfter(old(pendingStopReason), ChoiceItems(choice))
    {
      hide Valid, Run, DeltaItems, StopAfter, ChoiceItems;
      ChoiceRun(blocks, pendingStopReason, choice, newId);
      ghost var finished := pendingStopReason.Some?;
      ApplyDelta(sb, choice.delta, finished, newId);
      ApplyFinish(sb, choice.finishReason, newId);
    }

    /** Usage first, then the start of the message. */
    method PrepareChunk(sb: EventBuilder, chunk: Chunk, isFirst: bool)
      requires Valid()
      modifies this`messageStarted, this`messageId, this`model, this`pendingUsage, pendingUsage, sb
      ensures Valid()
      ensures pendingUsage == old(pendingUsage) || (pendingUsage != null && fresh(pendingUsage))
      ensures Model() == Prepare(old(Model()), chunk, isFirst).0
      ensures sb.events == old(sb.events) + Prepare(old(Model()), chunk, isFirst).1
    {
      hide Valid, StreamConverter.StartMessage, UsageRecord.Value, Merge, ToAnthropic;
      MergeUsage(chunk.usage);
      StartMessage(sb, chunk, isFirst);
    }

    method OpenAIChunkToAnthropicEvents(chunk: Chunk, isFirst: bool, newId: int -> string) returns (events: seq<Event>)
      requires Valid()
      modifies this, toolBlocks.Values, pendingUsage
      ensures Valid() && fresh(toolBlocks.Values - old(toolBlocks.Values))
      ensures pendingUsage == old(pendingUsage) || (pendingUsage != null && fresh(pendingUsage))
      ensures (Model(), events) == ChunkStep(old(Model()), chunk, isFirst, newId)
    {
      hide Valid, Run, StopAfter, Prepare, UsageRecord.Value, ChoiceItems;
      var sb := new EventBuilder();
      PrepareChunk(sb, chunk, isFirst);
      ghost var header := sb.events;
      assert header == Prepare(old(Model()), chunk, isFirst).1;
      if chunk.choices == [] {
        RunNone(blocks, pendingStopReason.Some?, newId);
        StopAfterNone(pendingStopReason);
        assert header + [] == header;
      } else {
        ApplyChoice(sb, chunk.choices[0], newId);
      }
      events := sb.events;
    }

    method WriteTrailer(sb: EventBuilder)
      modifies sb
      ensures sb.events == old(sb.events) + Trailer(pendingStopReason, ValueOf(pendingUsage))
    {
      var stopReason := pendingStopReason.GetOr("end_turn");
      var usage := if pendingUsage == null then NO_USAGE else pendingUsage.Value();
      sb.Write(MessageDelta(Some(stopReason), Some(usage)));
      sb.Write(MessageStop);
    }

    method EmitEnd(sb: EventBuilder, newId: int -> string)
      requires Valid()
      modifies this`openTextBlock, this`blocks, this`messageDeltaEmitted, toolBlocks.Values, sb
      ensures Valid() && messageDeltaEmitted
      ensures blocks == Settle(old(blocks), newId).blocks
      ensures sb.events == old(sb.events) + Settle(old(blocks), newId).events +
          Trailer(pendingStopReason, ValueOf(pendingUsage))
    {
      hide Valid, Settle, Trailer, ValueOf;
      CloseAll(sb, newId);
      WriteTrailer(sb);
      messageDeltaEmitted := true;
    }

    method OpenAIStreamFinalize(newId: int -> string) returns (events: seq<Event>)
      requires Valid()
      modifies this`openTextBlock, this`blocks, this`messageDeltaEmitted, toolBlocks.Values
      ensures Valid()
      ensures (Model(), events) == Finalize(old(Model()), newId)
    {
      hide Valid, Settle, Trailer, UsageRecord.Value;
      events := [];
      if !messageDeltaEmitted {
        var sb := new EventBuilder();
        EmitEnd(sb, newId);
        events := sb.events;
        assert events == Settle(old(blocks), newId).events + Trailer(pendingStopReason, ValueOf(pendingUsage));
      }
    }
  }

  // ----- The machine's runs, piece by piece -----

  lemma RunNone(b: seq<Block>, finished: bool, newId: int -> string)
    ensures Run(b, finished, [], newId) == Step(b, [])
  {
  }

  lemma StopAfterNone(stop: Option<string>)
    ensures StopAfter(stop, []) == stop
  {
  }

  lemma RunOne(b: seq<Block>, finished: bool, item: Item, newId: int -> string)
    ensures Run(b, finished, [item], newId) == ItemStep(b, finished, item, newId)
  {
    hide ItemStep;
    assert [] + [item] == [item];
    RunSnoc(b, finished, [], item, newId);
  }

  lemma StopAfterOne(stop: Option<string>, item: Item)
    ensures StopAfter(stop, [item]) == if stop.None? && item.FinishItem? then Some(AnthropicStopReason(item.reason))
        else stop
  {
    assert [item][..0] == [];
  }

  lemma NoFinish(items: seq<Item>, stop: Option<string>)
    requires forall i | 0 <= i < |items| :: !items[i].FinishItem?
    ensures StopAfter(stop, items) == stop && !Finished(items)
  {
    if items != [] {
      NoFinish(items[..|items| - 1], stop);
    }
  }

  lemma {:induction false} CallsRunIsRun(b: seq<Block>, finished: bool, calls: seq<ToolCall>, newId: int -> string)
    requires StreamBracketing.Valid(b) && calls != []
    ensures var closed := CloseText(b);
      var run := CallsRun(closed.blocks, calls);
      && Run(b, finished, Calls(calls), newId) == Step(run.blocks, closed.events + run.events)
      && StreamBracketing.Valid(run.blocks) && !TextOpen(run.blocks)
    decreases |calls|
  {
    hide Run, Call, CloseText, StreamBracketing.Valid, TextOpen, ItemStep;
    var n := |calls| - 1;
    var init, call := calls[..n], calls[n];
    var closed := CloseText(b);
    CloseTextValid(b);
    assert Calls(calls) == Calls(init) + [CallItem(call)];
    RunSnoc(b, finished, Calls(init), CallItem(call), newId);
    assert CallsRun(closed.blocks, calls).blocks == Call(CallsRun(closed.blocks, init).blocks, call).blocks;
    if n == 0 {
      assert Calls(init) == [];
      RunNone(b, finished, newId);
      CallItemStep(b, finished || Finished(Calls(init)), call, newId);
      CallValid(closed.blocks, call);
    } else {
      CallsRunIsRun(b, finished, init, newId);
      var p := CallsRun(closed.blocks, init);
      CallItemStep(p.blocks, finished || Finished(Calls(init)), call, newId);
      NothingToClose(p.blocks);
      CallValid(p.blocks, call);
      var now := Call(p.blocks, call);
      assert [] + now.events == now.events;
      assert (closed.events + p.events) + now.events == closed.events + (p.events + now.events);
    }
  }

  lemma CallItemStep(b: seq<Block>, finished: bool, call: ToolCall, newId: int -> string)
    ensures var closed := CloseText(b);
      var now := Call(closed.blocks, call);
      ItemStep(b, finished, CallItem(call), newId) == Step(now.blocks, closed.events + now.events)
  {
  }

  lemma NothingToClose(b: seq<Block>)
    requires !TextOpen(b)
    ensures CloseText(b) == Step(b, [])
  {
  }

  /** A delta: its text, then its tool calls. */
  lemma RunDelta(b: seq<Block>, finished: bool, delta: Option<Delta>, newId: int -> string)
    requires StreamBracketing.Valid(b)
    ensures var s1 := if delta.Some? && delta.value.content != "" then Text(b, delta.value.content) else Step(b, []);
      var closed := CloseText(s1.blocks);
      var s2 := if delta.Some? && delta.value.toolCalls != [] then
          var run := CallsRun(closed.blocks, delta.value.toolCalls); Step(run.blocks, closed.events + run.events)
        else Step(s1.blocks, []);
      Run(b, finished, DeltaItems(delta), newId) == Step(s2.blocks, s1.events + s2.events)
  {
    hide Run, CloseText, CallsRun, StreamBracketing.Valid, ItemStep, Finished;
    RunNone(b, finished, newId);
    if delta.Some? {
      var text := if delta.value.content != "" then [TextItem(delta.value.content)] else [];
      var calls := Calls(delta.value.toolCalls);
      NoFinish(text, None);
      RunAppend(b, finished, text, calls, newId);
      if delta.value.content != "" {
        RunOne(b, finished, text[0], newId);
        TextItemStep(b, finished, delta.value.content, newId);
        TextValid(b, delta.value.content);
      }
      var s1 := Run(b, finished, text, newId);
      if delta.value.toolCalls != [] {
        CallsRunIsRun(s1.blocks, finished, delta.value.toolCalls, newId);
      } else {
        assert calls == [];
        RunNone(s1.blocks, finished, newId);
      }
    }
  }

  lemma TextItemStep(b: seq<Block>, finished: bool, text: string, newId: int -> string)
    ensures ItemStep(b, finished, TextItem(text), newId) == Text(b, text)
  {
  }

  /** A choice: its delta, then its finish reason. */
  lemma ChoiceRun(b: seq<Block>, stop: Option<string>, choice: Choice, newId: int -> string)
    ensures var p := Run(b, stop.Some?, DeltaItems(choice.delta), newId);
      var items := if choice.finishReason.Some? then [FinishItem(choice.finishReason.value)] else [];
      var q := Run(p.blocks, stop.Some?, items, newId);
      && Run(b, stop.Some?, ChoiceItems(choice), newId) == Step(q.blocks, p.events + q.events)
      && StopAfter(stop, ChoiceItems(choice)) == StopAfter(stop, items)
  {
    hide Run, StopAfter;
    var items := if choice.finishReason.Some? then [FinishItem(choice.finishReason.value)] else [];
    NoFinish(DeltaItems(choice.delta), stop);
    RunAppend(b, stop.Some?, DeltaItems(choice.delta), items, newId);
    StopAfterAppend(stop, DeltaItems(choice.delta), items);
  }

  method WriteLate(sb: EventBuilder, starts: seq<LateTool>)
    modifies sb
    ensures sb.events == old(sb.events) + LateEvents(starts)
  {
    var i := 0;
    while i < |starts|
      invariant 0 <= i <= |starts| && sb.events == old(sb.events) + LateEvents(starts[..i])
    {
      var s := starts[i];
      sb.Write(ContentBlockStart(s.index, ToolUseHead(s.id, s.name)));
      if s.pending != "" {
        sb.Write(ContentBlockDelta(s.index, InputJsonDelta(s.pending)));
      }
      assert starts[..i + 1][..i] == starts[..i];
      i := i + 1;
    }
    assert starts[..|starts|] == starts;
  }

  /** The tool after late starting, which may leave it as it is. */
  function AfterLate(t: Tool, newId: int -> string): Tool {
    LateOne(ToolBlock(t), 0, newId).0.tool
  }

  /** `xs` holds the late announcements for keys not in `rest`, each once. */
  ghost predicate LateOnes(xs: seq<LateTool>, b: seq<Block>, rest: set<int>, newId: int -> string) {
    && (forall x: LateTool :: multiset(xs)[x] <= 1)
    && (forall p | 0 <= p < |xs| :: LateAt(xs[p], b, newId) && b[xs[p].index].tool.key !in rest)
    && (forall i | 0 <= i < |b| && StartsLate(b[i]) && b[i].tool.key !in rest :: LateToolOf(b, i, newId) in xs)
  }

  lemma LateOnesNone(b: seq<Block>, rest: set<int>, newId: int -> string)
    requires forall i | 0 <= i < |b| && b[i].ToolBlock? :: b[i].tool.key in rest
    ensures LateOnes([], b, rest, newId)
  {
  }

  lemma LateOnesAdd(xs: seq<LateTool>, b: seq<Block>, rest: set<int>, key: int, at: nat, newId: int -> string)
    requires LateOnes(xs, b, rest, newId) && key in rest
    requires at < |b| && b[at].Serves(key) && StartsLate(b[at])
    requires forall i | 0 <= i < |b| && b[i].Serves(key) :: i == at
    ensures LateOnes(xs + [LateToolOf(b, at, newId)], b, rest - {key}, newId)
  {
    var late := LateToolOf(b, at, newId);
    var xs' := xs + [late];
    assert late !in xs;
    forall i | 0 <= i < |b| && StartsLate(b[i]) && b[i].tool.key !in rest - {key}
        ensures LateToolOf(b, i, newId) in xs' {
      if b[i].Serves(key) {
        assert xs'[|xs|] == late;
      } else {
        var p :| 0 <= p < |xs| && xs[p] == LateToolOf(b, i, newId);
        assert xs'[p] == xs[p];
      }
    }
  }

  lemma LateOnesSkip(xs: seq<LateTool>, b: seq<Block>, rest: set<int>, key: int, at: nat, newId: int -> string)
    requires LateOnes(xs, b, rest, newId) && key in rest
    requires at < |b| && b[at].Serves(key) && !StartsLate(b[at])
    requires forall i | 0 <= i < |b| && b[i].Serves(key) :: i == at
    ensures LateOnes(xs, b, rest - {key}, newId)
  {
    forall i | 0 <= i < |b| && StartsLate(b[i]) && b[i].tool.key !in rest - {key}
        ensures LateToolOf(b, i, newId) in xs {
      assert !b[i].Serves(key);
    }
  }

  lemma SortedListsLate(xs: seq<LateTool>, sorted: seq<LateTool>, b: seq<Block>, newId: int -> string)
    requires LateOnes(xs, b, {}, newId) && ByIndex(sorted) && multiset(sorted) == multiset(xs)
    ensures ListsLate(sorted, b, newId)
  {
    forall p | 0 <= p < |sorted| ensures LateAt(sorted[p], b, newId) {
      assert sorted[p] in multiset(sorted);
      assert sorted[p] in xs;
    }
    forall p, q | 0 <= p < q < |sorted| ensures sorted[p].index < sorted[q].index {
      assert multiset(xs)[sorted[q]] <= 1;
      assert LateAt(sorted[p], b, newId) && LateAt(sorted[q], b, newId);
      if sorted[p] == sorted[q] { TwiceCounts(sorted, p, q); }
    }
    forall i | 0 <= i < |b| && StartsLate(b[i]) ensures LateToolOf(b, i, newId) in sorted {
      assert LateToolOf(b, i, newId) in xs && LateToolOf(b, i, newId) in multiset(xs);
    }
  }

  lemma LateStartPlaces(b: seq<Block>, newId: int -> string)
    requires StreamBracketing.Valid(b)
    ensures var b' := LateStart(b, newId).blocks;
      && StreamBracketing.Valid(b') && (TextOpen(b') <==> TextOpen(b))
      && (forall i | 0 <= i < |b| :: SamePlace(b'[i], b[i]))
      && (forall i | 0 <= i < |b| && b[i].ToolBlock? :: b'[i].tool == AfterLate(b[i].tool, newId))
  {
    LateStartValid(b, newId);
    var b' := LateStart(b, newId).blocks;
    forall i | 0 <= i < |b|
      ensures SamePlace(b'[i], b[i])
      ensures b[i].ToolBlock? ==> b'[i].tool == AfterLate(b[i].tool, newId)
      ensures b[i].TextBlock? ==> b'[i] == b[i]
    {
      LateStartAt(b, newId, i);
    }
  }

  lemma HasMember(s: set<int>)
    ensures s == {} || exists x :: x in s
  {
    if forall x :: x !in s {
      assert s == {};
    }
  }

  method WriteStops(sb: EventBuilder, a: array<int>)
    modifies sb
    ensures sb.events == old(sb.events) + Stops(a[..])
  {
    var i := 0;
    while i < a.Length
      invariant 0 <= i <= a.Length && sb.events == old(sb.events) + Stops(a[..])[..i]
    {
      sb.Write(ContentBlockStop(a[i]));
      i := i + 1;
    }
    assert Stops(a[..])[..a.Length] == Stops(a[..]);
  }

  /** `xs` holds the indices of the open tool blocks whose key is not in `rest`, each once. */
  ghost predicate OpenOnes(xs: seq<int>, b: seq<Block>, rest: set<int>) {
    && (forall x: int :: multiset(xs)[x] <= 1)
    && (forall p | 0 <= p < |xs| ::
          0 <= xs[p] < |b| && b[xs[p]].ToolBlock? && b[xs[p]].tool.open && b[xs[p]].tool.key !in rest)
    && (forall i | 0 <= i < |b| && b[i].ToolBlock? && b[i].tool.open && b[i].tool.key !in rest :: i in xs)
  }

  lemma OpenOnesNone(b: seq<Block>, rest: set<int>)
    requires forall i | 0 <= i < |b| && b[i].ToolBlock? :: b[i].tool.key in rest
    ensures OpenOnes([], b, rest)
  {
  }

  lemma OpenOnesAdd(xs: seq<int>, b: seq<Block>, rest: set<int>, key: int, at: nat)
    requires OpenOnes(xs, b, rest) && key in rest
    requires at < |b| && b[at].Serves(key) && b[at].tool.open
    requires forall i | 0 <= i < |b| && b[i].Serves(key) :: i == at
    ensures OpenOnes(xs + [at], b, rest - {key})
  {
    assert at !in xs;
    forall i | 0 <= i < |b| && b[i].ToolBlock? && b[i].tool.open && b[i].tool.key !in rest - {key}
        ensures i in xs + [at] {
      assert b[i].Serves(key) || i in xs;
    }
  }

  lemma OpenOnesSkip(xs: seq<int>, b: seq<Block>, rest: set<int>, key: int, at: nat)
    requires OpenOnes(xs, b, rest) && key in rest
    requires at < |b| && b[at].Serves(key) && !b[at].tool.open
    requires forall i | 0 <= i < |b| && b[i].Serves(key) :: i == at
    ensures OpenOnes(xs, b, rest - {key})
  {
    forall i | 0 <= i < |b| && b[i].ToolBlock? && b[i].tool.open && b[i].tool.key !in rest - {key} ensures i in xs {
      assert !b[i].Serves(key);
    }
  }

  lemma SortedListsOpen(xs: seq<int>, sorted: seq<int>, b: seq<Block>)
    requires OpenOnes(xs, b, {}) && Ascending(sorted) && multiset(sorted) == multiset(xs)
    ensures ListsOpen(sorted, b)
  {
    forall p, q | 0 <= p < q < |sorted| ensures sorted[p] < sorted[q] {
      assert multiset(xs)[sorted[q]] <= 1;
      if sorted[p] == sorted[q] { TwiceCounts(sorted, p, q); }
    }
    forall p | 0 <= p < |sorted| ensures 0 <= sorted[p] < |b| && b[sorted[p]].ToolBlock? && b[sorted[p]].tool.open {
      assert sorted[p] in multiset(sorted);
      assert sorted[p] in xs;
    }
    forall i | 0 <= i < |b| && b[i].ToolBlock? && b[i].tool.open ensures i in sorted {
      assert i in xs && i in multiset(xs);
    }
  }

  /** Text stays text, and a tool block keeps its key. */
  predicate SamePlace(t': Block, t: Block) {
    if t.TextBlock? then t'.TextBlock? else t'.Serves(t.tool.key)
  }

  lemma CloseToolsPlaces(b: seq<Block>)
    requires StreamBracketing.Valid(b)
    ensures var b' := CloseTools(b).blocks;
      && StreamBracketing.Valid(b') && (TextOpen(b') <==> TextOpen(b))
      && (forall i | 0 <= i < |b| :: b'[i] == CloseOne(b[i], 0).0 && SamePlace(b'[i], b[i]))
  {
    CloseToolsValid(b);
    forall i | 0 <= i < |b|
      ensures CloseTools(b).blocks[i] == CloseOne(b[i], 0).0 && SamePlace(CloseTools(b).blocks[i], b[i])
    {
      CloseToolsAt(b, i);
    }
  }

  lemma CallToolKey(t: Tool, i: nat, call: ToolCall)
    ensures CallTool(t, i, call).0.key == t.key
  {
  }

  lemma CallIsValid(b: seq<Block>, call: ToolCall)
    requires StreamBracketing.Valid(b) && !TextOpen(b)
    ensures StreamBracketing.Valid(Call(b, call).blocks) && !TextOpen(Call(b, call).blocks)
  {
    CallValid(b, call);
  }

  /** The calls of one delta after the text block is closed. */
  function CallsRun(b: seq<Block>, calls: seq<ToolCall>): Step {
    if calls == [] then Step(b, [])
    else
      var before := CallsRun(b, calls[..|calls| - 1]);
      var now := Call(before.blocks, calls[|calls| - 1]);
      Step(now.blocks, before.events + now.events)
  }

  lemma CallsRunNone(b: seq<Block>)
    ensures CallsRun(b, []) == Step(b, [])
  {
  }

  lemma CallsRunSnoc(b: seq<Block>, calls: seq<ToolCall>, call: ToolCall)
    ensures var before := CallsRun(b, calls);
      var now := Call(before.blocks, call);
      CallsRun(b, calls + [call]) == Step(now.blocks, before.events + now.events)
  {
    assert (calls + [call])[..|calls|] == calls;
  }
}
