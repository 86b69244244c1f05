/** Whole converted streams: what a client receives, and when it receives anything at all. */
module StreamTheorems {
  import opened Wrappers
  import opened TokenUsage
  import opened StreamProtocol
  import opened StreamConverter
  import opened StreamBracketing
  import opened StreamMeaning

  // ----- Runs compose -----

  lemma FinishedAppend(xs: seq<Item>, ys: seq<Item>)
    ensures Finished(xs + ys) <==> Finished(xs) || Finished(ys)
  {
    if Finished(xs) {
      var i :| 0 <= i < |xs| && xs[i].FinishItem?;
      assert (xs + ys)[i].FinishItem?;
    }
    if Finished(ys) {
      var i :| 0 <= i < |ys| && ys[i].FinishItem?;
      assert (xs + ys)[|xs| + i].FinishItem?;
    }
  }

  lemma RunSnoc(b: seq<Block>, finished: bool, xs: seq<Item>, x: Item, newId: int -> string)
    ensures var p := Run(b, finished, xs, newId);
      var now := ItemStep(p.blocks, finished || Finished(xs), x, newId);
      Run(b, finished, xs + [x], newId) == Step(now.blocks, p.events + now.events)
  {
    assert (xs + [x])[..|xs|] == xs;
  }

  lemma {:induction false} RunAppend(b: seq<Block>, finished: bool, xs: seq<Item>, ys: seq<Item>, newId: int -> string)
    ensures var p := Run(b, finished, xs, newId);
      var q := Run(p.blocks, finished || Finished(xs), ys, newId);
      Run(b, finished, xs + ys, newId) == Step(q.blocks, p.events + q.events)
    decreases |ys|
  {
    hide ItemStep, Finished;
    var p := Run(b, finished, xs, newId);
    if ys == [] {
      assert xs + ys == xs;
    } else {
      var init, last := ys[..|ys| - 1], ys[|ys| - 1];
      var f := finished || Finished(xs);
      assert ys == init + [last] && xs + ys == (xs + init) + [last];
      RunAppend(b, finished, xs, init, newId);
      FinishedAppend(xs, init);
      RunSnoc(b, finished, xs + init, last, newId);
      RunSnoc(p.blocks, f, init, last, newId);
      var q := Run(p.blocks, f, init, newId);
      var now := ItemStep(q.blocks, f || Finished(init), last, newId);
      assert (p.events + q.events) + now.events == p.events + (q.events + now.events);
    }
  }

  lemma {:induction false} StopAfterAppend(stop: Option<string>, xs: seq<Item>, ys: seq<Item>)
    ensures StopAfter(stop, xs + ys) == StopAfter(StopAfter(stop, xs), ys)
    decreases |ys|
  {
    if ys == [] {
      assert xs + ys == xs;
    } else {
      StopAfterAppend(stop, xs, ys[..|ys| - 1]);
      assert (xs + ys)[..|xs + ys| - 1] == xs + ys[..|ys| - 1];
    }
  }

  lemma {:induction false} FinishedMeansStop(h: seq<Item>)
    ensures StopAfter(None, h).Some? <==> Finished(h)
    decreases |h|
  {
    if h != [] {
      var init := h[..|h| - 1];
      FinishedMeansStop(init);
      assert h == init + [h[|h| - 1]];
      FinishedAppend(init, [h[|h| - 1]]);
    }
  }

  /** The stop reason is the image of the first finish reason. */
  lemma {:induction false} StopIsFirstFinish(h: seq<Item>, i: nat)
    requires i < |h| && h[i].FinishItem?
    requires forall j | 0 <= j < i :: !h[j].FinishItem?
    ensures StopAfter(None, h) == Some(AnthropicStopReason(h[i].reason))
    decreases |h|
  {
    if i < |h| - 1 {
      StopIsFirstFinish(h[..|h| - 1], i);
    } else {
      FinishedMeansStop(h[..i]);
    }
  }

  // ----- Chunks -----

  /** Usage reports in order. */
  function Reports(chunks: seq<Chunk>): seq<AnthropicUsage> {
    if chunks == [] then []
    else
      var u := UsageReport(chunks[|chunks| - 1]);
      Reports(chunks[..|chunks| - 1]) + (if u.Some? then [u.value] else [])
  }

  function Converted(usages: seq<OpenAiUsage>): seq<AnthropicUsage> {
    seq(|usages|, i requires 0 <= i < |usages| => ToAnthropic(usages[i]))
  }

  lemma {:induction false} ReportsAreUsages(chunks: seq<Chunk>)
    ensures Reports(chunks) == Converted(Usages(chunks))
    decreases |chunks|
  {
    hide ToAnthropic;
    if chunks != [] { ReportsAreUsages(chunks[..|chunks| - 1]); }
  }

  lemma MergeReport(reports: seq<AnthropicUsage>, u: Option<AnthropicUsage>)
    ensures Merge(MergeAll(reports), u) == MergeAll(reports + (if u.Some? then [u.value] else []))
  {
    if u.Some? {
      assert (reports + [u.value])[..|reports|] == reports;
    } else {
      assert reports + [] == reports;
    }
  }

  function Opening(first: Chunk): seq<Event> {
    [MessageStart(first.id, first.model, Some(UsageReport(first).GetOr(NO_USAGE))), Ping]
  }

  /** What the opening tells the client. */
  function Opened(first: Chunk): Header { Header(first.id, first.model, UsageReport(first).GetOr(NO_USAGE)) }

  /** The state and events after the chunks whose items are `h` and whose reports are `reports`. */
  function Shape(first: Chunk, h: seq<Item>, reports: seq<AnthropicUsage>, newId: int -> string): (State, seq<Event>) {
    var run := Run([], false, h, newId);
    (State(true, first.id, first.model, run.blocks, StopAfter(None, h), MergeAll(reports), false),
        Opening(first) + run.events)
  }

  lemma FirstChunkShape(chunk: Chunk, newId: int -> string)
    ensures ChunkStep(INITIAL, chunk, true, newId) == Shape(chunk, ChunkItems(chunk), Reports([chunk]), newId)
  {
    assert [chunk][..0] == [];
    MergeReport([], UsageReport(chunk));
  }

  lemma NextChunkShape(first: Chunk, h: seq<Item>, reports: seq<AnthropicUsage>, chunk: Chunk, newId: int -> string)
    ensures var (st, events) := Shape(first, h, reports, newId);
      var (st', more) := ChunkStep(st, chunk, false, newId);
      var u := UsageReport(chunk);
      (st', events + more) == Shape(first, h + ChunkItems(chunk), reports + (if u.Some? then [u.value] else []), newId)
  {
    hide ItemStep, Run, StopAfter, MergeAll, Merge, Finished, ChunkItems, UsageReport;
    var ys := ChunkItems(chunk);
    var (st, events) := Shape(first, h, reports, newId);
    var (ready, header) := Prepare(st, chunk, false);
    FinishedMeansStop(h);
    MergeReport(reports, UsageReport(chunk));
    RunAppend([], false, h, ys, newId);
    StopAfterAppend(None, h, ys);
    assert header == [];
    var run := Run(ready.blocks, ready.stopReason.Some?, ys, newId);
    assert events + (header + run.events) == Opening(first) + (Run([], false, h, newId).events + run.events);
  }

  /** Chunk by chunk or item by item: the state and the events are the same. */
  lemma {:induction false} RunChunksShape(chunks: seq<Chunk>, newId: int -> string)
    requires chunks != []
    ensures RunChunks(chunks, newId) == Shape(chunks[0], AllItems(chunks), Reports(chunks), newId)
    decreases |chunks|
  {
    var n := |chunks| - 1;
    var init := chunks[..n];
    if n == 0 {
      assert init == [] && chunks == [chunks[0]];
      assert AllItems(init) + ChunkItems(chunks[0]) == ChunkItems(chunks[0]);
      FirstChunkShape(chunks[0], newId);
      var (st, more) := ChunkStep(INITIAL, chunks[0], true, newId);
      assert [] + more == more;
    } else {
      RunChunksShape(init, newId);
      NextChunkShape(chunks[0], AllItems(init), Reports(init), chunks[n], newId);
    }
  }

  // ----- The main theorem -----

  lemma SettledMeaning(b: seq<Block>, h: seq<Item>, i: nat, newId: int -> string)
    requires Valid(b) && TracksBlocks(b, h, newId) && i < |b|
    ensures var t := SettledBlock(b[i], newId);
      && (t.Announced() <==> i in Meaning(h, newId))
      && (t.Announced() ==> t.Seen() == Meaning(h, newId)[i])
  {
    assert TracksBlock(b[i], Layout(h)[i], h, newId);
    if b[i].ToolBlock? {
      var t := b[i].tool;
      assert ValidTool(t);
      assert t.body + "" == t.body && "" + t.pending == t.pending;
    }
  }

  lemma MeaningIsSettled(h: seq<Item>, newId: int -> string)
    ensures Seen(Settle(Run([], false, h, newId).blocks, newId).blocks) == Meaning(h, newId)
  {
    var b := Run([], false, h, newId).blocks;
    RunValid([], false, h, newId);
    RunTracks(h, newId);
    SettledSeen(b, h, Settle(b, newId).blocks, newId);
  }

  lemma SettledSeen(b: seq<Block>, h: seq<Item>, settled: seq<Block>, newId: int -> string)
    requires Valid(b) && TracksBlocks(b, h, newId) && settled == Settle(b, newId).blocks
    ensures Seen(settled) == Meaning(h, newId)
  {
    hide Valid, TracksBlock, Settle, SettledBlock;
    SettleAt(b, newId);
    var seen, meaning := Seen(settled), Meaning(h, newId);
    forall i: int | 0 <= i < |b|
      ensures (i in seen <==> i in meaning) && (i in seen ==> seen[i] == meaning[i])
    {
      SettledMeaning(b, h, i, newId);
    }
    assert seen.Keys == meaning.Keys;
  }

  /** What a client makes of the end of the stream. */
  lemma FinalizeSeen(header: Header, st: State, newId: int -> string)
    requires Valid(st.blocks) && !st.deltaEmitted
    ensures FeedAll(View(header, st.blocks), Finalize(st, newId).1) ==
            Complete(header.(usage := Updated(header.usage, Some(st.usage.GetOr(NO_USAGE)))),
                     Seen(Settle(st.blocks, newId).blocks), Some(st.stopReason.GetOr("end_turn")))
  {
    var s := Settle(st.blocks, newId);
    SettleSeen(header, st.blocks, newId);
    SettleAt(st.blocks, newId);
    var trailer := Trailer(st.stopReason, st.usage);
    FeedAppend(View(header, st.blocks), s.events, trailer);
    FeedTwo(View(header, s.blocks), trailer[0], trailer[1]);
    assert AllClosed(Seen(s.blocks));
  }

  lemma OpeningSeen(first: Chunk)
    ensures Valid([]) && FeedAll(Waiting, Opening(first)) == View(Opened(first), [])
  {
    FeedTwo(Waiting, Opening(first)[0], Opening(first)[1]);
    assert Seen([]) == map[];
  }

  lemma {:induction false} ReportsSound(chunks: seq<Chunk>)
    ensures forall u | u in Reports(chunks) :: u.input >= 0 && u.cacheCreation >= 0 && u.cacheRead >= 0
    ensures chunks != [] && UsageReport(chunks[0]).Some? ==>
        Reports(chunks) != [] && Reports(chunks)[0] == UsageReport(chunks[0]).value
    decreases |chunks|
  {
    if chunks != [] {
      var init := chunks[..|chunks| - 1];
      ReportsSound(init);
      if init == [] { assert Reports(init) == []; }
    }
  }

  lemma CountMerged(reports: seq<AnthropicUsage>, f: Field)
    requires reports != []
    ensures MergeAll(reports).Some?
    ensures var n := Count(MergeAll(reports).value, f);
      (n > 0 || n == Count(reports[0], f)) && exists u | u in reports :: n == Count(u, f)
  {
    var at := MergeKeepsLatest(reports, f);
    assert reports[at] in reports;
  }

  /** A client that is told the first chunk's report at the start and the merge of all reports
      at the end. */
  lemma StartTellsNothingNew(chunks: seq<Chunk>)
    requires chunks != []
    ensures var merged := MergeAll(Reports(chunks)).GetOr(NO_USAGE);
      Updated(Opened(chunks[0]).usage, Some(merged)) ==
      if UsageReport(chunks[0]).Some? then merged else merged.(output := Positive(merged.output))
  {
    hide UsageReport, Reports, MergeAll;
    var reports := Reports(chunks);
    ReportsSound(chunks);
    if reports == [] {
      MergeNone();
    } else {
      CountMerged(reports, Input);
      CountMerged(reports, Output);
      CountMerged(reports, CacheCreation);
      CountMerged(reports, CacheRead);
    }
  }

  lemma MergeNone()
    ensures MergeAll([]) == None
  {
  }

  /** A converted stream opens with what the first chunk tells. */
  lemma ConvertOpens(chunks: seq<Chunk>, newId: int -> string)
    requires chunks != []
    ensures Convert(chunks, newId) != [] && Convert(chunks, newId)[0] == Opening(chunks[0])[0]
  {
    hide Run, AllItems, Reports, Finalize;
    RunChunksShape(chunks, newId);
  }

  /** The client of a converted stream completes exactly when no arguments arrive late, and
      then it holds the meaning of the chunks, the image of the first finish reason and the
      merged usage of all reports, even though the start tells it the first chunk's report
      again; only a negative output count is not taken after a start that told zero. Otherwise
      the stream breaks the protocol. */
  lemma ReadConvert(chunks: seq<Chunk>, h: seq<Item>, newId: int -> string)
    requires chunks != [] && Told(h, chunks)
    ensures var merged := MergeAll(Converted(Usages(chunks))).GetOr(NO_USAGE);
      var held := if chunks[0].usage.Some? then merged else merged.(output := Positive(merged.output));
      Read(Convert(chunks, newId)) ==
      if LateArguments(h) then Violation
      else Complete(Header(chunks[0].id, chunks[0].model, held), Meaning(h, newId),
                    Some(StopAfter(None, h).GetOr("end_turn")))
  {
    hide ItemStep, Run, Valid, Feed, View, AllItems, Reports, LateArguments, MergeAll, StopAfter, Finalize, Told,
         Usages, Converted;
    ItemsAreTold(chunks, h);
    ReportsAreUsages(chunks);
    var (st, events) := RunChunks(chunks, newId);
    var run := Run([], false, h, newId);
    var header := Opened(chunks[0]);
    var opening := Opening(chunks[0]);
    RunChunksShape(chunks, newId);
    OpeningSeen(chunks[0]);
    FeedAppend(Waiting, opening, run.events);
    FeedAppend(Waiting, events, Finalize(st, newId).1);
    RunSeen(header, [], false, h, newId);
    RunValid([], false, h, newId);
    HitsClosedIsLate(h, newId);
    if LateArguments(h) {
      ViolationSticks(Finalize(st, newId).1);
    } else {
      FinalizeSeen(header, st, newId);
      StartTellsNothingNew(chunks);
      MeaningIsSettled(h, newId);
    }
  }

  /** Before the end the converter never breaks the protocol by itself: every prefix of the
      chunks leaves the client in mid-message. */
  lemma ReadPrefix(chunks: seq<Chunk>, h: seq<Item>, newId: int -> string)
    requires chunks != [] && Told(h, chunks)
    ensures Read(RunChunks(chunks, newId).1).Violation? <==> LateArguments(h)
    ensures !LateArguments(h) ==>
      Read(RunChunks(chunks, newId).1) == View(Opened(chunks[0]), Run([], false, h, newId).blocks)
  {
    hide ItemStep, Run, Valid, Feed, AllItems, Reports, LateArguments, MergeAll, StopAfter, Told;
    ItemsAreTold(chunks, h);
    var opening := Opening(chunks[0]);
    RunChunksShape(chunks, newId);
    OpeningSeen(chunks[0]);
    FeedAppend(Waiting, opening, Run([], false, h, newId).events);
    RunSeen(Opened(chunks[0]), [], false, h, newId);
    HitsClosedIsLate(h, newId);
  }

  /** The converter going on with more chunks. */
  function GoOn(st: State, chunks: seq<Chunk>, newId: int -> string): State {
    if chunks == [] then st
    else ChunkStep(GoOn(st, chunks[..|chunks| - 1], newId), chunks[|chunks| - 1], false, newId).0
  }

  lemma {:induction false} EndIsKept(st: State, chunks: seq<Chunk>, newId: int -> string)
    ensures GoOn(st, chunks, newId).deltaEmitted == st.deltaEmitted
    decreases |chunks|
  {
    hide Run, StopAfter, Merge, ChunkItems;
    if chunks != [] { EndIsKept(st, chunks[..|chunks| - 1], newId); }
  }

  /** The end of the message is written once: after it, whatever chunks still come, asking for
      it again writes nothing and changes nothing. */
  lemma FinalizeOnce(chunks: seq<Chunk>, late: seq<Chunk>, newId: int -> string)
    ensures var ended := GoOn(Finalize(RunChunks(chunks, newId).0, newId).0, late, newId);
      ended.deltaEmitted && Finalize(ended, newId) == (ended, [])
  {
    hide RunChunks, GoOn, Settle;
    EndIsKept(Finalize(RunChunks(chunks, newId).0, newId).0, late, newId);
  }

  /** An upstream that ends before its first chunk is converted to a stream without a start. */
  lemma EmptyUpstream(newId: int -> string)
    ensures Convert([], newId) == [MessageDelta(Some("end_turn"), Some(NO_USAGE)), MessageStop]
    ensures Read(Convert([], newId)) == Violation
  {
    var events := Convert([], newId);
    FeedTwo(Waiting, events[0], events[1]);
  }

  /** Arguments after the finish reason for a tool call it sealed: the shortest bad stream. */
  lemma LateArgumentsExample(newId: int -> string)
    ensures var call := ToolCall(Some(0), "call_1", "search", "{}");
      var chunks := [Chunk("c", "m", [Choice(Some(Delta("", [call])), Some("tool_calls"))], None),
                     Chunk("c", "m", [Choice(Some(Delta("", [call])), None)], None)];
      Read(Convert(chunks, newId)) == Violation
  {
    var call := ToolCall(Some(0), "call_1", "search", "{}");
    var c1 := Chunk("c", "m", [Choice(Some(Delta("", [call])), Some("tool_calls"))], None);
    var c2 := Chunk("c", "m", [Choice(Some(Delta("", [call])), None)], None);
    var h := [CallItem(call), FinishItem("tool_calls"), CallItem(call)];
    assert ChunkItems(c1) == h[..2] && ChunkItems(c2) == h[2..];
    assert [c1, c2][..1] == [c1] && [c1][..0] == [];
    assert AllItems([c1]) == h[..2];
    assert AllItems([c1, c2]) == h[..2] + h[2..] == h;
    assert h[..2] == [CallItem(call), FinishItem("tool_calls")] && h[..2][..1] == [CallItem(call)] && h[..1][..0] == [];
    assert 0 in Spoken([CallItem(call)]) && !Finished([CallItem(call)]);
    assert LateArguments(h);
    ItemsAreTold([c1, c2], h);
    ReadConvert([c1, c2], h, newId);
  }

  // ----- Conservation -----

  /** All text of the stream: what the handler accumulates as the response content. */
  function AllText(h: seq<Item>): string {
    if h == [] then ""
    else AllText(h[..|h| - 1]) + (if h[|h| - 1].TextItem? then h[|h| - 1].text else "")
  }

  function SlotText(slots: seq<Slot>): string {
    if slots == [] then ""
    else SlotText(slots[..|slots| - 1]) + (if slots[|slots| - 1].TextSlot? then slots[|slots| - 1].text else "")
  }

  lemma SlotTextSnoc(slots: seq<Slot>, slot: Slot)
    ensures SlotText(slots + [slot]) == SlotText(slots) + (if slot.TextSlot? then slot.text else "")
  {
    assert (slots + [slot])[..|slots|] == slots;
  }

  /** The text blocks read in order are all the text, nothing lost or repeated. */
  lemma {:induction false} TextConserved(h: seq<Item>)
    ensures SlotText(Layout(h)) == AllText(h)
    decreases |h|
  {
    hide SlotText;
    if h == [] {
      assert Layout(h) == [];
      SlotTextNothing();
    } else {
      var init, last := h[..|h| - 1], h[|h| - 1];
      var slots := Layout(init);
      TextConserved(init);
      if last.TextItem? && TextRun(init) {
        SlotTextGrows(slots, last.text);
      } else if last.TextItem? {
        SlotTextSnoc(slots, TextSlot(last.text));
      } else if last.CallItem? {
        SlotTextSnoc(slots, ToolSlot(last.call.Key()));
      }
    }
  }

  lemma SlotTextGrows(slots: seq<Slot>, text: string)
    requires |slots| > 0 && slots[|slots| - 1].TextSlot?
    ensures var n := |slots| - 1;
      SlotText(slots[n := TextSlot(slots[n].text + text)]) == SlotText(slots) + text
  {
    hide SlotText;
    var n := |slots| - 1;
    assert slots == slots[..n] + [slots[n]];
    assert slots[n := TextSlot(slots[n].text + text)] == slots[..n] + [TextSlot(slots[n].text + text)];
    SlotTextSnoc(slots[..n], slots[n]);
    SlotTextSnoc(slots[..n], TextSlot(slots[n].text + text));
  }

  lemma SlotTextNothing()
    ensures SlotText([]) == ""
  {
  }

  /** No two blocks belong to the same tool call. */
  lemma OneBlockPerCall(h: seq<Item>, newId: int -> string, i: nat, j: nat)
    requires i < j < |Layout(h)| && Layout(h)[i].ToolSlot? && Layout(h)[j].ToolSlot?
    ensures Layout(h)[i].key != Layout(h)[j].key
  {
    var b := Run([], false, h, newId).blocks;
    RunTracks(h, newId);
    RunValid([], false, h, newId);
    assert TracksBlock(b[i], Layout(h)[i], h, newId) && TracksBlock(b[j], Layout(h)[j], h, newId);
  }

  /** The block indices are 0, 1, ... without a gap exactly when every tool call said something. */
  lemma NoGapsIffAllSpoken(h: seq<Item>, newId: int -> string)
    ensures (forall i | 0 <= i < |Layout(h)| :: i in Meaning(h, newId)) <==>
            (forall i | 0 <= i < |Layout(h)| && Layout(h)[i].ToolSlot? :: Layout(h)[i].key in Spoken(h))
  {
    var b := Run([], false, h, newId).blocks;
    RunTracks(h, newId);
    RunValid([], false, h, newId);
    forall i | 0 <= i < |Layout(h)|
      ensures i in Meaning(h, newId) <==> (Layout(h)[i].ToolSlot? ==> Layout(h)[i].key in Spoken(h))
    {
      assert TracksBlock(b[i], Layout(h)[i], h, newId);
      SettledMeaning(b, h, i, newId);
    }
  }
}
