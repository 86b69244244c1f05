/**
 What is in the chunks is what the client gets, read off the chunks themselves: all text, and
 for every tool call all its argument fragments, whatever else a chunk carries.
 */
module StreamClient {
  import opened Wrappers
  import opened TokenUsage
  import opened StreamProtocol
  import opened StreamConverter
  import opened StreamBracketing
  import opened StreamMeaning
  import opened StreamTheorems
  import opened StreamConservation

  // ----- The items of the chunks -----

  lemma {:induction false} TextAppend(xs: seq<Item>, ys: seq<Item>)
    ensures AllText(xs + ys) == AllText(xs) + AllText(ys)
    decreases |ys|
  {
    if ys == [] {
      assert xs + ys == xs;
    } else {
      var init, last := ys[..|ys| - 1], ys[|ys| - 1];
      TextAppend(xs, init);
      assert (xs + ys)[..|xs + ys| - 1] == xs + init;
      Glue(AllText(xs), AllText(init), if last.TextItem? then last.text else "");
    }
  }

  lemma {:induction false} ArgumentsAppend(xs: seq<Item>, ys: seq<Item>, key: int)
    ensures ReceivedArguments(xs + ys, key) == ReceivedArguments(xs, key) + ReceivedArguments(ys, key)
    decreases |ys|
  {
    if ys == [] {
      assert xs + ys == xs;
    } else {
      var init, last := ys[..|ys| - 1], ys[|ys| - 1];
      ArgumentsAppend(xs, init, key);
      assert (xs + ys)[..|xs + ys| - 1] == xs + init;
      Glue(ReceivedArguments(xs, key), ReceivedArguments(init, key),
           if last.CallItem? && last.call.Key() == key then last.call.arguments else "");
    }
  }

  lemma {:induction false} CallsSay(calls: seq<ToolCall>, key: int)
    ensures AllText(Calls(calls)) == "" && ReceivedArguments(Calls(calls), key) == ArgumentsAmong(calls, key)
    decreases |calls|
  {
    if calls != [] {
      CallsSay(calls[..|calls| - 1], key);
      assert Calls(calls)[..|calls| - 1] == Calls(calls[..|calls| - 1]);
    }
  }

  lemma OneSays(item: Item, key: int)
    ensures AllText([item]) == if item.TextItem? then item.text else ""
    ensures ReceivedArguments([item], key) ==
            if item.CallItem? && item.call.Key() == key then item.call.arguments else ""
    ensures AllText([]) == "" && ReceivedArguments([], key) == ""
  {
    assert [item][..0] == [];
  }

  lemma ChunkSays(chunk: Chunk, key: int)
    ensures AllText(ChunkItems(chunk)) == TextOf(chunk)
    ensures ReceivedArguments(ChunkItems(chunk), key) == ArgumentsAmong(CallsIn(chunk), key)
  {
    hide AllText, ReceivedArguments, ArgumentsAmong, ToolCall.Key;
    OneSays(TextItem(TextOf(chunk)), key);
    NoArguments(key);
    if chunk.choices != [] {
      var choice := chunk.choices[0];
      var finish := if choice.finishReason.Some? then [FinishItem(choice.finishReason.value)] else [];
      if choice.finishReason.Some? { OneSays(finish[0], key); }
      TextAppend(DeltaItems(choice.delta), finish);
      ArgumentsAppend(DeltaItems(choice.delta), finish, key);
      if choice.delta.Some? {
        var text := if choice.delta.value.content != "" then [TextItem(choice.delta.value.content)] else [];
        CallsSay(choice.delta.value.toolCalls, key);
        TextAppend(text, Calls(choice.delta.value.toolCalls));
        ArgumentsAppend(text, Calls(choice.delta.value.toolCalls), key);
      }
    }
  }

  lemma NoArguments(key: int)
    ensures ArgumentsAmong([], key) == ""
  {
  }

  lemma {:induction false} ChunksSay(chunks: seq<Chunk>, key: int)
    ensures AllText(AllItems(chunks)) == Content(chunks)
    ensures ReceivedArguments(AllItems(chunks), key) == ArgumentsOf(chunks, key)
    decreases |chunks|
  {
    hide ChunkItems, TextOf, CallsIn;
    if chunks != [] {
      var n := |chunks| - 1;
      ChunksSay(chunks[..n], key);
      ChunkSays(chunks[n], key);
      TextAppend(AllItems(chunks[..n]), ChunkItems(chunks[n]));
      ArgumentsAppend(AllItems(chunks[..n]), ChunkItems(chunks[n]), key);
    }
  }

  // ----- Text -----

  /** The text blocks below index `n`, read in order. */
  ghost function TextHeld(blocks: map<int, Received>, n: nat): string {
    if n == 0 then ""
    else TextHeld(blocks, n - 1) + (if n - 1 in blocks && blocks[n - 1].head.TextHead? then blocks[n - 1].body else "")
  }

  lemma {:induction false} HeldIsSlots(h: seq<Item>, newId: int -> string, n: nat)
    requires n <= |Layout(h)|
    requires forall i | 0 <= i < |Layout(h)| && i in Meaning(h, newId) ::
               Meaning(h, newId)[i].head.TextHead? <==> Layout(h)[i].TextSlot?
    ensures TextHeld(Meaning(h, newId), n) == SlotText(Layout(h)[..n])
    decreases n
  {
    hide ViewOf, Layout;
    if n > 0 {
      HeldIsSlots(h, newId, n - 1);
      assert Layout(h)[..n][..n - 1] == Layout(h)[..n - 1];
    }
  }

  lemma {:induction false} NoMoreText(blocks: map<int, Received>, m: nat, n: nat)
    requires m <= n && forall i | i in blocks :: i < m
    ensures TextHeld(blocks, n) == TextHeld(blocks, m)
    decreases n
  {
    if m < n { NoMoreText(blocks, m, n - 1); }
  }

  lemma {:induction false} ToolHeads(h: seq<Item>, key: int, newId: int -> string)
    ensures ViewOf(h, key, newId).head.Some? ==> ViewOf(h, key, newId).head.value.ToolUseHead?
    decreases |h|
  {
    if h != [] { ToolHeads(h[..|h| - 1], key, newId); }
  }

  lemma MeaningHeads(h: seq<Item>, newId: int -> string)
    ensures forall i | i in Meaning(h, newId) ::
              0 <= i < |Layout(h)| &&
              (if Layout(h)[i].TextSlot? then Meaning(h, newId)[i].head.TextHead?
               else Meaning(h, newId)[i].head.ToolUseHead?)
  {
    hide ViewOf, Layout;
    forall i | i in Meaning(h, newId) && Layout(h)[i].ToolSlot? ensures Meaning(h, newId)[i].head.ToolUseHead? {
      ToolHeads(h, Layout(h)[i].key, newId);
    }
  }

  /** The client's text blocks, read in the order of their indices, are the text of all chunks. */
  lemma ClientHoldsText(chunks: seq<Chunk>, newId: int -> string, n: nat)
    requires chunks != [] && Read(Convert(chunks, newId)).Complete?
    requires forall i | i in Read(Convert(chunks, newId)).blocks :: i < n
    ensures TextHeld(Read(Convert(chunks, newId)).blocks, n) == Content(chunks)
  {
    hide Read, Convert, Meaning, Layout, AllItems, Told, LateArguments, StopAfter, MergeAll, TextHeld, SlotText;
    var h := AllItems(chunks);
    ItemsAreTold(chunks, h);
    ReadConvert(chunks, h, newId);
    ChunksSay(chunks, 0);
    TextConserved(h);
    MeaningHeads(h, newId);
    var blocks, size := Meaning(h, newId), |Layout(h)|;
    HeldIsSlots(h, newId, size);
    assert Layout(h)[..size] == Layout(h);
    if n <= size { NoMoreText(blocks, n, size); } else { NoMoreText(blocks, size, n); }
  }

  // ----- Tool calls -----

  lemma {:induction false} SpokenHasSlot(h: seq<Item>, key: int)
    requires ReceivedArguments(h, key) != ""
    ensures ToolSlot(key) in Layout(h) && key in Spoken(h)
    decreases |h|
  {
    var init, last := h[..|h| - 1], h[|h| - 1];
    if ReceivedArguments(init, key) != "" {
      SpokenHasSlot(init, key);
      SlotStays(h, key);
    } else {
      assert last.CallItem? && last.call.Key() == key && last.call.arguments != "";
    }
  }

  lemma SlotStays(h: seq<Item>, key: int)
    requires h != [] && ToolSlot(key) in Layout(h[..|h| - 1])
    ensures ToolSlot(key) in Layout(h)
  {
    var before := Layout(h[..|h| - 1]);
    var i :| 0 <= i < |before| && before[i] == ToolSlot(key);
    assert Layout(h)[i] == ToolSlot(key);
  }

  /** Where a tool call's block is. */
  ghost predicate PlacedAt(h: seq<Item>, key: int, i: nat) { i < |Layout(h)| && Layout(h)[i] == ToolSlot(key) }

  lemma SpokenIsShown(h: seq<Item>, key: int, i: nat, newId: int -> string)
    requires PlacedAt(h, key, i)
    ensures key in Spoken(h) <==> i in Meaning(h, newId)
  {
    var b := Run([], false, h, newId).blocks;
    RunTracks(h, newId);
    RunValid([], false, h, newId);
    assert TracksBlock(b[i], Layout(h)[i], h, newId);
    SettledMeaning(b, h, i, newId);
  }

  /** The tool calls that have a block, by the index of the block. */
  ghost function Places(h: seq<Item>, blocks: map<int, Received>): map<int, int> {
    var slots := Layout(h);
    map i: int | 0 <= i < |slots| && slots[i].ToolSlot? && i in blocks :: slots[i].key
  }

  /** Every tool block of the client holds all argument fragments of one tool call number, as
      the chunks carry them; no two blocks belong to the same number, and every number with
      arguments has a block. `callOf` gives the number of each tool block. */
  lemma ClientHoldsArguments(chunks: seq<Chunk>, newId: int -> string) returns (callOf: map<int, int>)
    requires chunks != [] && Read(Convert(chunks, newId)).Complete?
    ensures var blocks := Read(Convert(chunks, newId)).blocks;
      && (forall i :: i in callOf <==> i in blocks && blocks[i].head.ToolUseHead?)
      && (forall i | i in callOf :: blocks[i].body == ArgumentsOf(chunks, callOf[i]))
      && (forall i, j | i in callOf && j in callOf && i != j :: callOf[i] != callOf[j])
      && (forall key | ArgumentsOf(chunks, key) != "" :: exists i :: i in callOf && callOf[i] == key)
  {
    hide Read, Convert, Layout, AllItems, Told, LateArguments, StopAfter, MergeAll, ViewOf, Spoken, ReceivedArguments,
         ArgumentsOf;
    var h := AllItems(chunks);
    ItemsAreTold(chunks, h);
    ReadConvert(chunks, h, newId);
    MeaningHeads(h, newId);
    var blocks := Meaning(h, newId);
    callOf := Places(h, blocks);
    forall i | i in callOf ensures blocks[i].body == ArgumentsOf(chunks, callOf[i]) {
      ChunksSay(chunks, callOf[i]);
      ViewHoldsArguments(h, callOf[i], newId);
    }
    forall i, j | i in callOf && j in callOf && i != j ensures callOf[i] != callOf[j] {
      if i < j { OneBlockPerCall(h, newId, i, j); } else { OneBlockPerCall(h, newId, j, i); }
    }
    forall key | ArgumentsOf(chunks, key) != "" ensures exists i :: i in callOf && callOf[i] == key {
      ChunksSay(chunks, key);
      SpokenHasSlot(h, key);
      var i :| 0 <= i < |Layout(h)| && Layout(h)[i] == ToolSlot(key);
      SpokenIsShown(h, key, i, newId);
      assert i in callOf;
    }
  }

  // ----- Every point of every stream -----

  lemma TwoSend(d: Event, e: Event, i: nat)
    ensures Sent([d, e], i) == OneSent(d, i) + OneSent(e, i)
  {
    assert [d, e][..1] == [d] && [d][..0] == [];
    assert Sent([], i) + OneSent(d, i) == OneSent(d, i);
  }

  lemma OpeningSends(first: Chunk, i: nat)
    ensures Sent(Opening(first), i) == ""
  {
    TwoSend(Opening(first)[0], Ping, i);
  }

  /** At every point of every stream, late arguments or not: what was sent for a tool call and
      what is still held back are the fragments received for it, in order; and a tool call that
      sent any has a block. */
  lemma ArgumentsConserved(chunks: seq<Chunk>, newId: int -> string, key: int)
    requires chunks != []
    ensures var (st, events) := RunChunks(chunks, newId);
      && (forall i | 0 <= i < |st.blocks| && st.blocks[i].Serves(key) ::
            Sent(events, i) + st.blocks[i].tool.pending == ArgumentsOf(chunks, key))
      && (ArgumentsOf(chunks, key) != "" ==> exists i :: 0 <= i < |st.blocks| && st.blocks[i].Serves(key))
  {
    hide Run, AllItems, Sent, ReceivedArguments, ArgumentsOf, Layout, Spoken;
    var h := AllItems(chunks);
    var (st, events) := RunChunks(chunks, newId);
    var run := Run([], false, h, newId);
    RunChunksShape(chunks, newId);
    ChunksSay(chunks, key);
    RunTracks(h, newId);
    forall i | 0 <= i < |st.blocks| && st.blocks[i].Serves(key)
      ensures Sent(events, i) + st.blocks[i].tool.pending == ArgumentsOf(chunks, key)
    {
      SlotAt(run.blocks, h, i, key, newId);
      RunConserves(h, newId, i);
      SentAppend(Opening(chunks[0]), run.events, i);
      OpeningSends(chunks[0], i);
      assert "" + Sent(run.events, i) == Sent(run.events, i);
    }
    if ArgumentsOf(chunks, key) != "" {
      SpokenHasSlot(h, key);
      var i :| 0 <= i < |Layout(h)| && Layout(h)[i] == ToolSlot(key);
      SlotAt(run.blocks, h, i, key, newId);
    }
  }

  lemma TrailerSends(stop: Option<string>, usage: Option<AnthropicUsage>, i: nat)
    ensures Sent(Trailer(stop, usage), i) == ""
  {
    TwoSend(Trailer(stop, usage)[0], MessageStop, i);
  }

  lemma ConvertEvents(chunks: seq<Chunk>, newId: int -> string)
    requires chunks != []
    ensures var (st, events) := RunChunks(chunks, newId);
      var run := Run([], false, AllItems(chunks), newId);
      && st.blocks == run.blocks
      && Convert(chunks, newId) == (Opening(chunks[0]) + (run.events + Settle(run.blocks, newId).events)) +
          Trailer(st.stopReason, st.usage)
  {
    hide Run, AllItems, Settle, Trailer, Reports, StopAfter, MergeAll, Opening;
    RunChunksShape(chunks, newId);
  }

  /** At the end of every stream everything received for a tool call has been sent. */
  lemma NothingHeldBack(chunks: seq<Chunk>, newId: int -> string, key: int, i: nat)
    requires chunks != []
    requires var b := RunChunks(chunks, newId).0.blocks; i < |b| && b[i].Serves(key)
    ensures Sent(Convert(chunks, newId), i) == ArgumentsOf(chunks, key)
  {
    hide Run, AllItems, Sent, ReceivedArguments, ArgumentsOf, Layout, Settle, Trailer, RunChunks, Convert, Opening,
         TracksBlock;
    var h := AllItems(chunks);
    var st := RunChunks(chunks, newId).0;
    var run := Run([], false, h, newId);
    ConvertEvents(chunks, newId);
    ChunksSay(chunks, key);
    RunTracks(h, newId);
    SlotAt(run.blocks, h, i, key, newId);
    SettledHoldsNothing(h, newId, i);
    var opening, body, trailer := Opening(chunks[0]), run.events + Settle(run.blocks, newId).events,
        Trailer(st.stopReason, st.usage);
    OpeningSends(chunks[0], i);
    TrailerSends(st.stopReason, st.usage, i);
    SentAppend(opening, body, i);
    SentAppend(opening + body, trailer, i);
    assert ("" + Sent(body, i)) + "" == Sent(body, i);
  }
}
