/**
 The handler's loops around the two stream conversions, and the state object of the
 Anthropic-to-OpenAI direction.
 */
module StreamPipes {
  import opened Wrappers
  import opened TokenUsage
  import opened StreamProtocol
  import opened StreamConverter
  import opened StreamMeaning
  import opened StreamTheorems
  import opened StreamState
  import opened ReverseStream
  import opened StreamRoundTrip

  /** What the handler remembers of a stream for the usage and training records. */
  datatype StreamResult = StreamResult(content: string, finishReason: string, usage: Option<OpenAiUsage>)

  /** Chunks that could be decoded. */
  function Decoded(input: seq<Option<Chunk>>): seq<Chunk> {
    if input == [] then []
    else
      var last := input[|input| - 1];
      Decoded(input[..|input| - 1]) + (if last.Some? then [last.value] else [])
  }

  /** Decoding is line by line: undecodable ones are left out, the others stay in order. */
  lemma {:induction false} DecodedAppend(xs: seq<Option<Chunk>>, ys: seq<Option<Chunk>>, chunk: Chunk)
    ensures Decoded(xs + ys) == Decoded(xs) + Decoded(ys)
    ensures Decoded([Some(chunk)]) == [chunk] && Decoded([None]) == []
    decreases |ys|
  {
    var good, bad: seq<Option<Chunk>> := [Some(chunk)], [None];
    assert good[..0] == [] && bad[..0] == [];
    if ys == [] {
      assert xs + ys == xs;
    } else {
      DecodedAppend(xs, ys[..|ys| - 1], chunk);
      assert (xs + ys)[..|xs + ys| - 1] == xs + ys[..|ys| - 1];
    }
  }

  function FinishOf(chunk: Chunk): Option<string> {
    if chunk.choices == [] then None else chunk.choices[0].finishReason
  }

  /** The last finish reason of the first choices, empty when there is none. */
  function LastFinish(chunks: seq<Chunk>): string {
    if chunks == [] then ""
    else FinishOf(chunks[|chunks| - 1]).GetOr(LastFinish(chunks[..|chunks| - 1]))
  }

  lemma {:induction false} LastFinishIs(chunks: seq<Chunk>, k: nat)
    requires k < |chunks| && chunks[k].choices != [] && chunks[k].choices[0].finishReason.Some?
    requires forall j | k < j < |chunks| :: chunks[j].choices == [] || chunks[j].choices[0].finishReason.None?
    ensures Some(LastFinish(chunks)) == chunks[k].choices[0].finishReason
    decreases |chunks|
  {
    if k < |chunks| - 1 { LastFinishIs(chunks[..|chunks| - 1], k); }
  }

  /** The last usage a chunk carried. */
  function LastUsage(chunks: seq<Chunk>): Option<OpenAiUsage> {
    if chunks == [] then None
    else if chunks[|chunks| - 1].usage.Some? then chunks[|chunks| - 1].usage
    else LastUsage(chunks[..|chunks| - 1])
  }

  lemma {:induction false} LastUsageIs(chunks: seq<Chunk>, k: nat)
    requires k < |chunks| && chunks[k].usage.Some? && forall j | k < j < |chunks| :: chunks[j].usage.None?
    ensures LastUsage(chunks) == chunks[k].usage
    decreases |chunks|
  {
    if k < |chunks| - 1 { LastUsageIs(chunks[..|chunks| - 1], k); }
  }

  lemma {:induction false} NothingSaid(chunks: seq<Chunk>)
    requires forall c | c in chunks :: c.choices == [] || c.choices[0].finishReason.None?
    ensures LastFinish(chunks) == ""
    decreases |chunks|
  {
    if chunks != [] { NothingSaid(chunks[..|chunks| - 1]); }
  }

  /** What the stream result holds after these chunks. */
  function Collected(chunks: seq<Chunk>): StreamResult {
    StreamResult(Content(chunks), LastFinish(chunks), LastUsage(chunks))
  }

  /** The accumulation the handler does beside the conversion. */
  method Collect(result: StreamResult, chunk: Chunk, ghost before: seq<Chunk>) returns (next: StreamResult)
    requires result == Collected(before)
    ensures next == Collected(before + [chunk])
  {
    assert Content(before) + "" == Content(before);
    assert (before + [chunk])[..|before|] == before;
    next := result;
    if chunk.choices != [] {
      if chunk.choices[0].delta.Some? { next := next.(content := next.content + chunk.choices[0].delta.value.content); }
      if chunk.choices[0].finishReason.Some? { next := next.(finishReason := chunk.choices[0].finishReason.value); }
    }
    if chunk.usage.Some? { next := next.(usage := chunk.usage); }
  }

  /** The usage that is recorded: at a clean end the merge of all reports, else the last one. */
  function RecordedUsage(chunks: seq<Chunk>, cleanEnd: bool): Option<OpenAiUsage> {
    if cleanEnd && MergeAll(Reports(chunks)).Some? then Some(ToOpenAi(MergeAll(Reports(chunks)).value))
    else LastUsage(chunks)
  }

  /** A stream with reports that ends properly is recorded with the account of their merge. */
  lemma RecordAccounts(chunks: seq<Chunk>, cleanEnd: bool)
    ensures Usages(chunks) != [] ==> MergeAll(Converted(Usages(chunks))).Some?
    ensures if cleanEnd && Usages(chunks) != [] then
              && RecordedUsage(chunks, cleanEnd).Some?
              && Accounts(RecordedUsage(chunks, cleanEnd).value, MergeAll(Converted(Usages(chunks))).value)
            else RecordedUsage(chunks, cleanEnd) == LastUsage(chunks)
  {
    hide ToOpenAi, Usages, Reports;
    ReportsAreUsages(chunks);
    var reports := Converted(Usages(chunks));
    if MergeAll(reports).Some? { ToOpenAiAccounts(MergeAll(reports).value); }
  }

  /** `input` is what the reader returned before the end: chunks, or nothing for a line that
      could not be decoded. Only a clean end is followed by the final events. */
  method PipeOpenAIStreamToAnthropic(input: seq<Option<Chunk>>, cleanEnd: bool, newId: int -> string)
    returns (written: seq<Event>, result: StreamResult)
    ensures var chunks := Decoded(input);
      && written == (if cleanEnd then Convert(chunks, newId) else RunChunks(chunks, newId).1)
      && result == Collected(chunks).(usage := RecordedUsage(chunks, cleanEnd))
      && (if cleanEnd && Usages(chunks) != []
          then result.usage.Some? && MergeAll(Converted(Usages(chunks))).Some?
               && Accounts(result.usage.value, MergeAll(Converted(Usages(chunks))).value)
          else result.usage == LastUsage(chunks))
  {
    hide OpenAIToAnthropicState.Valid, ChunkStep, LastFinish, LastUsage, Content, Decoded, RunChunks,
        INITIAL, MergeAll, Reports;
    NothingYet(newId);
    written := [];
    result := StreamResult("", "", None);
    var isFirst := true;
    var state := new OpenAIToAnthropicState();
    var i := 0;
    assert input[..0] == [];
    while i < |input|
      invariant 0 <= i <= |input|
      invariant state.Valid() && fresh(state) && fresh(state.toolBlocks.Values)
      invariant state.pendingUsage == null || fresh(state.pendingUsage)
      invariant isFirst <==> Decoded(input[..i]) == []
      invariant (state.Model(), written) == RunChunks(Decoded(input[..i]), newId)
      invariant result == Collected(Decoded(input[..i]))
    {
      DecodedSnoc(input, i);
      if input[i].Some? {
        var chunk := input[i].value;
        RunChunksSnoc(Decoded(input[..i]), chunk, newId);
        result := Collect(result, chunk, Decoded(input[..i]));
        var events := state.OpenAIChunkToAnthropicEvents(chunk, isFirst, newId);
        written := written + events;
        isFirst := false;
      }
      i := i + 1;
    }
    assert input[..|input|] == input;
    RecordAccounts(Decoded(input), cleanEnd);
    if cleanEnd {
      var final, usage := FinishPipe(state, Decoded(input), newId);
      written := written + final;
      if usage.Some? { result := result.(usage := usage); }
    }
  }

  /** The end of the stream: the last events, and the merged usage if there was any. */
  method FinishPipe(state: OpenAIToAnthropicState, ghost chunks: seq<Chunk>, newId: int -> string)
    returns (events: seq<Event>, usage: Option<OpenAiUsage>)
    requires state.Valid() && state.Model() == RunChunks(chunks, newId).0
    modifies state, state.toolBlocks.Values
    ensures RunChunks(chunks, newId).1 + events == Convert(chunks, newId)
    ensures usage == if MergeAll(Reports(chunks)).Some? then Some(ToOpenAi(MergeAll(Reports(chunks)).value)) else None
  {
    hide OpenAIToAnthropicState.Valid, RunChunks, MergeAll, Reports, Settle;
    PendingUsage(chunks, newId);
    events := state.OpenAIStreamFinalize(newId);
    usage := None;
    if events != [] {
      if state.pendingUsage != null { usage := Some(ToOpenAi(state.pendingUsage.Value())); }
    }
  }

  lemma NothingYet(newId: int -> string)
    ensures Decoded([]) == [] && RunChunks([], newId) == (INITIAL, []) && Collected([]) == StreamResult("", "", None)
  {
  }

  lemma DecodedSnoc(input: seq<Option<Chunk>>, i: nat)
    requires i < |input|
    ensures Decoded(input[..i + 1]) ==
            if input[i].Some? then Decoded(input[..i]) + [input[i].value] else Decoded(input[..i])
  {
    assert input[..i + 1][..i] == input[..i];
  }

  lemma RunChunksSnoc(chunks: seq<Chunk>, chunk: Chunk, newId: int -> string)
    ensures var (st, events) := RunChunks(chunks, newId);
      var (st', more) := ChunkStep(st, chunk, chunks == [], newId);
      RunChunks(chunks + [chunk], newId) == (st', events + more)
  {
    hide ChunkStep;
    assert (chunks + [chunk])[..|chunks|] == chunks;
  }

  /** At the end of the chunks the pending usage is the merge of all reports, and the final
      events have not been sent. */
  lemma PendingUsage(chunks: seq<Chunk>, newId: int -> string)
    ensures RunChunks(chunks, newId).0.usage == MergeAll(Reports(chunks))
    ensures !RunChunks(chunks, newId).0.deltaEmitted
    ensures Reports(chunks) != [] ==> MergeAll(Reports(chunks)).Some?
    ensures Finalize(RunChunks(chunks, newId).0, newId).1 != []
  {
    if chunks != [] {
      RunChunksShape(chunks, newId);
    }
  }

  // ----- Anthropic to OpenAI -----

  /** `currentBlock` stands for the type, id and name the program keeps of the current block. */
  class AnthropicToOpenAIState {
    var currentBlock: Option<BlockHead>
    var toolCallIndex: nat
    var chunkId: string

    constructor ()
      ensures Model() == FRESH
    {
      currentBlock, toolCallIndex, chunkId := None, 0, "";
    }

    function Model(): Reverse
      reads this
    {
      Reverse(currentBlock, toolCallIndex, chunkId)
    }

    method AnthropicEventToOpenAIChunk(event: Event, model: string, drawn: string) returns (line: Line)
      modifies this
      ensures (Model(), line) == Emit(old(Model()), event, model, drawn)
    {
      if chunkId == "" { chunkId := "chatcmpl-" + drawn; }
      match event {
        case MessageStart(_, _, _) =>
          return DeltaChunk(chunkId, model, Delta("", []));
        case ContentBlockStart(_, head) =>
          currentBlock := Some(head);
          if head.ToolUseHead? {
            return DeltaChunk(chunkId, model, Delta("", [ToolCall(Some(toolCallIndex), head.id, head.name, "")]));
          }
        case ContentBlockDelta(_, fragment) =>
          if fragment.TextDelta? && fragment.text != "" {
            return DeltaChunk(chunkId, model, Delta(fragment.text, []));
          } else if fragment.InputJsonDelta? && fragment.partialJson != "" {
            return DeltaChunk(chunkId, model, Delta("", [ToolCall(Some(toolCallIndex), "", "", fragment.partialJson)]));
          }
        case ContentBlockStop(_) =>
          if currentBlock.Some? && currentBlock.value.ToolUseHead? { toolCallIndex := toolCallIndex + 1; }
          currentBlock := None;
        case MessageDelta(stop, usage) =>
          if stop.Some? {
            var reported := if usage.Some? then Some(ToOpenAi(usage.value)) else None;
            return ChunkLine(Chunk(chunkId, model, [Choice(Some(Delta("", [])), Some(OpenAiStopReason(stop.value)))],
                reported));
          }
        case MessageStop =>
          return DoneLine;
        case Ping =>
        case Other(_) =>
      }
      return Silence;
    }
  }

  /** The lines written for the events, without the silent ones. */
  function Lines(events: seq<Event>, model: string, drawn: string): seq<Line> {
    if events == [] then []
    else
      var n := |events| - 1;
      var line := Emit(Backward(events[..n], model, drawn).st, events[n], model, drawn).1;
      Lines(events[..n], model, drawn) + (if line.Silence? then [] else [line])
  }

  /** What a reader takes from the lines, up to the first end marker. */
  function Taken(lines: seq<Line>): (seq<Chunk>, bool) {
    if lines == [] then ([], false)
    else
      var (chunks, done) := Taken(lines[..|lines| - 1]);
      var last := lines[|lines| - 1];
      if done || last.Silence? then (chunks, done)
      else if last.DoneLine? then (chunks, true)
      else (chunks + [last.chunk], false)
  }

  lemma TakenSnoc(lines: seq<Line>, line: Line, t: Trace)
    requires Taken(lines) == (t.chunks, t.done)
    ensures Taken(lines + (if line.Silence? then [] else [line])) ==
        (Extend(t, line, t.st).chunks, Extend(t, line, t.st).done)
  {
    assert (lines + [line])[..|lines|] == lines;
    assert lines + [] == lines;
  }

  lemma {:induction false} LinesCarryTheChunks(events: seq<Event>, model: string, drawn: string)
    ensures var t := Backward(events, model, drawn);
      Taken(Lines(events, model, drawn)) == (t.chunks, t.done)
    decreases |events|
  {
    hide Emit, Taken;
    if events == [] {
      NothingTaken();
    } else {
      var n := |events| - 1;
      LinesCarryTheChunks(events[..n], model, drawn);
      var before := Backward(events[..n], model, drawn);
      TakenSnoc(Lines(events[..n], model, drawn), Emit(before.st, events[n], model, drawn).1, before);
    }
  }

  lemma NothingTaken()
    ensures Taken([]) == ([], false)
  {
  }

  /** The text the events carry. */
  function Said(events: seq<Event>): string {
    if events == [] then ""
    else
      var last := events[|events| - 1];
      Said(events[..|events| - 1]) +
      (if last.ContentBlockDelta? && last.fragment.TextDelta? then last.fragment.text else "")
  }

  lemma LineSays(st: Reverse, e: Event, model: string, drawn: string)
    ensures var line := Emit(st, e, model, drawn).1;
      (if line.ChunkLine? then TextOf(line.chunk) else "") ==
      if e.ContentBlockDelta? && e.fragment.TextDelta? then e.fragment.text else ""
  {
  }

  lemma DoneSticks(events: seq<Event>, model: string, drawn: string)
    requires events != [] && !Backward(events, model, drawn).done
    ensures !Backward(events[..|events| - 1], model, drawn).done
  {
    hide Emit;
  }

  /** Nothing said is lost on the way: the chunks sent to the client carry exactly the text of
      the events, whatever the events are, as long as the message has not ended before. */
  lemma {:induction false} SaidIsForwarded(events: seq<Event>, model: string, drawn: string)
    requires events != [] ==> !Backward(events[..|events| - 1], model, drawn).done
    ensures Content(Backward(events, model, drawn).chunks) == Said(events)
    decreases |events|
  {
    hide TextOf, Emit;
    if events != [] {
      var n := |events| - 1;
      var before := Backward(events[..n], model, drawn);
      if n > 0 { DoneSticks(events[..n], model, drawn); }
      SaidIsForwarded(events[..n], model, drawn);
      var line := Emit(before.st, events[n], model, drawn).1;
      LineSays(before.st, events[n], model, drawn);
      if line.ChunkLine? { assert (before.chunks + [line.chunk])[..|before.chunks|] == before.chunks; }
    }
  }

  /** The record after the report of a message delta. */
  function Recorded(before: Option<AnthropicUsage>, report: AnthropicUsage): AnthropicUsage {
    if before.None? then report else before.value.(output := Newer(before.value.output, report.output))
  }

  /** The token counts recorded for the stream: those of the message start, with the last
      positive output count of the message deltas; without a message start, the first delta's. */
  function Counted(events: seq<Event>): Option<AnthropicUsage> {
    if events == [] then None
    else
      var before := Counted(events[..|events| - 1]);
      match events[|events| - 1]
      case MessageStart(_, _, Some(usage)) => Some(usage)
      case MessageDelta(_, Some(usage)) =>
        Some(Recorded(before, usage))
      case _ => before
  }

  lemma CountedSnoc(events: seq<Event>, e: Event)
    ensures !(e.MessageStart? && e.usage.Some?) && !(e.MessageDelta? && e.finalUsage.Some?) ==>
      Counted(events + [e]) == Counted(events)
    ensures e.MessageStart? && e.usage.Some? ==> Counted(events + [e]) == e.usage
    ensures e.MessageDelta? && e.finalUsage.Some? ==>
      Counted(events + [e]) == Some(Recorded(Counted(events), e.finalUsage.value))
  {
    assert (events + [e])[..|events|] == events;
  }

  lemma {:induction false} BodyCountsNothing(start: Event, body: seq<Event>)
    requires start.MessageStart? && FollowAll(body).Some?
    ensures Counted([start] + body) == start.usage
    decreases |body|
  {
    hide Counted;
    if body == [] {
      NothingHeard();
      CountedSnoc([], start);
      assert [start] + body == [] + [start];
    } else {
      var init, e := body[..|body| - 1], body[|body| - 1];
      BodyCountsNothing(start, init);
      CountedSnoc([start] + init, e);
      assert [start] + body == ([start] + init) + [e];
    }
  }

  /** The record of a sequential stream holds the counts of the message start and the last
      positive output count: what a direct client holds exactly when the message delta tells no
      other new count. When the start has no counts, the record is the message delta's report,
      and a direct client holds the same unless a count is negative. */
  lemma RecordedIsHeldIff(start: Event, body: seq<Event>, stop: string, usage: Option<AnthropicUsage>)
    requires start.MessageStart? && FollowAll(body).Some? && !FollowAll(body).value.open
    ensures var message := Message(start, body, stop, usage);
      var last := usage.GetOr(NO_USAGE);
      && Counted(message) == (if usage.Some? then Some(Recorded(start.usage, last)) else start.usage)
      && Read(message).Complete?
      && (Counted(message).GetOr(NO_USAGE) == Read(message).header.usage <==>
            if start.usage.Some? then
              && (last.input > 0 ==> last.input == start.usage.value.input)
              && (last.cacheCreation > 0 ==> last.cacheCreation == start.usage.value.cacheCreation)
              && (last.cacheRead > 0 ==> last.cacheRead == start.usage.value.cacheRead)
            else last.input >= 0 && last.output >= 0 && last.cacheCreation >= 0 && last.cacheRead >= 0)
  {
    hide Counted, Read, FollowAll;
    ReadDirect(start, body, stop, usage);
    BodyCountsNothing(start, body);
    CountedSnoc([start] + body, MessageDelta(Some(stop), usage));
    CountedSnoc(([start] + body) + [MessageDelta(Some(stop), usage)], MessageStop);
  }

  const GREETING := [
    ContentBlockStart(0, TextHead), Ping, ContentBlockDelta(0, TextDelta("Hello")),
    ContentBlockDelta(0, TextDelta("!")), ContentBlockStop(0)]

  lemma FollowSnoc(events: seq<Event>, e: Event)
    requires FollowAll(events).Some?
    ensures FollowAll(events + [e]) == Follow(FollowAll(events).value, e)
  {
    assert (events + [e])[..|events|] == events;
  }

  lemma FollowText(body: string, text: string)
    ensures Follow(Reading([Source(TextHead, body)], true), ContentBlockDelta(0, TextDelta(text))) ==
            Some(Reading([Source(TextHead, body + text)], true))
  {
    assert [Source(TextHead, body)][0 := Source(TextHead, body + text)] == [Source(TextHead, body + text)];
  }

  lemma GreetingFollowed()
    ensures FollowAll(GREETING) == Some(Reading([Source(TextHead, "Hello!")], false))
  {
    hide FollowAll;
    NothingFollowed();
    var one := [] + [GREETING[0]];
    FollowSnoc([], GREETING[0]);
    assert [] + [Source(TextHead, "")] == [Source(TextHead, "")];
    assert FollowAll(one) == Some(Reading([Source(TextHead, "")], true));
    var two := one + [GREETING[1]];
    FollowSnoc(one, GREETING[1]);
    var three := two + [GREETING[2]];
    FollowSnoc(two, GREETING[2]);
    FollowText("", "Hello");
    FollowSnoc(three, GREETING[3]);
    var four := three + [GREETING[3]];
    FollowText("" + "Hello", "!");
    assert FollowAll(four) == Some(Reading([Source(TextHead, ("" + "Hello") + "!")], true));
    FollowSnoc(four, GREETING[4]);
    assert ("" + "Hello") + "!" == "Hello!" && GREETING == four + [GREETING[4]];
  }

  lemma NothingFollowed()
    ensures FollowAll([]) == Some(Reading([], false))
  {
  }

  /** The most ordinary stream: the start tells 25 input tokens and one output token, the end
      15 output tokens. The record and a direct client count 25 and 15, the client behind both
      conversions counts no input. */
  lemma StartCountsAreLost(id: string, upstream: string, model: string, drawn: string, newId: int -> string)
    requires forall key :: newId(key) != ""
    ensures var start := MessageStart(id, upstream, Some(AnthropicUsage(25, 1, 0, 0)));
      var message := Message(start, GREETING, "end_turn", Some(AnthropicUsage(0, 15, 0, 0)));
      var far := Read(Convert(Backward(message, model, drawn).chunks, newId));
      var direct := Read(message);
      && Counted(message) == Some(AnthropicUsage(25, 15, 0, 0))
      && direct.Complete? && direct.header.usage == AnthropicUsage(25, 15, 0, 0)
      && far.Complete? && far.header.usage == AnthropicUsage(0, 15, 0, 0)
      && far.blocks == direct.blocks && far.stopReason == direct.stopReason
      && !SameMessage(far, direct)
  {
    hide Counted, Read, Convert, Backward, FollowAll, Message, Delivered, Normal, Blocks, AnthropicStopReason,
         OpenAiStopReason, GREETING, Carried, Updated, Recorded;
    var start := MessageStart(id, upstream, Some(AnthropicUsage(25, 1, 0, 0)));
    var usage := Some(AnthropicUsage(0, 15, 0, 0));
    GreetingFollowed();
    RoundTrip(start, GREETING, "end_turn", usage, model, drawn, newId);
    ReadDirect(start, GREETING, "end_turn", usage);
    RecordedIsHeldIff(start, GREETING, "end_turn", usage);
    StopReasonRoundTrip("end_turn");
    GreetingKept(newId);
    GreetingCounts();
  }

  lemma GreetingCounts()
    ensures var start, end := AnthropicUsage(25, 1, 0, 0), AnthropicUsage(0, 15, 0, 0);
      && Recorded(Some(start), end) == Updated(start, Some(end)) == AnthropicUsage(25, 15, 0, 0)
      && Carried(end) == AnthropicUsage(0, 15, 0, 0)
  {
  }

  lemma GreetingKept(newId: int -> string)
    requires forall key :: newId(key) != ""
    ensures var blocks := [Source(TextHead, "Hello!")]; Delivered(Normal(blocks), newId) == Blocks(blocks)
  {
    SameBlocksIff([Source(TextHead, "Hello!")], newId);
  }

  /** The last stop reason that was given. */
  function ReasonGiven(events: seq<Event>): string {
    if events == [] then ""
    else
      match events[|events| - 1]
      case MessageDelta(Some(stop), _) => stop
      case _ => ReasonGiven(events[..|events| - 1])
  }

  lemma {:induction false} ReasonIsLast(events: seq<Event>, k: nat)
    requires k < |events| && events[k].MessageDelta? && events[k].stopReason.Some?
    requires forall j | k < j < |events| :: !(events[j].MessageDelta? && events[j].stopReason.Some?)
    ensures Some(ReasonGiven(events)) == events[k].stopReason
    decreases |events|
  {
    if k < |events| - 1 { ReasonIsLast(events[..|events| - 1], k); }
  }

  /** The output count after the message deltas among `events`. */
  function LastOutput(known: int, events: seq<Event>): int {
    if events == [] then known
    else
      match events[|events| - 1]
      case MessageDelta(_, Some(usage)) =>
        if usage.output > 0 then usage.output else LastOutput(known, events[..|events| - 1])
      case _ => LastOutput(known, events[..|events| - 1])
  }

  /** What is counted in a stream of any shape: from the last message start with counts on, its
      counts with the last positive output; without one, from the first message delta with
      counts on, that delta's counts likewise. */
  lemma {:induction false} CountedFrom(before: seq<Event>, e: Event, after: seq<Event>)
    requires forall f | f in after :: !(f.MessageStart? && f.usage.Some?)
    ensures e.MessageStart? && e.usage.Some? ==>
              Counted(before + [e] + after) ==
              Some(e.usage.value.(output := LastOutput(e.usage.value.output, after)))
    ensures e.MessageDelta? && e.finalUsage.Some? && Counted(before) == None ==>
              Counted(before + [e] + after) ==
              Some(e.finalUsage.value.(output := LastOutput(e.finalUsage.value.output, after)))
    decreases |after|
  {
    if after == [] {
      assert before + [e] + after == before + [e];
      CountedSnoc(before, e);
    } else {
      var init, last := after[..|after| - 1], after[|after| - 1];
      assert last in after;
      assert before + [e] + after == (before + [e] + init) + [last];
      CountedFrom(before, e, init);
      CountedSnoc(before + [e] + init, last);
    }
  }

  lemma {:induction false} NothingCounted(events: seq<Event>)
    ensures Counted(events) == None <==>
            forall e | e in events :: !(e.MessageStart? && e.usage.Some?) && !(e.MessageDelta? && e.finalUsage.Some?)
    decreases |events|
  {
    if events != [] {
      NothingCounted(events[..|events| - 1]);
      assert events == events[..|events| - 1] + [events[|events| - 1]];
    }
  }

  function Heard(events: seq<Event>): StreamResult {
    StreamResult(Said(events), ReasonGiven(events),
                 if Counted(events).Some? then Some(ToOpenAi(Counted(events).value)) else None)
  }

  /** The accumulation beside the conversion. The output count is patched into the converted
      usage, together with the total. */
  method Hear(result: StreamResult, event: Event, ghost before: seq<Event>) returns (next: StreamResult)
    requires result == Heard(before)
    ensures next == Heard(before + [event])
  {
    assert (before + [event])[..|before|] == before;
    next := result;
    match event {
      case MessageStart(_, _, usage) =>
        if usage.Some? { next := next.(usage := Some(ToOpenAi(usage.value))); }
      case ContentBlockDelta(_, fragment) =>
        if fragment.TextDelta? { next := next.(content := next.content + fragment.text); }
      case MessageDelta(stop, usage) =>
        if stop.Some? { next := next.(finishReason := stop.value); }
        if usage.Some? {
          if next.usage.None? {
            next := next.(usage := Some(ToOpenAi(usage.value)));
          } else if usage.value.output > 0 {
            var known := next.usage.value;
            next := next.(usage := Some(OpenAiUsage(known.prompt, usage.value.output,
                                                    known.prompt + usage.value.output, known.details)));
          }
        }
      case _ =>
    }
  }

  /** `input` is what the reader returned before the end of the stream or an error. */
  method PipeAnthropicStreamToOpenAI(input: seq<Event>, cleanEnd: bool, model: string, drawn: string)
    returns (written: seq<Line>, result: StreamResult)
    ensures written == Lines(input, model, drawn) + (if cleanEnd then [DoneLine] else [])
    ensures result == Heard(input)
    ensures result.usage.Some? <==> Counted(input).Some?
    ensures result.usage.Some? ==> Accounts(result.usage.value, Counted(input).value)
  {
    hide Emit, Said, ReasonGiven, Counted;
    written := [];
    result := StreamResult("", "", None);
    NothingHeard();
    var state := new AnthropicToOpenAIState();
    var i := 0;
    assert input[..0] == [];
    while i < |input|
      invariant 0 <= i <= |input|
      invariant fresh(state) && state.Model() == Backward(input[..i], model, drawn).st
      invariant written == Lines(input[..i], model, drawn)
      invariant result == Heard(input[..i])
    {
      assert input[..i + 1][..i] == input[..i] && input[..i + 1] == input[..i] + [input[i]];
      var line := state.AnthropicEventToOpenAIChunk(input[i], model, drawn);
      if !line.Silence? { written := written + [line]; }
      result := Hear(result, input[i], input[..i]);
      i := i + 1;
    }
    assert input[..|input|] == input;
    if Counted(input).Some? { ToOpenAiAccounts(Counted(input).value); }
    if cleanEnd { written := written + [DoneLine]; }
  }

  lemma NothingHeard()
    ensures Heard([]) == StreamResult("", "", None) && Counted([]) == None
  {
  }
}
