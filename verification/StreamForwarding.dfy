/**
 What the Anthropic-to-OpenAI conversion forwards, for all events and not only for well-formed
 messages: every tool call, stop reason and usage report, read off the events themselves.
 */
module StreamForwarding {
  import opened Wrappers
  import opened TokenUsage
  import opened StreamProtocol
  import opened StreamMeaning
  import opened ReverseStream

  // ----- What the events carry -----

  /** The block that was started last and not stopped. */
  function Block(events: seq<Event>): Option<BlockHead> {
    if events == [] then None
    else
      match events[|events| - 1]
      case ContentBlockStart(_, head) => Some(head)
      case ContentBlockStop(_) => None
      case _ => Block(events[..|events| - 1])
  }

  /** The tool blocks that were stopped. */
  function ToolsDone(events: seq<Event>): nat {
    if events == [] then 0
    else
      var init := events[..|events| - 1];
      ToolsDone(init) +
      (if events[|events| - 1].ContentBlockStop? && Block(init).Some? && Block(init).value.ToolUseHead? then 1 else 0)
  }

  /** The start of each tool block and every piece of tool input, numbered by tool block. */
  function ToolCalls(events: seq<Event>): seq<ToolCall> {
    if events == [] then []
    else
      var init := events[..|events| - 1];
      ToolCalls(init) +
      match events[|events| - 1]
      case ContentBlockStart(_, ToolUseHead(id, name)) => [ToolCall(Some(ToolsDone(init)), id, name, "")]
      case ContentBlockDelta(_, InputJsonDelta(json)) =>
        if json == "" then [] else [ToolCall(Some(ToolsDone(init)), "", "", json)]
      case _ => []
  }

  /** The stop reasons, in order. */
  function StopReasons(events: seq<Event>): seq<string> {
    if events == [] then []
    else
      var last := events[|events| - 1];
      StopReasons(events[..|events| - 1]) +
      (if last.MessageDelta? && last.stopReason.Some? then [last.stopReason.value] else [])
  }

  /** The counts told together with a stop reason, in order. */
  function UsagesTold(events: seq<Event>): seq<AnthropicUsage> {
    if events == [] then []
    else
      var last := events[|events| - 1];
      UsagesTold(events[..|events| - 1]) +
      (if last.MessageDelta? && last.stopReason.Some? && last.finalUsage.Some? then [last.finalUsage.value] else [])
  }

  // ----- What the chunks carry -----

  function CallsOf(chunks: seq<Chunk>): seq<ToolCall> {
    if chunks == [] then [] else CallsOf(chunks[..|chunks| - 1]) + CallsIn(chunks[|chunks| - 1])
  }

  function FinishReasons(chunks: seq<Chunk>): seq<string> {
    if chunks == [] then []
    else
      var last := chunks[|chunks| - 1];
      FinishReasons(chunks[..|chunks| - 1]) +
      (if last.choices != [] && last.choices[0].finishReason.Some? then [last.choices[0].finishReason.value] else [])
  }

  /** Each report of a chunk is the account of the counts told at its place. */
  ghost predicate AllAccount(reports: seq<OpenAiUsage>, told: seq<AnthropicUsage>) {
    |reports| == |told| && forall i | 0 <= i < |told| :: Accounts(reports[i], told[i])
  }

  function Images(reasons: seq<string>): seq<string> {
    seq(|reasons|, i requires 0 <= i < |reasons| => OpenAiStopReason(reasons[i]))
  }

  // ----- Nothing is lost or added -----

  /** The state is what the events have left open and finished. */
  lemma {:induction false} StateIsHistory(events: seq<Event>, model: string, drawn: string)
    ensures var st := Backward(events, model, drawn).st;
      st.current == Block(events) && st.toolCallIndex == ToolsDone(events)
    decreases |events|
  {
    if events != [] { StateIsHistory(events[..|events| - 1], model, drawn); }
  }

  /** What one event adds. */
  lemma OneForwarded(st: Reverse, e: Event, model: string, drawn: string)
    ensures var line := Emit(st, e, model, drawn).1;
      var calls := if line.ChunkLine? then CallsIn(line.chunk) else [];
      var reasons := if line.ChunkLine? then FinishReasons([line.chunk]) else [];
      var usage := if line.ChunkLine? then line.chunk.usage else None;
      && calls == (match e
                   case ContentBlockStart(_, ToolUseHead(id, name)) => [ToolCall(Some(st.toolCallIndex), id, name, "")]
                   case ContentBlockDelta(_, InputJsonDelta(json)) =>
                     if json == "" then [] else [ToolCall(Some(st.toolCallIndex), "", "", json)]
                   case _ => [])
      && reasons == (if e.MessageDelta? && e.stopReason.Some? then [OpenAiStopReason(e.stopReason.value)] else [])
      && (usage.Some? <==> e.MessageDelta? && e.stopReason.Some? && e.finalUsage.Some?)
      && (usage.Some? ==> Accounts(usage.value, e.finalUsage.value))
  {
    hide OpenAiStopReason, ToOpenAi;
    var line := Emit(st, e, model, drawn).1;
    if line.ChunkLine? {
      assert [line.chunk][..0] == [];
      assert FinishReasons([]) == [];
    }
    if e.MessageDelta? && e.finalUsage.Some? { ToOpenAiAccounts(e.finalUsage.value); }
  }

  lemma ChunksSnoc(chunks: seq<Chunk>, c: Chunk)
    ensures CallsOf(chunks + [c]) == CallsOf(chunks) + CallsIn(c)
    ensures FinishReasons(chunks + [c]) == FinishReasons(chunks) + FinishReasons([c])
    ensures Usages(chunks + [c]) == Usages(chunks) + (if c.usage.Some? then [c.usage.value] else [])
  {
    assert (chunks + [c])[..|chunks|] == chunks && [c][..0] == [];
    assert FinishReasons([]) == [];
  }

  lemma NotDoneBefore(events: seq<Event>, model: string, drawn: string)
    requires events != [] && !Backward(events, model, drawn).done
    ensures !Backward(events[..|events| - 1], model, drawn).done
  {
    hide Emit;
  }

  /** The chunks carry exactly the tool calls, the images of the stop reasons and the accounts
      of the counts told, in order. */
  ghost predicate Carries(chunks: seq<Chunk>, events: seq<Event>) {
    && CallsOf(chunks) == ToolCalls(events)
    && FinishReasons(chunks) == Images(StopReasons(events))
    && AllAccount(Usages(chunks), UsagesTold(events))
  }

  lemma OneMoreCarried(t: Trace, events: seq<Event>, e: Event, model: string, drawn: string)
    requires Carries(t.chunks, events) && !t.done && t.st.toolCallIndex == ToolsDone(events)
    ensures var (st, line) := Emit(t.st, e, model, drawn); Carries(Extend(t, line, st).chunks, events + [e])
  {
    hide Emit, CallsIn, CallsOf, FinishReasons, Usages, OpenAiStopReason, Accounts, Block, ToolsDone, Images;
    OneForwarded(t.st, e, model, drawn);
    assert (events + [e])[..|events|] == events;
    var line := Emit(t.st, e, model, drawn).1;
    if line.ChunkLine? { ChunksSnoc(t.chunks, line.chunk); }
    assert StopReasons(events) + [] == StopReasons(events);
    ImagesSnoc(StopReasons(events), if e.MessageDelta? then e.stopReason else None);
  }

  /** For all events, up to the end of the message. */
  lemma {:induction false} AllForwarded(events: seq<Event>, model: string, drawn: string)
    requires events != [] ==> !Backward(events[..|events| - 1], model, drawn).done
    ensures Carries(Backward(events, model, drawn).chunks, events)
    decreases |events|
  {
    hide Emit, Carries;
    if events == [] {
      NothingForwarded(model, drawn);
    } else {
      var n := |events| - 1;
      if n > 0 { NotDoneBefore(events[..n], model, drawn); }
      AllForwarded(events[..n], model, drawn);
      StateIsHistory(events[..n], model, drawn);
      assert events == events[..n] + [events[n]];
      OneMoreCarried(Backward(events[..n], model, drawn), events[..n], events[n], model, drawn);
    }
  }

  lemma ImagesSnoc(reasons: seq<string>, more: Option<string>)
    ensures Images(reasons + (if more.Some? then [more.value] else [])) ==
            Images(reasons) + (if more.Some? then [OpenAiStopReason(more.value)] else [])
  {
  }

  lemma NothingForwarded(model: string, drawn: string)
    ensures Backward([], model, drawn).chunks == [] && Carries([], [])
  {
  }
}
