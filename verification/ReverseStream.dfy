/** The Anthropic-to-OpenAI stream conversion as a machine over values. */
module ReverseStream {
  import opened Wrappers
  import opened TokenUsage
  import opened StreamProtocol

  /** `current` is the head of the block being streamed; `chunkId` is empty until the first event. */
  datatype Reverse = Reverse(current: Option<BlockHead>, toolCallIndex: nat, chunkId: string)

  const FRESH := Reverse(None, 0, "")

  /** One event becomes nothing, a chunk, or the end marker. */
  datatype Line = Silence | ChunkLine(chunk: Chunk) | DoneLine

  function DeltaChunk(id: string, model: string, delta: Delta): Line {
    ChunkLine(Chunk(id, model, [Choice(Some(delta), None)], None))
  }

  /** The chunk id is drawn at the first event and kept. */
  function Identify(st: Reverse, drawn: string): Reverse {
    if st.chunkId == "" then st.(chunkId := "chatcmpl-" + drawn) else st
  }

  function Emit(st0: Reverse, e: Event, model: string, drawn: string): (Reverse, Line) {
    var st := Identify(st0, drawn);
    match e
    case MessageStart(_, _, _) => (st, DeltaChunk(st.chunkId, model, Delta("", [])))
    case ContentBlockStart(_, head) =>
      (st.(current := Some(head)),
       if head.ToolUseHead?
       then DeltaChunk(st.chunkId, model, Delta("", [ToolCall(Some(st.toolCallIndex), head.id, head.name, "")]))
       else Silence)
    case ContentBlockDelta(_, TextDelta(text)) =>
      (st, if text != "" then DeltaChunk(st.chunkId, model, Delta(text, [])) else Silence)
    case ContentBlockDelta(_, InputJsonDelta(json)) =>
      (st, if json != ""
           then DeltaChunk(st.chunkId, model, Delta("", [ToolCall(Some(st.toolCallIndex), "", "", json)]))
           else Silence)
    case ContentBlockDelta(_, _) => (st, Silence)
    case ContentBlockStop(_) =>
      (Reverse(None,
               st.toolCallIndex + (if st.current.Some? && st.current.value.ToolUseHead? then 1 else 0),
               st.chunkId), Silence)
    case MessageDelta(stop, usage) =>
      (st, if stop.None? then Silence
           else ChunkLine(Chunk(st.chunkId, model, [Choice(Some(Delta("", [])), Some(OpenAiStopReason(stop.value)))],
                                if usage.Some? then Some(ToOpenAi(usage.value)) else None)))
    case MessageStop => (st, DoneLine)
    case Ping => (st, Silence)
    case Other(_) => (st, Silence)
  }

  /** The state after the events and the chunks a reader takes from the lines: it stops
      reading at the first end marker. */
  datatype Trace = Trace(st: Reverse, chunks: seq<Chunk>, done: bool)

  function Extend(t: Trace, line: Line, st: Reverse): Trace {
    match line
    case Silence => Trace(st, t.chunks, t.done)
    case ChunkLine(chunk) => Trace(st, if t.done then t.chunks else t.chunks + [chunk], t.done)
    case DoneLine => Trace(st, t.chunks, true)
  }

  function Backward(events: seq<Event>, model: string, drawn: string): Trace {
    if events == [] then Trace(FRESH, [], false)
    else
      var before := Backward(events[..|events| - 1], model, drawn);
      var (st, line) := Emit(before.st, events[|events| - 1], model, drawn);
      Extend(before, line, st)
  }

  /** All chunks of a stream carry the same id, whatever is drawn, and the requested model. */
  lemma {:induction false} OneChunkId(events: seq<Event>, model: string, drawn: string)
    ensures events != [] ==> Backward(events, model, drawn).st.chunkId == "chatcmpl-" + drawn
    ensures forall c | c in Backward(events, model, drawn).chunks :: c.id == "chatcmpl-" + drawn && c.model == model
    decreases |events|
  {
    if events != [] {
      OneChunkId(events[..|events| - 1], model, drawn);
    }
  }
}
