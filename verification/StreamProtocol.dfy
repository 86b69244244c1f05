/**
 The two streaming formats as data, and a client of the Anthropic one.

 Chunks and events stand for the decoded JSON payloads. The client is the reference reader
 of the Anthropic protocol: it assembles content blocks and turns into `Violation` at the
 first event that breaks the protocol's bracketing.
 */
module StreamProtocol {
  import opened Wrappers
  import opened TokenUsage

  // ----- OpenAI chunks -----

  datatype ToolCall = ToolCall(index: Option<int>, id: string, name: string, arguments: string) {
    /** A missing index means the first tool call. */
    function Key(): int { index.GetOr(0) }

    predicate Empty() { id == "" && name == "" && arguments == "" }
  }

  datatype Delta = Delta(content: string, toolCalls: seq<ToolCall>)

  datatype Choice = Choice(delta: Option<Delta>, finishReason: Option<string>)

  datatype Chunk = Chunk(id: string, model: string, choices: seq<Choice>, usage: Option<OpenAiUsage>)

  // ----- Anthropic events -----

  datatype BlockHead = TextHead | ToolUseHead(id: string, name: string) | ThinkingHead | OtherHead(kind: string)

  datatype Fragment =
    | TextDelta(text: string)
    | InputJsonDelta(partialJson: string)
    | ThinkingDelta(thinking: string)
    | SignatureDelta(signature: string)
  {
    /** What the fragment adds to the body of its block. */
    function Payload(): string {
      match this
      case TextDelta(s) => s
      case InputJsonDelta(s) => s
      case ThinkingDelta(s) => s
      case SignatureDelta(_) => ""
    }

    predicate Fits(head: BlockHead) {
      match this
      case TextDelta(_) => head.TextHead?
      case InputJsonDelta(_) => head.ToolUseHead?
      case _ => head.ThinkingHead?
    }
  }

  datatype Event =
    | MessageStart(id: string, model: string, usage: Option<AnthropicUsage>)  // without a payload: "", "", None
    | ContentBlockStart(index: int, head: BlockHead)
    | ContentBlockDelta(index: int, fragment: Fragment)
    | ContentBlockStop(index: int)
    | MessageDelta(stopReason: Option<string>, finalUsage: Option<AnthropicUsage>)
    | MessageStop
    | Ping
    | Other(kind: string)  // `error`, unknown kinds, and other events whose payload is missing

  // ----- Stop reasons -----

  function AnthropicStopReason(reason: string): string {
    match reason
    case "stop" => "end_turn"
    case "length" => "max_tokens"
    case "tool_calls" => "tool_use"
    case "function_call" => "tool_use"
    case _ => "end_turn"
  }

  function OpenAiStopReason(reason: string): string {
    match reason
    case "end_turn" => "stop"
    case "max_tokens" => "length"
    case "tool_use" => "tool_calls"
    case "stop_sequence" => "stop"
    case _ => "stop"
  }

  /** The tables, for every reason there is. */
  lemma StopReasonTables(reason: string)
    ensures AnthropicStopReason(reason) == "max_tokens" <==> reason == "length"
    ensures AnthropicStopReason(reason) == "tool_use" <==> reason == "tool_calls" || reason == "function_call"
    ensures reason !in {"length", "tool_calls", "function_call"} ==> AnthropicStopReason(reason) == "end_turn"
    ensures OpenAiStopReason(reason) == "length" <==> reason == "max_tokens"
    ensures OpenAiStopReason(reason) == "tool_calls" <==> reason == "tool_use"
    ensures reason !in {"max_tokens", "tool_use"} ==> OpenAiStopReason(reason) == "stop"
  {
  }

  /** Exactly three Anthropic stop reasons survive the trip through the OpenAI format. */
  lemma StopReasonRoundTrip(reason: string)
    ensures AnthropicStopReason(OpenAiStopReason(reason)) == reason <==>
        reason in {"end_turn", "max_tokens", "tool_use"}
    ensures OpenAiStopReason(AnthropicStopReason(reason)) == reason <==> reason in {"stop", "length", "tool_calls"}
  {
  }

  // ----- The client -----

  /** A content block as the client has it so far. */
  datatype Received = Received(head: BlockHead, body: string, open: bool)

  /** The message without its content. */
  datatype Header = Header(id: string, model: string, usage: AnthropicUsage)

  datatype Client =
    | Waiting
    | Streaming(header: Header, blocks: map<int, Received>)
    | Stopped(header: Header, blocks: map<int, Received>, stopReason: Option<string>)
    | Complete(header: Header, blocks: map<int, Received>, stopReason: Option<string>)
    | Violation

  predicate AllClosed(blocks: map<int, Received>) {
    forall i | i in blocks :: !blocks[i].open
  }

  /** The client's reaction to one event. A message starts once and first; a block index is
      used once; deltas and stops fall between the start and the stop of their block and fit
      its kind; the message delta comes after every block is closed, and once. Its token counts
      update those of the message start. */
  function Feed(c: Client, e: Event): Client {
    if e.Ping? || e.Other? then c
    else match c
      case Waiting =>
        if e.MessageStart? then Streaming(Header(e.id, e.model, e.usage.GetOr(NO_USAGE)), map[]) else Violation
      case Streaming(header, blocks) =>
        (match e
         case ContentBlockStart(i, head) =>
           if i in blocks then Violation else Streaming(header, blocks[i := Received(head, "", true)])
         case ContentBlockDelta(i, f) =>
           if i in blocks && blocks[i].open && f.Fits(blocks[i].head)
           then Streaming(header, blocks[i := blocks[i].(body := blocks[i].body + f.Payload())])
           else Violation
         case ContentBlockStop(i) =>
           if i in blocks && blocks[i].open
           then Streaming(header, blocks[i := blocks[i].(open := false)])
           else Violation
         case MessageDelta(stop, usage) =>
           if AllClosed(blocks)
           then Stopped(header.(usage := Updated(header.usage, usage)), blocks, stop)
           else Violation
         case _ => Violation)
      case Stopped(header, blocks, stop) => if e.MessageStop? then Complete(header, blocks, stop) else Violation
      case Complete(_, _, _) => Violation
      case Violation => Violation
  }

  function FeedAll(c: Client, events: seq<Event>): Client {
    if events == [] then c
    else Feed(FeedAll(c, events[..|events| - 1]), events[|events| - 1])
  }

  /** What a client holds after a whole stream. */
  function Read(events: seq<Event>): Client { FeedAll(Waiting, events) }

  lemma {:induction false} FeedAppend(c: Client, a: seq<Event>, b: seq<Event>)
    ensures FeedAll(c, a + b) == FeedAll(FeedAll(c, a), b)
    decreases |b|
  {
    if b == [] {
      assert a + b == a;
    } else {
      var n := |b| - 1;
      FeedAppend(c, a, b[..n]);
      assert (a + b)[..|a + b| - 1] == a + b[..n];
    }
  }

  lemma {:induction false} ViolationSticks(events: seq<Event>)
    ensures FeedAll(Violation, events) == Violation
    decreases |events|
  {
    if events != [] {
      ViolationSticks(events[..|events| - 1]);
    }
  }
}
