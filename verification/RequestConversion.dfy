/**
 The message part of the two request conversions, as the program's loops and as functions.
 `canon` stands for decoding a text as JSON and encoding the value again: nothing for a text
 that is not JSON, and for null.
 */
module RequestConversion {
  import opened Wrappers
  import opened RequestFormat

  // ----- OpenAI to Anthropic -----

  function ConvertPart(part: Block): Option<Block> {
    match part
    case TextBlock(text) => if text != "" then Some(part) else None
    case ImageUrl(url) => ImageOf(url)
    case _ => None
  }

  function ConvertParts(parts: seq<Block>): seq<Block> {
    if parts == [] then []
    else
      var last := ConvertPart(parts[|parts| - 1]);
      ConvertParts(parts[..|parts| - 1]) + (if last.Some? then [last.value] else [])
  }

  function UserContent(content: Content): Content {
    match content
    case Nil => Str("")
    case Str(s) => content
    case Blocks(parts) =>
      if parts == [] then content
      else if ConvertParts(parts) == [] then Nil
      else Blocks(ConvertParts(parts))
  }

  /** The block as it is encoded: an empty name is left out. */
  function UseBlock(call: Call, canon: string -> Option<string>): Block {
    ToolUse(call.id, if call.name == "" then None else Some(call.name), canon(call.arguments))
  }

  function UseBlocks(calls: seq<Call>, canon: string -> Option<string>): seq<Block> {
    seq(|calls|, i requires 0 <= i < |calls| => UseBlock(calls[i], canon))
  }

  function AssistantContent(m: ChatMessage, canon: string -> Option<string>): Content {
    if m.toolCalls == [] then m.content
    else
      Blocks((if PlainText(m.content) != "" then [TextBlock(PlainText(m.content))] else []) +
          UseBlocks(m.toolCalls, canon))
  }

  predicate Hoisted(m: ChatMessage) { m.role == SYSTEM || m.role == DEVELOPER }

  function ResultBlock(m: ChatMessage): Block { ToolResult(m.toolCallId, m.content) }

  /** The message a message becomes that is neither hoisted nor a tool result. */
  function Forth(m: ChatMessage, canon: string -> Option<string>): AnthropicMessage {
    if m.role == USER then AnthropicMessage(USER, UserContent(m.content))
    else if m.role == ASSISTANT then AnthropicMessage(ASSISTANT, AssistantContent(m, canon))
    else AnthropicMessage(USER, Str("[" + m.role + "]: " + PlainText(m.content)))
  }

  /** A tool message joins the message of the tool message just before it. */
  function ForthAll(ms: seq<ChatMessage>, canon: string -> Option<string>): (r: seq<AnthropicMessage>)
    ensures ms != [] && ms[|ms| - 1].role == TOOL ==> r != [] && r[|r| - 1].role == USER && r[|r| - 1].content.Blocks?
  {
    if ms == [] then []
    else
      var n := |ms| - 1;
      var before := ForthAll(ms[..n], canon);
      if Hoisted(ms[n]) then before
      else if ms[n].role == TOOL then
        if n > 0 && ms[n - 1].role == TOOL then
          var last := |before| - 1;
          before[..last] + [AnthropicMessage(USER, Blocks(before[last].content.blocks + [ResultBlock(ms[n])]))]
        else before + [AnthropicMessage(USER, Blocks([ResultBlock(ms[n])]))]
      else before + [Forth(ms[n], canon)]
  }

  function SystemParts(ms: seq<ChatMessage>): seq<string> {
    if ms == [] then []
    else
      var last := ms[|ms| - 1];
      SystemParts(ms[..|ms| - 1]) + (if Hoisted(last) then [PlainText(last.content)] else [])
  }

  function SystemOf(parts: seq<string>): System {
    if parts == [] then NoSystem else SystemText(Join(parts, SEPARATOR))
  }

  /** Nothing but system messages is an error. */
  function ToAnthropicRequest(ms: seq<ChatMessage>, canon: string -> Option<string>): Result<AnthropicRequest, string> {
    if ForthAll(ms, canon) == [] then Err("messages cannot be empty")
    else Ok(AnthropicRequest(SystemOf(SystemParts(ms)), ForthAll(ms, canon)))
  }

  method ConvertContentPartsToAnthropic(parts: seq<Block>) returns (blocks: seq<Block>)
    ensures blocks == ConvertParts(parts)
  {
    blocks := [];
    for i := 0 to |parts|
      invariant blocks == ConvertParts(parts[..i])
    {
      assert parts[..i + 1][..i] == parts[..i];
      match parts[i] {
        case TextBlock(text) =>
          if text != "" { blocks := blocks + [parts[i]]; }
        case ImageUrl(url) =>
          var image := ImageOf(url);
          if image.Some? { blocks := blocks + [image.value]; }
        case _ =>
      }
    }
    assert parts[..|parts|] == parts;
  }

  method ConvertOpenAIUserContent(content: Content) returns (r: Content)
    ensures r == UserContent(content)
  {
    match content {
      case Nil => r := Str("");
      case Str(_) => r := content;
      case Blocks(parts) =>
        if parts == [] { return content; }
        var blocks := ConvertContentPartsToAnthropic(parts);
        r := if blocks == [] then Nil else Blocks(blocks);
    }
  }

  method ConvertToolCalls(m: ChatMessage, canon: string -> Option<string>) returns (blocks: seq<Block>)
    requires m.toolCalls != []
    ensures Blocks(blocks) == AssistantContent(m, canon)
  {
    blocks := [];
    var text := PlainText(m.content);
    if text != "" { blocks := blocks + [TextBlock(text)]; }
    ghost var head := blocks;
    for i := 0 to |m.toolCalls|
      invariant blocks == head + UseBlocks(m.toolCalls[..i], canon)
    {
      blocks := blocks + [UseBlock(m.toolCalls[i], canon)];
    }
    assert m.toolCalls[..|m.toolCalls|] == m.toolCalls;
  }

  /** A run of tool messages from `start` on: the index is moved past it. */
  method CollectToolRun(ms: seq<ChatMessage>, start: nat, ghost canon: string -> Option<string>)
    returns (toolBlocks: seq<Block>, next: nat)
    requires start < |ms| && ms[start].role == TOOL
    requires start > 0 ==> ms[start - 1].role != TOOL
    ensures start < next <= |ms| && (next < |ms| ==> ms[next].role != TOOL)
    ensures forall k | start <= k < next :: ms[k].role == TOOL
    ensures ForthAll(ms[..next], canon) == ForthAll(ms[..start], canon) + [AnthropicMessage(USER, Blocks(toolBlocks))]
    ensures SystemParts(ms[..next]) == SystemParts(ms[..start])
  {
    hide ForthAll, SystemParts;
    ghost var before := ForthAll(ms[..start], canon);
    toolBlocks := [];
    next := start;
    while next < |ms| && ms[next].role == TOOL
      invariant start <= next <= |ms|
      invariant forall k | start <= k < next :: ms[k].role == TOOL
      invariant next == start ==> toolBlocks == []
      invariant next > start ==> ForthAll(ms[..next], canon) == before + [AnthropicMessage(USER, Blocks(toolBlocks))]
      invariant SystemParts(ms[..next]) == SystemParts(ms[..start])
    {
      ToolStep(ms, next, canon);
      assert [ResultBlock(ms[next])] == [] + [ResultBlock(ms[next])];
      toolBlocks := toolBlocks + [ToolResult(ms[next].toolCallId, ms[next].content)];
      next := next + 1;
    }
  }

  lemma ToolStep(ms: seq<ChatMessage>, n: nat, canon: string -> Option<string>)
    requires n < |ms| && ms[n].role == TOOL
    ensures SystemParts(ms[..n + 1]) == SystemParts(ms[..n])
    ensures n == 0 || ms[n - 1].role != TOOL ==>
              ForthAll(ms[..n + 1], canon) == ForthAll(ms[..n], canon) +
                  [AnthropicMessage(USER, Blocks([ResultBlock(ms[n])]))]
    ensures forall before, rs | n > 0 && ms[n - 1].role == TOOL
                             && ForthAll(ms[..n], canon) == before + [AnthropicMessage(USER, Blocks(rs))] ::
              ForthAll(ms[..n + 1], canon) == before + [AnthropicMessage(USER, Blocks(rs + [ResultBlock(ms[n])]))]
  {
    assert ms[..n + 1][..n] == ms[..n];
    forall before, rs | n > 0 && ms[n - 1].role == TOOL
                     && ForthAll(ms[..n], canon) == before + [AnthropicMessage(USER, Blocks(rs))]
      ensures ForthAll(ms[..n + 1], canon) == before + [AnthropicMessage(USER, Blocks(rs + [ResultBlock(ms[n])]))]
    {
      assert (before + [AnthropicMessage(USER, Blocks(rs))])[..|before|] == before;
    }
  }

  lemma OtherStep(ms: seq<ChatMessage>, n: nat, canon: string -> Option<string>)
    requires n < |ms| && ms[n].role != TOOL
    ensures ForthAll(ms[..n + 1], canon) == ForthAll(ms[..n], canon) +
        (if Hoisted(ms[n]) then [] else [Forth(ms[n], canon)])
    ensures SystemParts(ms[..n + 1]) == SystemParts(ms[..n]) +
        (if Hoisted(ms[n]) then [PlainText(ms[n].content)] else [])
  {
    assert ms[..n + 1][..n] == ms[..n];
  }

  /** The loop over the messages. Tool runs are consumed by an inner loop on the same index,
      which steps back once so that the outer loop's own step lands behind the run. */
  method OpenAIToAnthropic(ms: seq<ChatMessage>, canon: string -> Option<string>)
      returns (r: Result<AnthropicRequest, string>)
    ensures r == ToAnthropicRequest(ms, canon)
  {
    hide ForthAll, SystemParts, AssistantContent, UserContent, PlainText, Join;
    var systemParts: seq<string> := [];
    var messages: seq<AnthropicMessage> := [];
    var i := 0;
    Nothing(canon);
    assert ms[..0] == [];
    while i < |ms|
      invariant 0 <= i <= |ms|
      invariant 0 < i < |ms| && ms[i].role == TOOL ==> ms[i - 1].role != TOOL
      invariant systemParts == SystemParts(ms[..i])
      invariant messages == ForthAll(ms[..i], canon)
    {
      var msg := ms[i];
      if msg.role == TOOL {
        var toolBlocks, next := CollectToolRun(ms, i, canon);
        messages := messages + [AnthropicMessage(USER, Blocks(toolBlocks))];
        i := next - 1;
      } else {
        OtherStep(ms, i, canon);
        if msg.role == SYSTEM || msg.role == DEVELOPER {
          systemParts := systemParts + [PlainText(msg.content)];
        } else if msg.role == USER {
          var content := ConvertOpenAIUserContent(msg.content);
          messages := messages + [AnthropicMessage(USER, content)];
        } else if msg.role == ASSISTANT {
          var content := ConvertAssistant(msg, canon);
          messages := messages + [AnthropicMessage(ASSISTANT, content)];
        } else {
          messages := messages + [AnthropicMessage(USER, Str("[" + msg.role + "]: " + PlainText(msg.content)))];
        }
      }
      i := i + 1;
    }
    assert ms[..|ms|] == ms;
    var system := if |systemParts| > 0 then SystemText(Join(systemParts, SEPARATOR)) else NoSystem;
    if |messages| == 0 { return Err("messages cannot be empty"); }
    return Ok(AnthropicRequest(system, messages));
  }

  method ConvertAssistant(m: ChatMessage, canon: string -> Option<string>) returns (content: Content)
    ensures content == AssistantContent(m, canon)
  {
    if |m.toolCalls| > 0 {
      var blocks := ConvertToolCalls(m, canon);
      return Blocks(blocks);
    }
    return m.content;
  }

  lemma Nothing(canon: string -> Option<string>)
    ensures ForthAll([], canon) == [] && SystemParts([]) == [] && BackAll([]) == []
    ensures Chunks([]) == [] && Rest([]) == []
  {
  }

  // ----- Anthropic to OpenAI -----

  /** A missing name is printed as Go prints nil; missing arguments become an empty object. */
  function CallOf(use: Block): Call
    requires use.ToolUse?
  {
    Call(None, use.id, "function", use.name.GetOr("<nil>"), use.input.GetOr("{}"))
  }

  function CallsOf(blocks: seq<Block>): seq<Call> {
    if blocks == [] then []
    else
      var last := blocks[|blocks| - 1];
      CallsOf(blocks[..|blocks| - 1]) + (if last.ToolUse? then [CallOf(last)] else [])
  }

  function ResultsOf(blocks: seq<Block>): seq<ChatMessage> {
    if blocks == [] then []
    else
      var last := blocks[|blocks| - 1];
      ResultsOf(blocks[..|blocks| - 1]) +
      (if last.ToolResult? then [ChatMessage(TOOL, Str(PlainText(last.content)), [], last.toolUseId)] else [])
  }

  /** Images given by a link are dropped. */
  function ImagesOf(blocks: seq<Block>): seq<Block> {
    if blocks == [] then []
    else
      var last := blocks[|blocks| - 1];
      ImagesOf(blocks[..|blocks| - 1]) +
      (if last.ImageData? && last.mediaType != "" && last.data != ""
          then [ImageUrl(DataUrl(last.mediaType, last.data))] else [])
  }

  function TextBlocks(texts: seq<string>): seq<Block> {
    seq(|texts|, i requires 0 <= i < |texts| => TextBlock(texts[i]))
  }

  function AssistantBack(blocks: seq<Block>): seq<ChatMessage> {
    var texts, calls := Texts(blocks), CallsOf(blocks);
    if texts == [] && calls == [] then []
    else [ChatMessage(ASSISTANT, if calls != [] && texts == [] then Nil else Str(Join(texts, "")), calls, "")]
  }

  function UserBack(blocks: seq<Block>): seq<ChatMessage> {
    var texts, images := Texts(blocks), ImagesOf(blocks);
    ResultsOf(blocks) +
    (if images != [] then [ChatMessage(USER, Blocks(TextBlocks(texts) + images), [], "")]
     else if texts != [] then [Plain(USER, Join(texts, ""))]
     else [])
  }

  /** One Anthropic message becomes any number of messages. */
  function Back(m: AnthropicMessage): seq<ChatMessage> {
    match m.content
    case Nil => [Plain(m.role, "")]
    case Str(s) => [Plain(m.role, s)]
    case Blocks(blocks) => if m.role == ASSISTANT then AssistantBack(blocks) else UserBack(blocks)
  }

  function BackAll(ms: seq<AnthropicMessage>): seq<ChatMessage> {
    if ms == [] then [] else BackAll(ms[..|ms| - 1]) + Back(ms[|ms| - 1])
  }

  function SystemMessages(system: System): seq<ChatMessage> {
    match system
    case NoSystem => []
    case SystemText(text) => if text != "" then [Plain(SYSTEM, text)] else []
    case SystemBlocks(texts) => if texts != [] then [Plain(SYSTEM, Join(texts, SEPARATOR))] else []
  }

  /** A system message that is moved to the head: one whose content is a string. */
  predicate Movable(m: ChatMessage) { m.role == SYSTEM && m.content.Str? }

  function Chunks(ms: seq<ChatMessage>): seq<string> {
    if ms == [] then []
    else
      var last := ms[|ms| - 1];
      Chunks(ms[..|ms| - 1]) + (if Movable(last) && !Blank(last.content.s) then [last.content.s] else [])
  }

  function Rest(ms: seq<ChatMessage>): seq<ChatMessage> {
    if ms == [] then []
    else Rest(ms[..|ms| - 1]) + (if Movable(ms[|ms| - 1]) then [] else [ms[|ms| - 1]])
  }

  function Collapse(ms: seq<ChatMessage>): seq<ChatMessage> {
    (if Chunks(ms) != [] then [Plain(SYSTEM, Join(Chunks(ms), SEPARATOR))] else []) + Rest(ms)
  }

  function ToOpenAiMessages(req: AnthropicRequest): seq<ChatMessage> {
    Collapse(SystemMessages(req.system) + BackAll(req.messages))
  }

  method CollapseSystemMessagesToHead(messages: seq<ChatMessage>) returns (out: seq<ChatMessage>)
    ensures out == Collapse(messages)
  {
    var systemChunks: seq<string> := [];
    var rest: seq<ChatMessage> := [];
    for i := 0 to |messages|
      invariant systemChunks == Chunks(messages[..i])
      invariant rest == Rest(messages[..i])
    {
      assert messages[..i + 1][..i] == messages[..i];
      var msg := messages[i];
      if msg.role == SYSTEM && msg.content.Str? {
        if !Blank(msg.content.s) { systemChunks := systemChunks + [msg.content.s]; }
      } else {
        rest := rest + [msg];
      }
    }
    assert messages[..|messages|] == messages;
    out := [];
    if |systemChunks| > 0 { out := [Plain(SYSTEM, Join(systemChunks, SEPARATOR))]; }
    out := out + rest;
  }

  method ConvertAssistantBlocks(blocks: seq<Block>) returns (out: seq<ChatMessage>)
    ensures out == AssistantBack(blocks)
  {
    var textParts: seq<string> := [];
    var toolCalls: seq<Call> := [];
    for i := 0 to |blocks|
      invariant textParts == Texts(blocks[..i]) && toolCalls == CallsOf(blocks[..i])
    {
      assert blocks[..i + 1][..i] == blocks[..i];
      match blocks[i] {
        case TextBlock(text) => textParts := textParts + [text];
        case ToolUse(id, name, input) =>
          var args := "{}";
          if input.Some? { args := input.value; }
          toolCalls := toolCalls + [Call(None, id, "function", name.GetOr("<nil>"), args)];
        case _ =>
      }
    }
    assert blocks[..|blocks|] == blocks;
    if textParts == [] && toolCalls == [] { return []; }
    var content := Str(Join(textParts, ""));
    if |toolCalls| > 0 && |textParts| == 0 { content := Nil; }
    return [ChatMessage(ASSISTANT, content, toolCalls, "")];
  }

  method ConvertUserBlocks(blocks: seq<Block>) returns (out: seq<ChatMessage>)
    ensures out == UserBack(blocks)
  {
    hide PlainText, Join;
    var regularParts: seq<string> := [];
    var imageParts: seq<Block> := [];
    var toolResults: seq<ChatMessage> := [];
    for i := 0 to |blocks|
      invariant regularParts == Texts(blocks[..i])
      invariant imageParts == ImagesOf(blocks[..i])
      invariant toolResults == ResultsOf(blocks[..i])
    {
      assert blocks[..i + 1][..i] == blocks[..i];
      match blocks[i] {
        case ToolResult(id, content) =>
          toolResults := toolResults + [ChatMessage(TOOL, Str(PlainText(content)), [], id)];
        case TextBlock(text) => regularParts := regularParts + [text];
        case ImageData(mediaType, data) =>
          if mediaType != "" && data != "" { imageParts := imageParts + [ImageUrl(DataUrl(mediaType, data))]; }
        case _ =>
      }
    }
    assert blocks[..|blocks|] == blocks;
    out := toolResults;
    if |imageParts| > 0 {
      var parts := [];
      for i := 0 to |regularParts|
        invariant parts == TextBlocks(regularParts[..i])
      {
        parts := parts + [TextBlock(regularParts[i])];
      }
      assert regularParts[..|regularParts|] == regularParts;
      out := out + [ChatMessage(USER, Blocks(parts + imageParts), [], "")];
    } else if |regularParts| > 0 {
      out := out + [Plain(USER, Join(regularParts, ""))];
    }
  }

  method ConvertAnthropicMessageToOpenAI(m: AnthropicMessage) returns (out: seq<ChatMessage>)
    ensures out == Back(m)
  {
    match m.content {
      case Str(s) => out := [Plain(m.role, s)];
      case Nil => out := [Plain(m.role, PlainText(m.content))];
      case Blocks(blocks) =>
        if m.role == ASSISTANT {
          out := ConvertAssistantBlocks(blocks);
        } else {
          out := ConvertUserBlocks(blocks);
        }
    }
  }

  method AnthropicToOpenAI(req: AnthropicRequest) returns (messages: seq<ChatMessage>)
    ensures messages == ToOpenAiMessages(req)
  {
    hide Collapse, Back, Join;
    messages := [];
    match req.system {
      case NoSystem =>
      case SystemText(text) => if text != "" { messages := [Plain(SYSTEM, text)]; }
      case SystemBlocks(texts) => if |texts| > 0 { messages := [Plain(SYSTEM, Join(texts, SEPARATOR))]; }
    }
    ghost var head := messages;
    assert head == SystemMessages(req.system) && req.messages[..0] == [];
    for i := 0 to |req.messages|
      invariant messages == head + BackAll(req.messages[..i])
    {
      assert req.messages[..i + 1][..i] == req.messages[..i];
      var openaiMsg := ConvertAnthropicMessageToOpenAI(req.messages[i]);
      messages := messages + openaiMsg;
    }
    assert req.messages[..|req.messages|] == req.messages;
    messages := CollapseSystemMessagesToHead(messages);
  }
}
