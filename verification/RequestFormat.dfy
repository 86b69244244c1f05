/**
 Chat requests in the two formats, as they look in decoded JSON, and the small pieces the
 conversions share. A tool call's arguments are text; an Anthropic tool input is a JSON value,
 represented by the text it encodes to.
 */
module RequestFormat {
  import opened Wrappers

  const SYSTEM := "system"
  const DEVELOPER := "developer"
  const USER := "user"
  const ASSISTANT := "assistant"
  const TOOL := "tool"
  const SEPARATOR := "\n\n"

  /** The typed objects that may stand in a content list, of either format. */
  datatype Block =
    | TextBlock(text: string)
    | ImageUrl(url: string)                        // OpenAI
    | ImageData(mediaType: string, data: string)   // Anthropic, base64 source
    | ImageLink(link: string)                      // Anthropic, url source
    | ToolUse(id: string, name: Option<string>, input: Option<string>)
    | ToolResult(toolUseId: string, content: Content)
    | Unknown(kind: string)                        // every other object, thinking included

  datatype Content = Nil | Str(s: string) | Blocks(blocks: seq<Block>)

  datatype Call = Call(index: Option<int>, id: string, kind: string, name: string, arguments: string)

  datatype ChatMessage = ChatMessage(role: string, content: Content, toolCalls: seq<Call>, toolCallId: string)

  datatype AnthropicMessage = AnthropicMessage(role: string, content: Content)

  /** The system prompt: a string, or blocks of which only the texts are read. */
  datatype System = NoSystem | SystemText(text: string) | SystemBlocks(texts: seq<string>)

  datatype AnthropicRequest = AnthropicRequest(system: System, messages: seq<AnthropicMessage>)

  function Plain(role: string, text: string): ChatMessage { ChatMessage(role, Str(text), [], "") }

  // ----- Text -----

  function Join(parts: seq<string>, separator: string): string {
    if parts == [] then ""
    else if |parts| == 1 then parts[0]
    else Join(parts[..|parts| - 1], separator) + separator + parts[|parts| - 1]
  }

  /** White space in the sense of Unicode, as Go's strings.TrimSpace strips it. */
  predicate IsSpace(c: char) {
    || '\t' <= c <= '\r' || c == ' ' || c == '\U{0085}' || c == '\U{00A0}' || c == '\U{1680}'
    || '\U{2000}' <= c <= '\U{200A}' || c == '\U{2028}' || c == '\U{2029}' || c == '\U{202F}'
    || c == '\U{205F}' || c == '\U{3000}'
  }

  lemma SpaceCodes(c: char)
    ensures IsSpace(c) <==>
            c as int in {9, 10, 11, 12, 13, 32, 133, 160, 5760, 8192, 8193, 8194, 8195, 8196, 8197, 8198, 8199, 8200,
                         8201, 8202, 8232, 8233, 8239, 8287, 12288}
  {
  }

  predicate Blank(s: string) { forall i | 0 <= i < |s| :: IsSpace(s[i]) }

  lemma BlankConcat(a: string, b: string)
    ensures Blank(a + b) <==> Blank(a) && Blank(b)
  {
    if Blank(a + b) {
      forall i | 0 <= i < |a| ensures IsSpace(a[i]) { assert (a + b)[i] == a[i]; }
      forall i | 0 <= i < |b| ensures IsSpace(b[i]) { assert (a + b)[|a| + i] == b[i]; }
    }
  }

  /** A join is blank only if all its parts are. */
  lemma {:induction false} JoinBlank(parts: seq<string>)
    ensures Blank(Join(parts, SEPARATOR)) <==> forall p | p in parts :: Blank(p)
    decreases |parts|
  {
    var n := |parts| - 1;
    if n >= 1 {
      var init := parts[..n];
      JoinBlank(init);
      assert parts == init + [parts[n]];
      BlankConcat(Join(init, SEPARATOR), SEPARATOR);
      BlankConcat(Join(init, SEPARATOR) + SEPARATOR, parts[n]);
    } else if n == 0 {
      assert parts == [parts[0]];
    }
  }

  /** The texts of the text objects. */
  function Texts(blocks: seq<Block>): seq<string> {
    if blocks == [] then []
    else
      var last := blocks[|blocks| - 1];
      Texts(blocks[..|blocks| - 1]) + (if last.TextBlock? then [last.text] else [])
  }

  /** The text of a content, whatever its form: ChatMessage.ContentString and
      extractAnthropicMessageContent agree on these three forms. */
  function PlainText(content: Content): string {
    match content
    case Nil => ""
    case Str(s) => s
    case Blocks(blocks) => Join(Texts(blocks), "")
  }

  // ----- Image addresses -----

  /** What stands before and after the first occurrence of `separator`. */
  function Cut(s: string, separator: string): (r: Option<(string, string)>)
    ensures r.Some? ==> s == r.value.0 + separator + r.value.1
  {
    if separator <= s then Some(("", s[|separator|..]))
    else if s == "" then None
    else
      var rest := Cut(s[1..], separator);
      if rest.None? then None else Some(([s[0]] + rest.value.0, rest.value.1))
  }

  function DataUrl(mediaType: string, data: string): string {
    "data:" + mediaType + ";base64," + data
  }

  predicate IsLink(url: string) { "http://" <= url || "https://" <= url }

  function ImageOf(url: string): (r: Option<Block>)
    ensures r.Some? && r.value.ImageData? ==> url == DataUrl(r.value.mediaType, r.value.data)
    ensures r.Some? ==> r.value.ImageData? || r.value.ImageLink?
    ensures r.Some? && r.value.ImageData? ==> r.value.mediaType != "" && r.value.data != ""
  {
    if "data:" <= url then
      var cut := Cut(url[5..], ";base64,");
      if cut.None? || cut.value.0 == "" || cut.value.1 == "" then None
      else
        assert url == "data:" + url[5..];
        Some(ImageData(cut.value.0, cut.value.1))
    else if IsLink(url) then Some(ImageLink(url))
    else None
  }

  /** An image whose bytes are in the address itself. */
  predicate Inline(b: Block) { b.ImageUrl? && ImageOf(b.url).Some? && ImageOf(b.url).value.ImageData? }
}
