/**
 Nothing that is said in a request gets lost on the way: what the messages of either format
 hold, read off their contents, and what comes out of the two conversions. `RequestShape` is
 about the tools of an Anthropic request; here are texts and images, and everything in an
 OpenAI one.
 */
module RequestContent {
  import opened Wrappers
  import opened RequestFormat
  import opened RequestConversion
  import opened RequestRoundTrip
  import opened RequestShape

  // ----- Joins and texts -----

  /** A join has the separator between neighbours and nowhere else. */
  lemma {:induction false} JoinAppend(xs: seq<string>, ys: seq<string>, separator: string)
    requires xs != [] && ys != []
    ensures Join(xs + ys, separator) == Join(xs, separator) + separator + Join(ys, separator)
    ensures |xs| == 1 ==> Join(xs, separator) == xs[0]
    decreases |ys|
  {
    var n := |ys| - 1;
    assert (xs + ys)[..|xs + ys| - 1] == xs + ys[..n];
    if n == 0 {
      assert xs + ys[..n] == xs;
    } else {
      JoinAppend(xs, ys[..n], separator);
      var a, b := Join(xs, separator), Join(ys[..n], separator);
      assert (a + separator + b) + separator + ys[n] == a + separator + (b + separator + ys[n]);
    }
  }

  /** A list joined first, and then joined with more. */
  lemma JoinNested(xs: seq<string>, ys: seq<string>, separator: string)
    requires xs != []
    ensures Join([Join(xs, separator)] + ys, separator) == Join(xs + ys, separator)
  {
    hide Join;
    if ys == [] {
      assert [Join(xs, separator)] + ys == [Join(xs, separator)] && xs + ys == xs;
      JoinOfOne(Join(xs, separator), separator);
    } else {
      JoinAppend(xs, ys, separator);
      JoinAppend([Join(xs, separator)], ys, separator);
    }
  }

  lemma JoinOfOne(s: string, separator: string)
    ensures Join([s], separator) == s && Join([], separator) == ""
  {
  }

  /** The text of the text blocks, in order. */
  function TextIn(blocks: seq<Block>): string {
    if blocks == [] then ""
    else
      var last := blocks[|blocks| - 1];
      TextIn(blocks[..|blocks| - 1]) + (if last.TextBlock? then last.text else "")
  }

  /** What a content says. */
  function Says(content: Content): string {
    match content
    case Nil => ""
    case Str(s) => s
    case Blocks(blocks) => TextIn(blocks)
  }

  lemma {:induction false} JoinedTexts(blocks: seq<Block>)
    ensures Join(Texts(blocks), "") == TextIn(blocks)
    ensures Texts(blocks) != [] <==> exists b :: b in blocks && b.TextBlock?
    decreases |blocks|
  {
    hide Join;
    JoinOfOne("", "");
    if blocks != [] {
      var n := |blocks| - 1;
      var init, last := blocks[..n], blocks[n];
      JoinedTexts(init);
      assert blocks == init + [last];
      if last.TextBlock? {
        assert last in blocks;
        JoinOfOne(last.text, "");
        if Texts(init) == [] {
          assert Texts(init) + [last.text] == [last.text];
          assert "" + last.text == last.text;
        } else {
          JoinAppend(Texts(init), [last.text], "");
          assert (TextIn(init) + "") + last.text == TextIn(init) + last.text;
        }
      } else {
        assert Texts(init) + [] == Texts(init) && TextIn(init) + "" == TextIn(init);
      }
    }
  }

  /** The text of a content in either direction is all its text, in order. */
  lemma PlainTextSays(content: Content)
    ensures PlainText(content) == Says(content)
  {
    if content.Blocks? { JoinedTexts(content.blocks); }
  }

  // ----- The system prompt of an Anthropic request -----

  /** The texts of the system prompt, none when all of them are blank. */
  function OwnPrompt(system: System): seq<string> {
    var texts := match system
      case NoSystem => []
      case SystemText(text) => [text]
      case SystemBlocks(texts) => texts;
    if forall t | t in texts :: Blank(t) then [] else texts
  }

  /** The system messages among the messages that are a string and not blank. */
  function Interjected(ms: seq<AnthropicMessage>): seq<string> {
    if ms == [] then []
    else
      var last := ms[|ms| - 1];
      Interjected(ms[..|ms| - 1]) +
      (if last.role == "system" && last.content.Str? && !Blank(last.content.s) then [last.content.s] else [])
  }

  lemma OwnChunks(system: System)
    ensures var texts := OwnPrompt(system);
      Chunks(SystemMessages(system)) == if texts == [] then [] else [Join(texts, SEPARATOR)]
    ensures Rest(SystemMessages(system)) == []
  {
    hide Blank;
    match system {
      case NoSystem =>
      case SystemText(text) =>
        NothingIsBlank();
        JoinOfOne(text, SEPARATOR);
        if text != "" { OneChunk(text); }
        assert text in [text];
        if text == "" { assert Blank(text); }
      case SystemBlocks(texts) =>
        JoinBlank(texts);
        if texts != [] { OneChunk(Join(texts, SEPARATOR)); }
    }
  }

  lemma OneChunk(text: string)
    ensures Chunks([Plain(SYSTEM, text)]) == (if Blank(text) then [] else [text]) && Rest([Plain(SYSTEM, text)]) == []
  {
    assert [Plain(SYSTEM, text)][..0] == [];
  }

  lemma ChunksOfBack(m: AnthropicMessage)
    ensures Chunks(Back(m)) ==
            if m.role == "system" && m.content.Str? && !Blank(m.content.s) then [m.content.s] else []
  {
    hide Blank;
    if m.content.Blocks? {
      BlocksHaveNoSystem(m);
      RestKeeps(Back(m));
    } else {
      EmptyIsBlank();
      assert Back(m)[..0] == [];
    }
  }

  lemma EmptyIsBlank()
    ensures Blank("")
  {
  }

  lemma BlocksHaveNoSystem(m: AnthropicMessage)
    requires m.content.Blocks?
    ensures NoSystemIn(Back(m))
  {
    hide PlainText, Texts, CallsOf, ImagesOf, Join;
    ResultsAreTools(m.content.blocks);
  }

  lemma {:induction false} ChunksOfBackAll(ms: seq<AnthropicMessage>)
    ensures Chunks(BackAll(ms)) == Interjected(ms)
    decreases |ms|
  {
    hide Back, Chunks, Blank;
    if ms == [] {
      Nothing(_ => None);
    } else {
      var n := |ms| - 1;
      ChunksOfBackAll(ms[..n]);
      ChunksOfBack(ms[n]);
      CollapseAppend(BackAll(ms[..n]), Back(ms[n]));
    }
  }

  /** The whole prompt, for every Anthropic request: the system message is the join of all texts
      of the system prompt, unless all of them are blank, and of the system messages among the
      messages that are not blank, in that order; it stands at the head, and without any such
      text there is none. */
  lemma PromptConserved(req: AnthropicRequest)
    ensures var texts := OwnPrompt(req.system) + Interjected(req.messages);
      var head := if texts == [] then [] else [Plain("system", Join(texts, "\n\n"))];
      exists rest :: NoSystemIn(rest) && ToOpenAiMessages(req) == head + rest
  {
    hide BackAll, Chunks, Rest, Join, OwnPrompt, Interjected, SystemMessages;
    var own, more := OwnPrompt(req.system), Interjected(req.messages);
    var all := SystemMessages(req.system) + BackAll(req.messages);
    OwnChunks(req.system);
    ChunksOfBackAll(req.messages);
    CollapseAppend(SystemMessages(req.system), BackAll(req.messages));
    if own != [] {
      JoinNested(own, more, SEPARATOR);
    } else {
      assert [] + more == more && own + more == more;
    }
    assert Chunks(all) == [] <==> own + more == [];
    assert Chunks(all) != [] ==> Join(Chunks(all), SEPARATOR) == Join(own + more, SEPARATOR);
    NoSystemInRest(req);
    assert ToOpenAiMessages(req) ==
        (if own + more == [] then [] else [Plain("system", Join(own + more, "\n\n"))]) + Rest(all);
  }

  lemma NoSystemInRest(req: AnthropicRequest)
    ensures NoSystemIn(Rest(SystemMessages(req.system) + BackAll(req.messages)))
  {
    hide Back, Blank, Join, BackAll, Rest, Chunks;
    var all := SystemMessages(req.system) + BackAll(req.messages);
    SystemsAreStrings(req.messages);
    RestHasNoMovable(all);
  }

  // ----- Texts and images of an Anthropic request -----

  /** What one chat message tells besides tools. */
  datatype Line = Line(role: string, text: string, images: seq<string>)

  /** The addresses of the image parts. */
  function Addresses(blocks: seq<Block>): seq<string> {
    if blocks == [] then []
    else
      var last := blocks[|blocks| - 1];
      Addresses(blocks[..|blocks| - 1]) + (if last.ImageUrl? then [last.url] else [])
  }

  /** The data images as addresses; an image without type or data is none, and one given by a
      link cannot be carried. */
  function Pictures(blocks: seq<Block>): seq<string> {
    if blocks == [] then []
    else
      var last := blocks[|blocks| - 1];
      Pictures(blocks[..|blocks| - 1]) +
      (if last.ImageData? && last.mediaType != "" && last.data != ""
       then ["data:" + last.mediaType + ";base64," + last.data] else [])
  }

  /** The line of a chat message. System messages and tool results are not among them. */
  function LineOf(m: ChatMessage): seq<Line> {
    if m.role == "system" || m.role == "tool" then []
    else [Line(m.role, Says(m.content), if m.content.Blocks? then Addresses(m.content.blocks) else [])]
  }

  function LinesOut(ms: seq<ChatMessage>): seq<Line> {
    if ms == [] then [] else LinesOut(ms[..|ms| - 1]) + LineOf(ms[|ms| - 1])
  }

  /** What a message of the request has to tell: nothing, when its blocks are neither text nor
      image (nor, for an assistant, the use of a tool). */
  ghost function LineIn(m: AnthropicMessage): seq<Line> {
    if !m.content.Blocks? then
      if m.role == "system" || m.role == "tool" then [] else [Line(m.role, Says(m.content), [])]
    else
      var blocks := m.content.blocks;
      if m.role == "assistant" then
        if exists b :: b in blocks && (b.TextBlock? || b.ToolUse?) then [Line("assistant", TextIn(blocks), [])] else []
      else if Pictures(blocks) != [] || exists b :: b in blocks && b.TextBlock?
      then [Line("user", TextIn(blocks), Pictures(blocks))]
      else []
  }

  ghost function LinesIn(ms: seq<AnthropicMessage>): seq<Line> {
    if ms == [] then [] else LinesIn(ms[..|ms| - 1]) + LineIn(ms[|ms| - 1])
  }

  lemma {:induction false} LinesAppend(xs: seq<ChatMessage>, ys: seq<ChatMessage>)
    ensures LinesOut(xs + ys) == LinesOut(xs) + LinesOut(ys)
    decreases |ys|
  {
    hide LineOf;
    if ys == [] {
      assert xs + ys == xs;
    } else {
      LinesAppend(xs, ys[..|ys| - 1]);
      assert (xs + ys)[..|xs + ys| - 1] == xs + ys[..|ys| - 1];
    }
  }

  lemma LinesOfOne(m: ChatMessage)
    ensures LinesOut([m]) == LineOf(m) && LinesOut([]) == []
  {
    hide LineOf;
    assert [m][..0] == [] && [] + LineOf(m) == LineOf(m);
  }

  lemma {:induction false} SystemsHaveNoLine(ms: seq<ChatMessage>)
    ensures LinesOut(WithoutSystem(ms)) == LinesOut(ms)
    decreases |ms|
  {
    if ms != [] {
      var init, m := ms[..|ms| - 1], ms[|ms| - 1];
      SystemsHaveNoLine(init);
      LinesOfOne(m);
      if m.role != SYSTEM {
        LinesAppend(WithoutSystem(init), [m]);
      } else {
        assert WithoutSystem(init) + [] == WithoutSystem(init) && LinesOut(init) + [] == LinesOut(init);
      }
    }
  }

  lemma {:induction false} ToolsHaveNoLine(ms: seq<ChatMessage>)
    requires forall m | m in ms :: m.role == TOOL
    ensures LinesOut(ms) == []
    decreases |ms|
  {
    if ms != [] { ToolsHaveNoLine(ms[..|ms| - 1]); }
  }

  lemma {:induction false} PicturesAreImages(blocks: seq<Block>)
    ensures Addresses(ImagesOf(blocks)) == Pictures(blocks) && TextIn(ImagesOf(blocks)) == ""
    ensures ImagesOf(blocks) == [] <==> Pictures(blocks) == []
    decreases |blocks|
  {
    if blocks != [] {
      var init, last := blocks[..|blocks| - 1], blocks[|blocks| - 1];
      PicturesAreImages(init);
      var kept := last.ImageData? && last.mediaType != "" && last.data != "";
      if kept {
        var image := ImageUrl(DataUrl(last.mediaType, last.data));
        assert (ImagesOf(init) + [image])[..|ImagesOf(init)|] == ImagesOf(init);
        assert DataUrl(last.mediaType, last.data) == "data:" + last.mediaType + ";base64," + last.data;
      } else {
        assert ImagesOf(init) + [] == ImagesOf(init);
      }
    }
  }

  lemma {:induction false} TextsSay(texts: seq<string>)
    ensures TextIn(TextBlocks(texts)) == Join(texts, "") && Addresses(TextBlocks(texts)) == []
    decreases |texts|
  {
    hide Join;
    JoinOfOne("", "");
    if texts != [] {
      var n := |texts| - 1;
      TextsSay(texts[..n]);
      assert TextBlocks(texts)[..n] == TextBlocks(texts[..n]) && TextBlocks(texts)[n] == TextBlock(texts[n]);
      assert texts == texts[..n] + [texts[n]];
      JoinOfOne(texts[n], "");
      if n > 0 {
        JoinAppend(texts[..n], [texts[n]], "");
        assert Join(texts[..n], "") + "" == Join(texts[..n], "");
      } else {
        assert texts[..0] == [] && texts == [texts[0]] && "" + texts[0] == texts[0];
      }
    }
  }

  lemma {:induction false} PartsSay(texts: seq<string>, images: seq<Block>)
    requires TextIn(images) == "" && forall b | b in images :: b.ImageUrl?
    ensures TextIn(TextBlocks(texts) + images) == Join(texts, "")
    ensures Addresses(TextBlocks(texts) + images) == Addresses(images)
    decreases |images|
  {
    hide Join, TextBlocks;
    var head := TextBlocks(texts);
    if images == [] {
      TextsSay(texts);
      assert head + images == head;
    } else {
      var n := |images| - 1;
      assert images[n] in images;
      NoTextIn(images);
      assert (head + images)[..|head + images| - 1] == head + images[..n];
      PartsSay(texts, images[..n]);
      assert TextIn(head + images[..n]) + "" == TextIn(head + images[..n]);
    }
  }

  lemma NoTextIn(blocks: seq<Block>)
    requires blocks != [] && TextIn(blocks) == "" && !blocks[|blocks| - 1].TextBlock?
    ensures TextIn(blocks[..|blocks| - 1]) == ""
  {
    assert TextIn(blocks[..|blocks| - 1]) + "" == TextIn(blocks[..|blocks| - 1]);
  }

  lemma {:induction false} ImagesAreUrls(blocks: seq<Block>)
    ensures forall b | b in ImagesOf(blocks) :: b.ImageUrl?
    decreases |blocks|
  {
    if blocks != [] { ImagesAreUrls(blocks[..|blocks| - 1]); }
  }

  lemma {:induction false} CallsAreUses(blocks: seq<Block>)
    ensures CallsOf(blocks) != [] <==> exists b :: b in blocks && b.ToolUse?
    decreases |blocks|
  {
    hide CallOf;
    if blocks != [] {
      var init, last := blocks[..|blocks| - 1], blocks[|blocks| - 1];
      CallsAreUses(init);
      assert blocks == init + [last] && last in blocks;
    }
  }

  lemma AssistantLines(blocks: seq<Block>)
    ensures LinesOut(AssistantBack(blocks)) == LineIn(AnthropicMessage(ASSISTANT, Blocks(blocks)))
  {
    hide LinesOut, Texts, CallsOf, Join, TextIn;
    JoinedTexts(blocks);
    CallsAreUses(blocks);
    JoinOfOne("", "");
    if AssistantBack(blocks) == [] {
      LinesOfOne(ChatMessage(ASSISTANT, Nil, [], ""));
    } else {
      LinesOfOne(AssistantBack(blocks)[0]);
      assert AssistantBack(blocks) == [AssistantBack(blocks)[0]];
    }
  }

  lemma UserLines(role: string, blocks: seq<Block>)
    requires role != ASSISTANT
    ensures LinesOut(UserBack(blocks)) == LineIn(AnthropicMessage(role, Blocks(blocks)))
  {
    hide LinesOut, Texts, ImagesOf, ResultsOf, Join, TextIn, Pictures, Addresses, TextBlocks;
    var results := ResultsOf(blocks);
    var texts, images := Texts(blocks), ImagesOf(blocks);
    ResultsAreTools(blocks);
    ToolsHaveNoLine(results);
    JoinedTexts(blocks);
    PicturesAreImages(blocks);
    ImagesAreUrls(blocks);
    PartsSay(texts, images);
    if images != [] {
      LinesOfOne(ChatMessage(USER, Blocks(TextBlocks(texts) + images), [], ""));
      LinesAppend(results, [ChatMessage(USER, Blocks(TextBlocks(texts) + images), [], "")]);
    } else if texts != [] {
      LinesOfOne(Plain(USER, Join(texts, "")));
      LinesAppend(results, [Plain(USER, Join(texts, ""))]);
    } else {
      assert results + [] == results;
    }
  }

  lemma MessageLines(m: AnthropicMessage)
    ensures LinesOut(Back(m)) == LineIn(m)
  {
    hide LinesOut, AssistantBack, UserBack;
    if m.content.Blocks? && m.role == ASSISTANT {
      AssistantLines(m.content.blocks);
    } else if m.content.Blocks? {
      UserLines(m.role, m.content.blocks);
    } else {
      LinesOfOne(Back(m)[0]);
    }
  }

  lemma {:induction false} AllLines(ms: seq<AnthropicMessage>)
    ensures LinesOut(BackAll(ms)) == LinesIn(ms)
    decreases |ms|
  {
    hide Back, LineIn, LinesOut;
    if ms == [] {
      LinesOfOne(Plain("", ""));
    } else {
      var n := |ms| - 1;
      AllLines(ms[..n]);
      MessageLines(ms[n]);
      LinesAppend(BackAll(ms[..n]), Back(ms[n]));
    }
  }

  /** For every Anthropic request: message by message and in order, all text of the text blocks
      and all data images come out, under the role of the message. */
  lemma TextConserved(req: AnthropicRequest)
    ensures LinesOut(ToOpenAiMessages(req)) == LinesIn(req.messages)
  {
    hide ToOpenAiMessages, BackAll, LinesOut, LinesIn, WithoutSystem;
    AllLines(req.messages);
    OrderKept(req);
    SystemsHaveNoLine(ToOpenAiMessages(req));
    SystemsHaveNoLine(BackAll(req.messages));
  }

  // ----- Everything in an OpenAI request -----

  /** What a request is made of, in either format. */
  datatype Piece =
    | Said(role: string, text: string)
    | Kept(role: string, object: Block)            // images, and objects that are passed on
    | Used(id: string, name: Option<string>, input: Option<string>)
    | Output(id: string, content: Content)

  function PieceOf(role: string, b: Block): seq<Piece> {
    match b
    case TextBlock(text) => if text == "" then [] else [Said(role, text)]
    case ToolUse(id, name, input) => [Used(id, name, input)]
    case ToolResult(id, content) => [Output(id, content)]
    case _ => [Kept(role, b)]
  }

  function PiecesIn(role: string, blocks: seq<Block>): seq<Piece> {
    if blocks == [] then [] else PiecesIn(role, blocks[..|blocks| - 1]) + PieceOf(role, blocks[|blocks| - 1])
  }

  function PiecesOf(role: string, content: Content): seq<Piece> {
    match content
    case Nil => []
    case Str(s) => if s == "" then [] else [Said(role, s)]
    case Blocks(blocks) => PiecesIn(role, blocks)
  }

  /** The pieces of the messages of an Anthropic request. */
  function AnthropicPieces(ms: seq<AnthropicMessage>): seq<Piece> {
    if ms == [] then []
    else AnthropicPieces(ms[..|ms| - 1]) + PiecesOf(ms[|ms| - 1].role, ms[|ms| - 1].content)
  }

  /** A part of a user message: texts and images that can be carried, nothing else. */
  function UserPiece(part: Block): seq<Piece> {
    match part
    case TextBlock(text) => if text == "" then [] else [Said("user", text)]
    case ImageUrl(url) => if ImageOf(url).Some? then [Kept("user", ImageOf(url).value)] else []
    case _ => []
  }

  function UserPieces(parts: seq<Block>): seq<Piece> {
    if parts == [] then [] else UserPieces(parts[..|parts| - 1]) + UserPiece(parts[|parts| - 1])
  }

  function CallPieces(calls: seq<Call>, canon: string -> Option<string>): seq<Piece> {
    seq(|calls|, i requires 0 <= i < |calls| =>
      Used(calls[i].id, if calls[i].name == "" then None else Some(calls[i].name), canon(calls[i].arguments)))
  }

  /** The pieces of a chat message that is not part of the prompt. */
  function ChatPieces(m: ChatMessage, canon: string -> Option<string>): seq<Piece> {
    if m.role == "system" || m.role == "developer" then []
    else if m.role == "tool" then [Output(m.toolCallId, m.content)]
    else if m.role == "user" then
      if m.content.Blocks? then UserPieces(m.content.blocks) else PiecesOf("user", m.content)
    else if m.role == "assistant" then
      if m.toolCalls == [] then PiecesOf("assistant", m.content)
      else
        (if Says(m.content) == "" then [] else [Said("assistant", Says(m.content))]) + CallPieces(m.toolCalls, canon)
    else [Said("user", "[" + m.role + "]: " + Says(m.content))]
  }

  function AllChatPieces(ms: seq<ChatMessage>, canon: string -> Option<string>): seq<Piece> {
    if ms == [] then [] else AllChatPieces(ms[..|ms| - 1], canon) + ChatPieces(ms[|ms| - 1], canon)
  }

  /** The texts of the system and developer messages. */
  function PromptTexts(ms: seq<ChatMessage>): seq<string> {
    if ms == [] then []
    else
      var last := ms[|ms| - 1];
      PromptTexts(ms[..|ms| - 1]) +
      (if last.role == "system" || last.role == "developer" then [Says(last.content)] else [])
  }

  lemma {:induction false} PiecesAppend(role: string, xs: seq<Block>, ys: seq<Block>)
    ensures PiecesIn(role, xs + ys) == PiecesIn(role, xs) + PiecesIn(role, ys)
    decreases |ys|
  {
    hide PieceOf;
    if ys == [] {
      assert xs + ys == xs;
    } else {
      PiecesAppend(role, xs, ys[..|ys| - 1]);
      assert (xs + ys)[..|xs + ys| - 1] == xs + ys[..|ys| - 1];
    }
  }

  lemma PiecesOfOne(role: string, b: Block)
    ensures PiecesIn(role, [b]) == PieceOf(role, b) && PiecesIn(role, []) == []
  {
    hide PieceOf;
    assert [b][..0] == [] && [] + PieceOf(role, b) == PieceOf(role, b);
  }

  lemma {:induction false} PartsPieces(parts: seq<Block>)
    ensures PiecesIn("user", ConvertParts(parts)) == UserPieces(parts)
    decreases |parts|
  {
    hide PiecesIn, ImageOf;
    PiecesOfOne("user", TextBlock(""));
    if parts != [] {
      var n := |parts| - 1;
      var part := ConvertPart(parts[n]);
      PartsPieces(parts[..n]);
      if part.Some? {
        PiecesOfOne("user", part.value);
        PiecesAppend("user", ConvertParts(parts[..n]), [part.value]);
        PartPieces(parts[n]);
      } else {
        assert ConvertParts(parts[..n]) + [] == ConvertParts(parts[..n]);
      }
    }
  }

  lemma PartPieces(part: Block)
    requires ConvertPart(part).Some?
    ensures PieceOf("user", ConvertPart(part).value) == UserPiece(part)
  {
  }

  lemma {:induction false} CallsPieces(role: string, calls: seq<Call>, canon: string -> Option<string>)
    ensures PiecesIn(role, UseBlocks(calls, canon)) == CallPieces(calls, canon)
    decreases |calls|
  {
    hide PiecesIn;
    PiecesOfOne(role, TextBlock(""));
    if calls == [] {
      assert UseBlocks(calls, canon) == [] && CallPieces(calls, canon) == [];
    } else {
      var n := |calls| - 1;
      CallsPieces(role, calls[..n], canon);
      PiecesOfOne(role, UseBlock(calls[n], canon));
      PiecesAppend(role, UseBlocks(calls[..n], canon), [UseBlock(calls[n], canon)]);
      assert UseBlocks(calls, canon) == UseBlocks(calls[..n], canon) + [UseBlock(calls[n], canon)];
      assert CallPieces(calls, canon) == CallPieces(calls[..n], canon) + PieceOf(role, UseBlock(calls[n], canon));
    }
  }

  lemma ForthPieces(m: ChatMessage, canon: string -> Option<string>)
    requires !Hoisted(m) && m.role != TOOL
    ensures PiecesOf(Forth(m, canon).role, Forth(m, canon).content) == ChatPieces(m, canon)
  {
    hide PiecesIn, UserPieces, CallPieces, ConvertParts, PlainText, UseBlocks, TextIn;
    PlainTextSays(m.content);
    if m.role == USER {
      if m.content.Blocks? {
        PartsPieces(m.content.blocks);
        PiecesOfOne("user", TextBlock(""));
        NothingIn();
      }
    } else if m.role == ASSISTANT && m.toolCalls != [] {
      var text := Says(m.content);
      CallsPieces("assistant", m.toolCalls, canon);
      PiecesOfOne("assistant", TextBlock(text));
      PiecesAppend("assistant", if text == "" then [] else [TextBlock(text)], UseBlocks(m.toolCalls, canon));
    }
  }

  lemma NothingIn()
    ensures UserPieces([]) == []
  {
  }

  lemma AnthropicSnoc(ms: seq<AnthropicMessage>, m: AnthropicMessage)
    ensures AnthropicPieces(ms + [m]) == AnthropicPieces(ms) + PiecesOf(m.role, m.content)
  {
    hide PiecesOf;
    assert (ms + [m])[..|ms|] == ms;
  }

  /** One more result in the last message. */
  lemma ResultPieces(before: seq<AnthropicMessage>, blocks: seq<Block>, m: ChatMessage)
    ensures AnthropicPieces(before + [AnthropicMessage(USER, Blocks(blocks + [ResultBlock(m)]))]) ==
            AnthropicPieces(before + [AnthropicMessage(USER, Blocks(blocks))]) + [Output(m.toolCallId, m.content)]
  {
    hide PiecesIn, AnthropicPieces;
    AnthropicSnoc(before, AnthropicMessage(USER, Blocks(blocks)));
    AnthropicSnoc(before, AnthropicMessage(USER, Blocks(blocks + [ResultBlock(m)])));
    PiecesAppend(USER, blocks, [ResultBlock(m)]);
    PiecesOfOne(USER, ResultBlock(m));
  }

  lemma FirstResult(before: seq<AnthropicMessage>, m: ChatMessage)
    ensures AnthropicPieces(before + [AnthropicMessage(USER, Blocks([ResultBlock(m)]))]) ==
            AnthropicPieces(before) + [Output(m.toolCallId, m.content)]
  {
    hide PiecesIn, AnthropicPieces;
    AnthropicSnoc(before, AnthropicMessage(USER, Blocks([ResultBlock(m)])));
    PiecesOfOne(USER, ResultBlock(m));
  }

  lemma {:induction false} AllPieces(ms: seq<ChatMessage>, canon: string -> Option<string>, n: nat)
    requires n <= |ms|
    ensures AnthropicPieces(ForthAll(ms[..n], canon)) == AllChatPieces(ms[..n], canon)
    ensures SystemParts(ms[..n]) == PromptTexts(ms[..n])
    decreases n
  {
    hide ForthAll, SystemParts, AllChatPieces, PromptTexts, Forth, PlainText, AnthropicPieces, ChatPieces, Says;
    if n == 0 {
      NoPieces(canon);
      Nothing(canon);
    } else {
      var m, before := ms[n - 1], ForthAll(ms[..n - 1], canon);
      AllPieces(ms, canon, n - 1);
      ChatSnoc(ms, n - 1, canon);
      PlainTextSays(m.content);
      if m.role == TOOL {
        ToolStep(ms, n - 1, canon);
        if n > 1 && ms[n - 2].role == TOOL {
          var last := |before| - 1;
          LastIsResults(ms, n - 1, canon);
          var blocks := before[last].content.blocks;
          assert before == before[..last] + [AnthropicMessage(USER, Blocks(blocks))];
          ResultPieces(before[..last], blocks, m);
        } else {
          FirstResult(before, m);
        }
        ToolPiece(m, canon);
      } else {
        OtherStep(ms, n - 1, canon);
        if Hoisted(m) {
          HoistedPiece(m, canon);
          assert before + [] == before;
          assert AllChatPieces(ms[..n - 1], canon) + [] == AllChatPieces(ms[..n - 1], canon);
        } else {
          AnthropicSnoc(before, Forth(m, canon));
          ForthPieces(m, canon);
          assert SystemParts(ms[..n - 1]) + [] == SystemParts(ms[..n - 1]);
        }
      }
    }
  }

  lemma LastIsResults(ms: seq<ChatMessage>, n: nat, canon: string -> Option<string>)
    requires 0 < n <= |ms| && ms[n - 1].role == TOOL
    ensures var r := ForthAll(ms[..n], canon); r != [] && r[|r| - 1].role == USER && r[|r| - 1].content.Blocks?
  {
  }

  lemma ToolPiece(m: ChatMessage, canon: string -> Option<string>)
    requires m.role == TOOL
    ensures ChatPieces(m, canon) == [Output(m.toolCallId, m.content)]
  {
  }

  lemma HoistedPiece(m: ChatMessage, canon: string -> Option<string>)
    requires Hoisted(m)
    ensures ChatPieces(m, canon) == []
  {
  }

  lemma ChatSnoc(ms: seq<ChatMessage>, n: nat, canon: string -> Option<string>)
    requires n < |ms|
    ensures AllChatPieces(ms[..n + 1], canon) == AllChatPieces(ms[..n], canon) + ChatPieces(ms[n], canon)
    ensures PromptTexts(ms[..n + 1]) == PromptTexts(ms[..n]) +
        (if ms[n].role == "system" || ms[n].role == "developer" then [Says(ms[n].content)] else [])
  {
    hide ChatPieces, Says;
    assert ms[..n + 1][..n] == ms[..n];
  }

  lemma NoPieces(canon: string -> Option<string>)
    ensures AllChatPieces([], canon) == [] && AnthropicPieces([]) == [] && PromptTexts([]) == []
  {
  }

  /** For every list of chat messages that is not refused: texts, images, tool uses and tool
      results come out in the order they went in, and nothing else; the texts of the system and
      developer messages, joined with blank lines, are the system prompt. */
  lemma EverythingConserved(ms: seq<ChatMessage>, canon: string -> Option<string>)
    requires ToAnthropicRequest(ms, canon).Ok?
    ensures var req := ToAnthropicRequest(ms, canon).value;
      && AnthropicPieces(req.messages) == AllChatPieces(ms, canon)
      && req.system == (if PromptTexts(ms) == [] then NoSystem else SystemText(Join(PromptTexts(ms), "\n\n")))
  {
    hide ForthAll, SystemParts, AllChatPieces, PromptTexts, AnthropicPieces, Join;
    AllPieces(ms, canon, |ms|);
    assert ms[..|ms|] == ms;
  }

  // ----- Image addresses -----

  /** A cut is at the first occurrence of the separator, and there is one unless the separator
      does not occur. */
  lemma {:induction false} CutIsFirst(s: string, separator: string, a: string, b: string)
    requires separator != ""
    ensures Cut(s, separator) == Some((a, b)) <==>
            s == a + separator + b && forall k | 0 <= k < |a| :: !(separator <= s[k..])
    decreases |s|
  {
    if separator <= s {
      assert s[0..] == s;
      assert s == separator + s[|separator|..];
      if s == a + separator + b && a == "" { assert "" + separator == separator; }
      assert "" + separator + s[|separator|..] == s;
    } else if s == "" {
      assert |a + separator + b| > 0;
    } else {
      if a == "" {
        assert a + separator + b == separator + b;
      } else {
        CutIsFirst(s[1..], separator, a[1..], b);
        assert a == [a[0]] + a[1..];
        assert (s == a + separator + b) <==> (s[0] == a[0] && s[1..] == a[1..] + separator + b) by {
          assert a + separator + b == [a[0]] + (a[1..] + separator + b);
          assert s == [s[0]] + s[1..];
        }
        if |a| <= |s| { FirstOrLater(s, separator, a); }
      }
    }
  }

  lemma FirstOrLater(s: string, separator: string, a: string)
    requires s != "" && a != "" && |a| <= |s|
    ensures (forall k | 0 <= k < |a| :: !(separator <= s[k..])) <==>
            !(separator <= s) && forall k | 0 <= k < |a[1..]| :: !(separator <= s[1..][k..])
  {
    assert s[0..] == s;
    assert forall k | 0 <= k < |a[1..]| :: s[1..][k..] == s[k + 1..];
    if !(separator <= s) && forall k | 0 <= k < |a[1..]| :: !(separator <= s[1..][k..]) {
      forall k | 0 <= k < |a| ensures !(separator <= s[k..]) {
        if k > 0 { assert s[1..][k - 1..] == s[k..]; }
      }
    }
  }

  /** What becomes of an image address, for every text: a data address is read at the first
      place it can be, a web address is passed on, and nothing else is an image. */
  lemma ImageAddress(url: string, mediaType: string, data: string)
    ensures ImageOf(url) == Some(ImageData(mediaType, data)) <==>
            && url == "data:" + (mediaType + ";base64," + data)
            && mediaType != "" && data != ""
            && forall k | 0 <= k < |mediaType| :: !(";base64," <= (mediaType + ";base64," + data)[k..])
  {
    hide Cut;
    var rest := mediaType + ";base64," + data;
    if "data:" <= url {
      var tail := url[5..];
      assert url == "data:" + tail && ("data:" + rest)[5..] == rest;
      CutIsFirst(tail, ";base64,", mediaType, data);
    }
  }

  lemma WebAddress(url: string)
    ensures "http://" <= url || "https://" <= url <==> ImageOf(url) == Some(ImageLink(url))
  {
    hide Cut;
    assert "data:" <= url ==> url[0] == 'd';
  }
}
