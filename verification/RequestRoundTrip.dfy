/**
 The request round trip: what a message list comes back as from OpenAI to Anthropic and
 back, and exactly which lists come back unchanged.
 */
module RequestRoundTrip {
  import opened Wrappers
  import opened RequestFormat
  import opened RequestConversion

  // ----- The round trip acts message by message -----

  /** What one message that is not hoisted comes back as, seen alone. */
  function Image(m: ChatMessage, canon: string -> Option<string>): seq<ChatMessage> {
    if m.role == TOOL then [ChatMessage(TOOL, Str(PlainText(m.content)), [], m.toolCallId)]
    else Back(Forth(m, canon))
  }

  function Images(ms: seq<ChatMessage>, canon: string -> Option<string>): seq<ChatMessage> {
    if ms == [] then []
    else
      var last := ms[|ms| - 1];
      Images(ms[..|ms| - 1], canon) + (if Hoisted(last) then [] else Image(last, canon))
  }

  lemma BackSnoc(ms: seq<AnthropicMessage>, m: AnthropicMessage)
    ensures BackAll(ms + [m]) == BackAll(ms) + Back(m)
  {
    assert (ms + [m])[..|ms|] == ms;
  }

  predicate OnlyResults(blocks: seq<Block>) { forall b | b in blocks :: b.ToolResult? }

  lemma {:induction false} ResultsHoldNothingElse(blocks: seq<Block>)
    requires OnlyResults(blocks)
    ensures Texts(blocks) == [] && ImagesOf(blocks) == []
    decreases |blocks|
  {
    if blocks != [] {
      assert blocks[|blocks| - 1] in blocks;
      ResultsHoldNothingElse(blocks[..|blocks| - 1]);
    }
  }

  /** A message of tool results comes back as one tool message for each. */
  lemma OneMoreResult(blocks: seq<Block>, m: ChatMessage)
    requires OnlyResults(blocks) && m.role == TOOL
    ensures OnlyResults(blocks + [ResultBlock(m)])
    ensures Back(AnthropicMessage(USER, Blocks(blocks + [ResultBlock(m)]))) ==
            Back(AnthropicMessage(USER, Blocks(blocks))) +
                [ChatMessage(TOOL, Str(PlainText(m.content)), [], m.toolCallId)]
  {
    hide PlainText, Texts, ImagesOf, ResultsOf;
    ResultsSnoc(blocks, m);
    OnlyResultsBack(blocks);
    OnlyResultsBack(blocks + [ResultBlock(m)]);
  }

  lemma OnlyResultsBack(blocks: seq<Block>)
    requires OnlyResults(blocks)
    ensures Back(AnthropicMessage(USER, Blocks(blocks))) == ResultsOf(blocks)
  {
    hide Texts, ImagesOf, ResultsOf;
    ResultsHoldNothingElse(blocks);
    assert ResultsOf(blocks) + [] == ResultsOf(blocks);
  }

  lemma ResultsSnoc(blocks: seq<Block>, m: ChatMessage)
    ensures ResultsOf(blocks + [ResultBlock(m)]) ==
            ResultsOf(blocks) + [ChatMessage(TOOL, Str(PlainText(m.content)), [], m.toolCallId)]
  {
    hide PlainText;
    assert (blocks + [ResultBlock(m)])[..|blocks|] == blocks;
  }

  /** The message the results of a tool run are collected in. */
  ghost predicate EndsWithResults(r: seq<AnthropicMessage>) {
    |r| > 0 && r[|r| - 1].role == USER && r[|r| - 1].content.Blocks? && OnlyResults(r[|r| - 1].content.blocks)
  }

  lemma NoResults()
    ensures Back(AnthropicMessage(USER, Blocks([]))) == []
  {
  }

  lemma ImagesSnoc(ms: seq<ChatMessage>, n: nat, canon: string -> Option<string>)
    requires n < |ms|
    ensures Images(ms[..n + 1], canon) == Images(ms[..n], canon) + (if Hoisted(ms[n]) then [] else Image(ms[n], canon))
  {
    assert ms[..n + 1][..n] == ms[..n];
  }

  /** The second tool message of a run, or a later one. */
  lemma RunGrows(before: seq<AnthropicMessage>, m: ChatMessage, after: seq<AnthropicMessage>)
    requires EndsWithResults(before) && m.role == TOOL
    requires var last := |before| - 1;
      after == before[..last] + [AnthropicMessage(USER, Blocks(before[last].content.blocks + [ResultBlock(m)]))]
    ensures EndsWithResults(after)
    ensures BackAll(after) == BackAll(before) + [ChatMessage(TOOL, Str(PlainText(m.content)), [], m.toolCallId)]
  {
    hide Back, PlainText, BackAll;
    var last := |before| - 1;
    var blocks := before[last].content.blocks;
    assert before == before[..last] + [AnthropicMessage(USER, Blocks(blocks))];
    BackSnoc(before[..last], AnthropicMessage(USER, Blocks(blocks)));
    BackSnoc(before[..last], AnthropicMessage(USER, Blocks(blocks + [ResultBlock(m)])));
    OneMoreResult(blocks, m);
  }

  lemma RunStarts(before: seq<AnthropicMessage>, m: ChatMessage)
    requires m.role == TOOL
    ensures var after := before + [AnthropicMessage(USER, Blocks([ResultBlock(m)]))];
      EndsWithResults(after) &&
      BackAll(after) == BackAll(before) + [ChatMessage(TOOL, Str(PlainText(m.content)), [], m.toolCallId)]
  {
    hide Back, PlainText, BackAll;
    assert [] + [ResultBlock(m)] == [ResultBlock(m)];
    OneMoreResult([], m);
    NoResults();
    BackSnoc(before, AnthropicMessage(USER, Blocks([ResultBlock(m)])));
  }

  lemma {:induction false} BackOfForth(ms: seq<ChatMessage>, canon: string -> Option<string>, n: nat)
    requires n <= |ms|
    ensures BackAll(ForthAll(ms[..n], canon)) == Images(ms[..n], canon)
    ensures n > 0 && ms[n - 1].role == TOOL ==> EndsWithResults(ForthAll(ms[..n], canon))
    decreases n
  {
    hide Back, Forth, PlainText, BackAll, ForthAll, Images;
    if n == 0 {
      Nothing(canon);
      NoImagesYet(canon);
    } else {
      var before := ForthAll(ms[..n - 1], canon);
      var m := ms[n - 1];
      BackOfForth(ms, canon, n - 1);
      ImagesSnoc(ms, n - 1, canon);
      if m.role == TOOL {
        ToolStep(ms, n - 1, canon);
        if n > 1 && ms[n - 2].role == TOOL {
          var last := |before| - 1;
          var blocks := before[last].content.blocks;
          assert before == before[..last] + [AnthropicMessage(USER, Blocks(blocks))];
          RunGrows(before, m, ForthAll(ms[..n], canon));
        } else {
          RunStarts(before, m);
        }
      } else {
        OtherStep(ms, n - 1, canon);
        if Hoisted(m) {
          assert before + [] == before && Images(ms[..n - 1], canon) + [] == Images(ms[..n - 1], canon);
        } else {
          BackSnoc(before, Forth(m, canon));
        }
      }
    }
  }

  lemma NoImagesYet(canon: string -> Option<string>)
    ensures Images([], canon) == []
  {
  }

  // ----- Nothing but the head is a system message -----

  predicate NoSystemIn(ms: seq<ChatMessage>) { forall m | m in ms :: m.role != SYSTEM }

  lemma {:induction false} RestKeeps(ms: seq<ChatMessage>)
    requires NoSystemIn(ms)
    ensures Rest(ms) == ms && Chunks(ms) == []
    decreases |ms|
  {
    if ms != [] {
      RestKeeps(ms[..|ms| - 1]);
      assert ms == ms[..|ms| - 1] + [ms[|ms| - 1]];
    }
  }

  lemma {:induction false} CollapseAppend(xs: seq<ChatMessage>, ys: seq<ChatMessage>)
    ensures Rest(xs + ys) == Rest(xs) + Rest(ys)
    ensures Chunks(xs + ys) == Chunks(xs) + Chunks(ys)
    decreases |ys|
  {
    if ys == [] {
      assert xs + ys == xs;
    } else {
      CollapseAppend(xs, ys[..|ys| - 1]);
      assert (xs + ys)[..|xs + ys| - 1] == xs + ys[..|ys| - 1];
    }
  }

  lemma {:induction false} ResultsAreTools(blocks: seq<Block>)
    ensures forall m | m in ResultsOf(blocks) :: m.role == TOOL && m.toolCalls == []
    decreases |blocks|
  {
    hide PlainText;
    if blocks != [] { ResultsAreTools(blocks[..|blocks| - 1]); }
  }

  /** Only a message whose content is not a list can come back as a system message. */
  lemma BackRoles(m: AnthropicMessage)
    ensures forall r | r in Back(m) && r.role == SYSTEM :: r.content.Str?
    ensures m.role != SYSTEM ==> NoSystemIn(Back(m))
  {
    hide PlainText, Texts, CallsOf, ImagesOf, Join;
    if m.content.Blocks? { ResultsAreTools(m.content.blocks); }
  }

  lemma {:induction false} NoSystemImages(ms: seq<ChatMessage>, canon: string -> Option<string>)
    ensures NoSystemIn(Images(ms, canon))
    decreases |ms|
  {
    hide Back, PlainText;
    if ms != [] {
      NoSystemImages(ms[..|ms| - 1], canon);
      BackRoles(Forth(ms[|ms| - 1], canon));
    }
  }

  /** The system prompt a list of chat messages ends up with. */
  function Prompt(ms: seq<ChatMessage>): string { Join(SystemParts(ms), SEPARATOR) }

  function Head(ms: seq<ChatMessage>): seq<ChatMessage> {
    if Blank(Prompt(ms)) then [] else [Plain(SYSTEM, Prompt(ms))]
  }

  function RoundTripped(ms: seq<ChatMessage>, canon: string -> Option<string>): Result<seq<ChatMessage>, string> {
    match ToAnthropicRequest(ms, canon)
    case Ok(req) => Ok(ToOpenAiMessages(req))
    case Err(e) => Err(e)
  }

  lemma CollapsePrompt(text: string, body: seq<ChatMessage>)
    requires NoSystemIn(body)
    ensures Collapse((if text != "" then [Plain(SYSTEM, text)] else []) + body) ==
            (if Blank(text) then [] else [Plain(SYSTEM, text)]) + body
  {
    RestKeeps(body);
    var head := if text != "" then [Plain(SYSTEM, text)] else [];
    CollapseAppend(head, body);
    if text != "" {
      assert head[..0] == [];
      assert Chunks(head) == (if Blank(text) then [] else [text]) && Rest(head) == [];
    }
    assert [] + body == body;
  }

  /** The merging of tool runs is undone completely: both conversions together act on every
      message alone, and on the system messages as one. */
  lemma RoundTripActsByMessage(ms: seq<ChatMessage>, canon: string -> Option<string>)
    requires ToAnthropicRequest(ms, canon).Ok?
    ensures RoundTripped(ms, canon) == Ok(Head(ms) + Images(ms, canon))
  {
    hide ForthAll, BackAll, Images, Collapse, Join, SystemParts;
    BackOfForth(ms, canon, |ms|);
    assert ms[..|ms|] == ms;
    NoSystemImages(ms, canon);
    CollapsePrompt(Prompt(ms), Images(ms, canon));
    JoinNothing();
  }

  lemma JoinNothing()
    ensures Join([], SEPARATOR) == ""
  {
  }

  /** The only lists that are refused are those of system messages. */
  lemma {:induction false} RefusedIffOnlySystem(ms: seq<ChatMessage>, canon: string -> Option<string>)
    ensures ToAnthropicRequest(ms, canon).Err? <==> forall m | m in ms :: Hoisted(m)
    decreases |ms|
  {
    hide Forth;
    if ms != [] {
      var n := |ms| - 1;
      RefusedIffOnlySystem(ms[..n], canon);
      assert ms == ms[..n] + [ms[n]];
    }
  }

  // ----- Which messages come back unchanged -----

  predicate NonemptyText(b: Block) { b.TextBlock? && b.text != "" }

  /** Texts first, then at least one image. */
  predicate NormalParts(parts: seq<Block>) {
    && Ordered(parts)
    && |parts| > 0 && Inline(parts[|parts| - 1])
  }

  predicate Ordered(parts: seq<Block>) {
    && (forall i | 0 <= i < |parts| :: NonemptyText(parts[i]) || Inline(parts[i]))
    && (forall i, j | 0 <= i < j < |parts| :: Inline(parts[i]) ==> Inline(parts[j]))
  }

  predicate NormalCall(c: Call, canon: string -> Option<string>) {
    c.index.None? && c.kind == "function" && c.name != "" && canon(c.arguments).GetOr("{}") == c.arguments
  }

  predicate NormalMessage(m: ChatMessage, canon: string -> Option<string>) {
    if m.role == USER then
      m.toolCalls == [] && m.toolCallId == ""
          && (m.content.Str? || (m.content.Blocks? && NormalParts(m.content.blocks)))
    else if m.role == ASSISTANT then
      && m.toolCallId == ""
      && (if m.toolCalls == [] then m.content.Str? else m.content.Nil? || (m.content.Str? && m.content.s != ""))
      && forall c | c in m.toolCalls :: NormalCall(c, canon)
    else if m.role == TOOL then m.content.Str? && m.toolCalls == []
    else false
  }

  // User content

  /** The texts and the inline images among the parts. */
  function KeptTexts(parts: seq<Block>): seq<string> {
    if parts == [] then []
    else
      var last := parts[|parts| - 1];
      KeptTexts(parts[..|parts| - 1]) + (if NonemptyText(last) then [last.text] else [])
  }

  function KeptImages(parts: seq<Block>): seq<Block> {
    if parts == [] then []
    else
      var last := parts[|parts| - 1];
      KeptImages(parts[..|parts| - 1]) + (if Inline(last) then [last] else [])
  }

  lemma {:induction false} PartsBack(parts: seq<Block>)
    ensures var blocks := ConvertParts(parts);
      Texts(blocks) == KeptTexts(parts) && ImagesOf(blocks) == KeptImages(parts) && ResultsOf(blocks) == []
    decreases |parts|
  {
    if parts != [] {
      var n := |parts| - 1;
      PartsBack(parts[..n]);
      OnePartBack(ConvertParts(parts[..n]), parts[n]);
    }
  }

  lemma OnePartBack(blocks: seq<Block>, part: Block)
    ensures var more := blocks + (if ConvertPart(part).Some? then [ConvertPart(part).value] else []);
      && Texts(more) == Texts(blocks) + (if NonemptyText(part) then [part.text] else [])
      && ImagesOf(more) == ImagesOf(blocks) + (if Inline(part) then [part] else [])
      && ResultsOf(more) == ResultsOf(blocks)
  {
    if ConvertPart(part).Some? {
      assert (blocks + [ConvertPart(part).value])[..|blocks|] == blocks;
    } else {
      assert blocks + [] == blocks;
    }
  }

  lemma {:induction false} KeptAreKept(parts: seq<Block>)
    ensures forall t | t in KeptTexts(parts) :: t != ""
    ensures forall b | b in KeptImages(parts) :: Inline(b)
    decreases |parts|
  {
    if parts != [] { KeptAreKept(parts[..|parts| - 1]); }
  }

  /** Sorting the parts into texts and images changes nothing exactly when they are in that
      order already, and nothing is dropped. */
  lemma {:induction false} SortedWhenOrdered(parts: seq<Block>)
    requires Ordered(parts)
    ensures TextBlocks(KeptTexts(parts)) + KeptImages(parts) == parts
    ensures (exists b | b in parts :: Inline(b)) ==> KeptImages(parts) != []
    decreases |parts|
  {
    hide ImageOf;
    if parts != [] {
      var n := |parts| - 1;
      var texts, images := KeptTexts(parts[..n]), KeptImages(parts[..n]);
      SortedWhenOrdered(parts[..n]);
      assert parts == parts[..n] + [parts[n]];
      if NonemptyText(parts[n]) {
        assert forall i | 0 <= i < n :: !Inline(parts[i]);
        NoImages(parts[..n]);
        assert TextBlocks(texts + [parts[n].text]) == TextBlocks(texts) + [parts[n]];
      } else {
        assert (TextBlocks(texts) + images) + [parts[n]] == TextBlocks(texts) + (images + [parts[n]]);
      }
    }
  }

  lemma {:induction false} NoImages(parts: seq<Block>)
    requires forall b | b in parts :: !Inline(b)
    ensures KeptImages(parts) == []
    decreases |parts|
  {
    if parts != [] { NoImages(parts[..|parts| - 1]); }
  }

  lemma OrderedWhenSorted(parts: seq<Block>)
    requires TextBlocks(KeptTexts(parts)) + KeptImages(parts) == parts && KeptImages(parts) != []
    ensures NormalParts(parts)
  {
    hide KeptTexts, KeptImages, ImageOf;
    KeptAreKept(parts);
    var texts, images := KeptTexts(parts), KeptImages(parts);
    forall i | 0 <= i < |parts| ensures if i < |texts| then NonemptyText(parts[i]) else Inline(parts[i]) {
      if i < |texts| {
        assert parts[i] == TextBlock(texts[i]) && texts[i] in texts;
      } else {
        assert parts[i] == images[i - |texts|];
      }
    }
  }

  lemma UserBlocksBack(parts: seq<Block>)
    requires parts != []
    ensures var texts, images := KeptTexts(parts), KeptImages(parts);
      Back(AnthropicMessage(USER, UserContent(Blocks(parts)))) ==
      if ConvertParts(parts) == [] then [Plain(USER, "")]
      else if images != [] then [ChatMessage(USER, Blocks(TextBlocks(texts) + images), [], "")]
      else if texts != [] then [Plain(USER, Join(texts, ""))]
      else []
  {
    hide ConvertParts, KeptTexts, KeptImages, Texts, ImagesOf, ResultsOf, Join;
    PartsBack(parts);
  }

  lemma NothingConverted(parts: seq<Block>)
    requires ConvertParts(parts) == []
    ensures KeptImages(parts) == []
  {
    PartsBack(parts);
  }

  lemma UserUnchanged(m: ChatMessage, canon: string -> Option<string>)
    requires m.role == USER
    ensures Image(m, canon) == [m] <==> NormalMessage(m, canon)
  {
    hide KeptTexts, KeptImages, ConvertParts, Join, Texts, ImagesOf, ResultsOf, NormalParts, Ordered, PlainText;
    if m.content.Blocks? {
      var parts := m.content.blocks;
      if parts == [] {
        NoResults();
        EmptyNotNormal();
      } else {
        UserBlocksBack(parts);
        if ConvertParts(parts) == [] { NothingConverted(parts); }
        if NormalParts(parts) {
          NormalHasImages(parts);
        } else if KeptImages(parts) != [] && TextBlocks(KeptTexts(parts)) + KeptImages(parts) == parts {
          OrderedWhenSorted(parts);
        }
      }
    }
  }

  lemma EmptyNotNormal()
    ensures !NormalParts([])
  {
  }

  lemma NormalHasImages(parts: seq<Block>)
    requires NormalParts(parts)
    ensures KeptImages(parts) != [] && TextBlocks(KeptTexts(parts)) + KeptImages(parts) == parts
  {
    SortedWhenOrdered(parts);
    assert parts[|parts| - 1] in parts;
  }

  // Assistant content

  function BackCalls(calls: seq<Call>, canon: string -> Option<string>): seq<Call> {
    seq(|calls|, i requires 0 <= i < |calls| => CallOf(UseBlock(calls[i], canon)))
  }

  lemma {:induction false} CallsBack(calls: seq<Call>, canon: string -> Option<string>)
    ensures Texts(UseBlocks(calls, canon)) == []
    ensures CallsOf(UseBlocks(calls, canon)) == BackCalls(calls, canon)
    decreases |calls|
  {
    if calls != [] {
      var n := |calls| - 1;
      CallsBack(calls[..n], canon);
      assert UseBlocks(calls, canon)[..n] == UseBlocks(calls[..n], canon);
    }
  }

  lemma {:induction false} BlocksAppend(xs: seq<Block>, ys: seq<Block>)
    ensures Texts(xs + ys) == Texts(xs) + Texts(ys)
    ensures CallsOf(xs + ys) == CallsOf(xs) + CallsOf(ys)
    decreases |ys|
  {
    if ys == [] {
      assert xs + ys == xs;
    } else {
      BlocksAppend(xs, ys[..|ys| - 1]);
      assert (xs + ys)[..|xs + ys| - 1] == xs + ys[..|ys| - 1];
    }
  }

  /** A call comes back as itself exactly when it is in normal form. */
  lemma CallUnchanged(c: Call, canon: string -> Option<string>)
    ensures CallOf(UseBlock(c, canon)) == c <==> NormalCall(c, canon)
    ensures c.name == "" ==> CallOf(UseBlock(c, canon)).name == "<nil>"
  {
  }

  lemma AssistantBlocksBack(m: ChatMessage, canon: string -> Option<string>)
    requires m.toolCalls != []
    ensures var text := PlainText(m.content);
      Back(AnthropicMessage(ASSISTANT, AssistantContent(m, canon))) ==
      [ChatMessage(ASSISTANT, if text == "" then Nil else Str(text), BackCalls(m.toolCalls, canon), "")]
  {
    hide PlainText, Texts, CallsOf, UseBlocks, Join, BackCalls;
    var text := PlainText(m.content);
    var uses := UseBlocks(m.toolCalls, canon);
    CallsBack(m.toolCalls, canon);
    var head := if text != "" then [TextBlock(text)] else [];
    BlocksAppend(head, uses);
    OneText(text);
    NoText();
    var blocks := head + uses;
    assert AssistantContent(m, canon) == Blocks(blocks);
    assert Texts(blocks) == if text != "" then [text] else [];
    assert CallsOf(blocks) == BackCalls(m.toolCalls, canon);
    SomeCalls(m.toolCalls, canon);
  }

  lemma NoText()
    ensures Texts([]) == [] && CallsOf([]) == []
  {
  }

  lemma SomeCalls(calls: seq<Call>, canon: string -> Option<string>)
    ensures |BackCalls(calls, canon)| == |calls|
  {
  }

  lemma OneText(text: string)
    ensures Texts([TextBlock(text)]) == [text] && CallsOf([TextBlock(text)]) == [] && Join([text], "") == text
  {
    assert [TextBlock(text)][..0] == [];
  }

  lemma AssistantUnchanged(m: ChatMessage, canon: string -> Option<string>)
    requires m.role == ASSISTANT
    ensures Image(m, canon) == [m] <==> NormalMessage(m, canon)
  {
    hide Join, Texts, CallsOf;
    if m.toolCalls == [] {
    } else {
      hide Back, AssistantContent;
      AssistantBlocksBack(m, canon);
      var calls := BackCalls(m.toolCalls, canon);
      forall c | c in m.toolCalls ensures CallOf(UseBlock(c, canon)) == c <==> NormalCall(c, canon) {
        CallUnchanged(c, canon);
      }
      if calls == m.toolCalls {
        forall c | c in m.toolCalls ensures NormalCall(c, canon) {
          var i :| 0 <= i < |m.toolCalls| && m.toolCalls[i] == c;
          assert calls[i] == c;
        }
      }
    }
  }

  lemma MessageUnchanged(m: ChatMessage, canon: string -> Option<string>)
    requires !Hoisted(m)
    ensures Image(m, canon) == [m] <==> NormalMessage(m, canon)
  {
    hide Back, Forth, PlainText, NormalParts;
    if m.role == USER {
      UserUnchanged(m, canon);
    } else if m.role == ASSISTANT {
      AssistantUnchanged(m, canon);
    } else if m.role == TOOL {
      PlainForms(m.content);
    } else {
      OtherRole(m, canon);
    }
  }

  lemma PlainForms(content: Content)
    ensures content.Str? ==> PlainText(content) == content.s
  {
  }

  lemma OtherRole(m: ChatMessage, canon: string -> Option<string>)
    requires !Hoisted(m) && m.role !in {USER, ASSISTANT, TOOL}
    ensures Image(m, canon) == [Plain(USER, "[" + m.role + "]: " + PlainText(m.content))]
  {
    hide PlainText;
  }

  // ----- The theorem -----

  /** The messages after a leading system message, if there is one. */
  function Body(ms: seq<ChatMessage>): seq<ChatMessage> {
    if ms != [] && ms[0].role == SYSTEM then ms[1..] else ms
  }

  predicate NormalSystem(m: ChatMessage) {
    m.role == SYSTEM && m.content.Str? && !Blank(m.content.s) && m.toolCalls == [] && m.toolCallId == ""
  }

  /** At most one system message, at the head and not blank, then at least one other message,
      all in normal form. */
  predicate Normal(ms: seq<ChatMessage>, canon: string -> Option<string>) {
    && Body(ms) != []
    && (ms[0].role == SYSTEM ==> NormalSystem(ms[0]))
    && forall m | m in Body(ms) :: NormalMessage(m, canon)
  }

  lemma {:induction false} ImagesAppend(xs: seq<ChatMessage>, ys: seq<ChatMessage>, canon: string -> Option<string>)
    ensures Images(xs + ys, canon) == Images(xs, canon) + Images(ys, canon)
    decreases |ys|
  {
    hide Image;
    if ys == [] {
      assert xs + ys == xs;
    } else {
      ImagesAppend(xs, ys[..|ys| - 1], canon);
      assert (xs + ys)[..|xs + ys| - 1] == xs + ys[..|ys| - 1];
    }
  }

  lemma {:induction false} SystemPartsAppend(xs: seq<ChatMessage>, ys: seq<ChatMessage>)
    ensures SystemParts(xs + ys) == SystemParts(xs) + SystemParts(ys)
    decreases |ys|
  {
    hide PlainText;
    if ys == [] {
      assert xs + ys == xs;
    } else {
      SystemPartsAppend(xs, ys[..|ys| - 1]);
      assert (xs + ys)[..|xs + ys| - 1] == xs + ys[..|ys| - 1];
    }
  }

  lemma {:induction false} NormalBody(ms: seq<ChatMessage>, canon: string -> Option<string>)
    requires forall m | m in ms :: NormalMessage(m, canon)
    ensures Images(ms, canon) == ms && SystemParts(ms) == []
    decreases |ms|
  {
    hide Image, PlainText;
    if ms != [] {
      var n := |ms| - 1;
      NormalBody(ms[..n], canon);
      assert NormalMessage(ms[n], canon);
      MessageUnchanged(ms[n], canon);
      assert ms == ms[..n] + [ms[n]];
    }
  }

  lemma HeadOfSystem(m: ChatMessage, body: seq<ChatMessage>, canon: string -> Option<string>)
    requires Hoisted(m)
    ensures SystemParts([m] + body) == [PlainText(m.content)] + SystemParts(body)
    ensures Images([m] + body, canon) == Images(body, canon)
  {
    hide Image, PlainText;
    ImagesAppend([m], body, canon);
    SystemPartsAppend([m], body);
    assert [m][..0] == [];
    assert [] + Images(body, canon) == Images(body, canon);
  }

  lemma NormalComesBack(ms: seq<ChatMessage>, canon: string -> Option<string>)
    requires Normal(ms, canon)
    ensures RoundTripped(ms, canon) == Ok(ms)
  {
    hide Images, SystemParts, Image, NormalMessage, RoundTripped, ToAnthropicRequest, Blank, Join;
    var body := Body(ms);
    NormalBody(body, canon);
    assert body[0] in body;
    SomeIsKept(body[0], canon);
    assert body[0] in ms;
    RefusedIffOnlySystem(ms, canon);
    RoundTripActsByMessage(ms, canon);
    if ms[0].role == SYSTEM {
      assert ms == [ms[0]] + body;
      HeadOfSystem(ms[0], body, canon);
      JoinOne(ms[0].content.s);
      assert [ms[0].content.s] + [] == [ms[0].content.s];
      assert Head(ms) == [ms[0]];
    } else {
      NothingIsBlank();
      assert [] + ms == ms;
    }
  }

  lemma SomeIsKept(m: ChatMessage, canon: string -> Option<string>)
    requires NormalMessage(m, canon)
    ensures !Hoisted(m)
  {
  }

  lemma JoinOne(s: string)
    ensures Join([s], SEPARATOR) == s
  {
  }

  lemma NothingIsBlank()
    ensures Blank(Join([], SEPARATOR))
  {
  }

  /** A message never comes back as more than one. */
  lemma AtMostOne(m: ChatMessage, canon: string -> Option<string>)
    requires !Hoisted(m)
    ensures |Image(m, canon)| <= 1
  {
    hide PlainText, Texts, CallsOf, ImagesOf, Join, ConvertParts, ResultsOf;
    if m.role == USER {
      if m.content.Blocks? {
        if m.content.blocks == [] { NoResults(); } else { UserBlocksBack(m.content.blocks); }
      }
    }
  }

  lemma {:induction false} NoLonger(ms: seq<ChatMessage>, canon: string -> Option<string>)
    ensures |Images(ms, canon)| <= |ms|
    ensures |Images(ms, canon)| == |ms| ==> forall m | m in ms :: !Hoisted(m)
    decreases |ms|
  {
    hide Image;
    if ms != [] {
      var n := |ms| - 1;
      NoLonger(ms[..n], canon);
      if !Hoisted(ms[n]) { AtMostOne(ms[n], canon); }
      assert ms == ms[..n] + [ms[n]];
    }
  }

  /** If all messages together come back unchanged, each one does. */
  lemma {:induction false} EachUnchanged(ms: seq<ChatMessage>, canon: string -> Option<string>)
    requires Images(ms, canon) == ms
    ensures forall m | m in ms :: !Hoisted(m) && Image(m, canon) == [m]
    decreases |ms|
  {
    hide Image;
    if ms != [] {
      var n := |ms| - 1;
      NoLonger(ms, canon);
      NoLonger(ms[..n], canon);
      assert ms[n] in ms;
      AtMostOne(ms[n], canon);
      assert |Images(ms[..n], canon)| == n;
      assert ms == ms[..n] + [ms[n]];
      assert Images(ms[..n], canon) == Images(ms, canon)[..n];
      EachUnchanged(ms[..n], canon);
    }
  }

  lemma ComesBackNormal(ms: seq<ChatMessage>, canon: string -> Option<string>)
    requires RoundTripped(ms, canon) == Ok(ms)
    ensures Normal(ms, canon)
  {
    hide Images, SystemParts, Image, NormalMessage, RoundTripped, ToAnthropicRequest, Blank, Join, PlainText;
    AcceptedRoundTrip(ms, canon);
    RoundTripActsByMessage(ms, canon);
    RefusedIffOnlySystem(ms, canon);
    NoSystemImages(ms, canon);
    var body := Body(ms);
    var images := Images(ms, canon);
    assert [] + images == images;
    assert ms[0] in ms;
    if ms[0].role == SYSTEM {
      assert ms == [ms[0]] + body;
      HeadOfSystem(ms[0], body, canon);
      assert Head(ms) == [] ==> images == ms;
      assert ms[0] == Plain(SYSTEM, Prompt(ms));
      assert images == Images(body, canon);
    } else {
      HeadIsFirst(ms, images);
    }
    assert Images(body, canon) == body;
    EachUnchanged(body, canon);
    forall m | m in body ensures NormalMessage(m, canon) {
      MessageUnchanged(m, canon);
    }
    assert body == [] ==> forall m | m in ms :: Hoisted(m);
  }

  lemma HeadIsFirst(ms: seq<ChatMessage>, images: seq<ChatMessage>)
    ensures Head(ms) == [] || (|Head(ms) + images| > 0 && (Head(ms) + images)[0].role == SYSTEM)
  {
    hide Blank;
  }

  lemma AcceptedRoundTrip(ms: seq<ChatMessage>, canon: string -> Option<string>)
    ensures RoundTripped(ms, canon).Ok? <==> ToAnthropicRequest(ms, canon).Ok?
  {
  }

  /** Converting a message list to Anthropic and back is the identity exactly on the lists in
      normal form. */
  lemma RoundTripIffNormal(ms: seq<ChatMessage>, canon: string -> Option<string>)
    ensures RoundTripped(ms, canon) == Ok(ms) <==> Normal(ms, canon)
  {
    hide RoundTripped, Normal;
    if Normal(ms, canon) { NormalComesBack(ms, canon); }
    if RoundTripped(ms, canon) == Ok(ms) { ComesBackNormal(ms, canon); }
  }
}
