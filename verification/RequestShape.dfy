/** What holds of every Anthropic request that was converted to OpenAI. */
module RequestShape {
  import opened RequestFormat
  import opened RequestConversion
  import opened RequestRoundTrip

  // ----- System messages -----


  lemma {:induction false} RestHasNoMovable(ms: seq<ChatMessage>)
    ensures forall m | m in Rest(ms) :: m in ms && !Movable(m)
    decreases |ms|
  {
    if ms != [] {
      var n := |ms| - 1;
      RestHasNoMovable(ms[..n]);
      assert ms == ms[..n] + [ms[n]];
    }
  }

  lemma {:induction false} ChunksAreNotBlank(ms: seq<ChatMessage>)
    ensures forall c | c in Chunks(ms) :: !Blank(c)
    decreases |ms|
  {
    hide Blank;
    if ms != [] { ChunksAreNotBlank(ms[..|ms| - 1]); }
  }

  /** Each message is treated by itself: a system message that is a string goes to the head
      unless it is blank, and every other message stays. */
  lemma CollapseOfOne(m: ChatMessage)
    ensures Chunks([m]) ==
            if m.role == "system" && m.content.Str? && exists i :: 0 <= i < |m.content.s| && !IsSpace(m.content.s[i])
            then [m.content.s] else []
    ensures Rest([m]) == if m.role == "system" && m.content.Str? then [] else [m]
  {
    assert [m][..0] == [];
  }

  /** Collapsing a second time changes nothing. */
  lemma CollapseIdempotent(ms: seq<ChatMessage>)
    ensures Collapse(Collapse(ms)) == Collapse(ms)
  {
    hide Join, Blank;
    var chunks, rest := Chunks(ms), Rest(ms);
    RestHasNoMovable(ms);
    NothingToMove(rest);
    ChunksAreNotBlank(ms);
    JoinBlank(chunks);
    var head := if chunks != [] then [Plain(SYSTEM, Join(chunks, SEPARATOR))] else [];
    CollapseAppend(head, rest);
    if chunks != [] {
      assert chunks[0] in chunks;
      assert head[..0] == [];
      assert Chunks(head) == [Join(chunks, SEPARATOR)] && Rest(head) == [];
      JoinOne(Join(chunks, SEPARATOR));
      assert Chunks(head) + [] == Chunks(head);
    }
    assert [] + rest == rest;
  }

  lemma {:induction false} NothingToMove(ms: seq<ChatMessage>)
    requires forall m | m in ms :: !Movable(m)
    ensures Rest(ms) == ms && Chunks(ms) == []
    decreases |ms|
  {
    if ms != [] {
      NothingToMove(ms[..|ms| - 1]);
      assert ms == ms[..|ms| - 1] + [ms[|ms| - 1]];
    }
  }

  lemma {:induction false} SystemsAreStrings(ms: seq<AnthropicMessage>)
    ensures forall m | m in BackAll(ms) && m.role == SYSTEM :: m.content.Str?
    decreases |ms|
  {
    hide Back;
    if ms != [] {
      SystemsAreStrings(ms[..|ms| - 1]);
      BackRoles(ms[|ms| - 1]);
    }
  }

  /** Every converted request has a system message only at the head, and there a string that
      is not blank. */
  lemma SystemOnlyAtHead(req: AnthropicRequest)
    ensures var out := ToOpenAiMessages(req);
      forall i | 0 <= i < |out| && out[i].role == SYSTEM :: i == 0 && out[0].content.Str? && !Blank(out[0].content.s)
  {
    hide Back, Blank, Join, BackAll, Rest, Chunks;
    var all := SystemMessages(req.system) + BackAll(req.messages);
    SystemsAreStrings(req.messages);
    RestHasNoMovable(all);
    ChunksAreNotBlank(all);
    JoinBlank(Chunks(all));
    var out := ToOpenAiMessages(req);
    var rest := Rest(all);
    assert NoSystemIn(rest);
    if Chunks(all) != [] {
      assert Chunks(all)[0] in Chunks(all);
      assert forall i | 0 < i < |out| :: out[i] == rest[i - 1];
    } else {
      assert out == rest;
    }
  }

  /** All other messages keep their order: without system messages, the output is the
      concatenation of the converted messages. */
  function WithoutSystem(ms: seq<ChatMessage>): seq<ChatMessage> {
    if ms == [] then []
    else WithoutSystem(ms[..|ms| - 1]) + (if ms[|ms| - 1].role == SYSTEM then [] else [ms[|ms| - 1]])
  }

  lemma {:induction false} WithoutAppend(xs: seq<ChatMessage>, ys: seq<ChatMessage>)
    ensures WithoutSystem(xs + ys) == WithoutSystem(xs) + WithoutSystem(ys)
    decreases |ys|
  {
    if ys == [] {
      assert xs + ys == xs;
    } else {
      WithoutAppend(xs, ys[..|ys| - 1]);
      assert (xs + ys)[..|xs + ys| - 1] == xs + ys[..|ys| - 1];
    }
  }

  lemma {:induction false} RestIsWithout(ms: seq<ChatMessage>)
    ensures WithoutSystem(Rest(ms)) == WithoutSystem(ms)
    decreases |ms|
  {
    if ms != [] {
      var n := |ms| - 1;
      RestIsWithout(ms[..n]);
      assert [ms[n]][..0] == [];
      WithoutAppend(Rest(ms[..n]), if Movable(ms[n]) then [] else [ms[n]]);
    }
  }

  lemma OneSystem(text: string)
    ensures WithoutSystem([Plain(SYSTEM, text)]) == []
  {
    assert [Plain(SYSTEM, text)][..0] == [];
  }

  lemma OrderKept(req: AnthropicRequest)
    ensures WithoutSystem(ToOpenAiMessages(req)) == WithoutSystem(BackAll(req.messages))
  {
    hide BackAll, Rest, Chunks, Join;
    var head := SystemMessages(req.system);
    var all := head + BackAll(req.messages);
    RestIsWithout(all);
    WithoutAppend(head, BackAll(req.messages));
    if head != [] { OneSystem(head[0].content.s); }
    if Chunks(all) != [] { OneSystem(Join(Chunks(all), SEPARATOR)); }
    WithoutAppend(if Chunks(all) != [] then [Plain(SYSTEM, Join(Chunks(all), SEPARATOR))] else [], Rest(all));
    assert [] + WithoutSystem(Rest(all)) == WithoutSystem(Rest(all));
  }

  // ----- Tool calls and tool results -----

  function UsesAmong(blocks: seq<Block>): seq<Block> {
    if blocks == [] then []
    else
      UsesAmong(blocks[..|blocks| - 1]) + (if blocks[|blocks| - 1].ToolUse? then [blocks[|blocks| - 1]] else [])
  }

  function ResultsAmong(blocks: seq<Block>): seq<Block> {
    if blocks == [] then []
    else
      ResultsAmong(blocks[..|blocks| - 1]) + (if blocks[|blocks| - 1].ToolResult? then [blocks[|blocks| - 1]] else [])
  }

  /** A message of role tool that is not made of blocks stands for a tool result without id. */
  function BareResult(m: AnthropicMessage): seq<Block> {
    if m.role == TOOL && !m.content.Blocks? then [ToolResult("", m.content)] else []
  }

  /** The tool uses of an assistant message, and the tool results of any other message. */
  function Wanted(m: AnthropicMessage): seq<Block> {
    if !m.content.Blocks? then BareResult(m)
    else if m.role == ASSISTANT then UsesAmong(m.content.blocks)
    else ResultsAmong(m.content.blocks)
  }

  function AllWanted(ms: seq<AnthropicMessage>): seq<Block> {
    if ms == [] then [] else AllWanted(ms[..|ms| - 1]) + Wanted(ms[|ms| - 1])
  }

  /** What a converted message delivers of tools: calls, or the one result it is. */
  datatype Delivery = Called(call: Call) | Answered(toolCallId: string, content: Content)

  function AllCalled(calls: seq<Call>): seq<Delivery> {
    seq(|calls|, i requires 0 <= i < |calls| => Called(calls[i]))
  }

  function Delivered(m: ChatMessage): seq<Delivery> {
    if m.role == ASSISTANT then AllCalled(m.toolCalls)
    else if m.role == TOOL then [Answered(m.toolCallId, m.content)]
    else []
  }

  function AllDelivered(ms: seq<ChatMessage>): seq<Delivery> {
    if ms == [] then [] else AllDelivered(ms[..|ms| - 1]) + Delivered(ms[|ms| - 1])
  }

  /** The delivery a tool block asks for. */
  predicate Fulfils(d: Delivery, b: Block) {
    if b.ToolUse? then
      && d.Called? && d.call.id == b.id && d.call.kind == "function" && d.call.index.None?
      && (b.name.Some? ==> d.call.name == b.name.value)
      && d.call.arguments == (if b.input.Some? then b.input.value else "{}")
    else b.ToolResult? && d == Answered(b.toolUseId, Str(PlainText(b.content)))
  }

  ghost predicate OneForOne(ds: seq<Delivery>, bs: seq<Block>) {
    |ds| == |bs| && forall k | 0 <= k < |bs| :: Fulfils(ds[k], bs[k])
  }

  lemma {:induction false} DeliveredAppend(xs: seq<ChatMessage>, ys: seq<ChatMessage>)
    ensures AllDelivered(xs + ys) == AllDelivered(xs) + AllDelivered(ys)
    decreases |ys|
  {
    hide Delivered;
    if ys == [] {
      assert xs + ys == xs;
    } else {
      DeliveredAppend(xs, ys[..|ys| - 1]);
      assert (xs + ys)[..|xs + ys| - 1] == xs + ys[..|ys| - 1];
    }
  }

  lemma {:induction false} SystemDeliversNothing(ms: seq<ChatMessage>)
    ensures AllDelivered(WithoutSystem(ms)) == AllDelivered(ms)
    decreases |ms|
  {
    if ms != [] {
      var m := ms[|ms| - 1];
      SystemDeliversNothing(ms[..|ms| - 1]);
      if m.role == SYSTEM {
        var init := ms[..|ms| - 1];
        assert WithoutSystem(init) + [] == WithoutSystem(init) && AllDelivered(init) + [] == AllDelivered(init);
      } else {
        DeliveredOne(WithoutSystem(ms[..|ms| - 1]), m);
      }
    }
  }

  lemma DeliveredOne(ms: seq<ChatMessage>, m: ChatMessage)
    ensures AllDelivered(ms + [m]) == AllDelivered(ms) + Delivered(m)
  {
    assert (ms + [m])[..|ms|] == ms;
  }

  lemma {:induction false} UsesDelivered(blocks: seq<Block>)
    ensures OneForOne(AllCalled(CallsOf(blocks)), UsesAmong(blocks))
    decreases |blocks|
  {
    if blocks != [] { UsesDelivered(blocks[..|blocks| - 1]); }
  }

  lemma {:induction false} ResultsDelivered(blocks: seq<Block>)
    ensures OneForOne(AllDelivered(ResultsOf(blocks)), ResultsAmong(blocks))
    decreases |blocks|
  {
    hide PlainText;
    if blocks != [] {
      var n := |blocks| - 1;
      ResultsDelivered(blocks[..n]);
      if blocks[n].ToolResult? {
        DeliveredOne(ResultsOf(blocks[..n]),
            ChatMessage(TOOL, Str(PlainText(blocks[n].content)), [], blocks[n].toolUseId));
      } else {
        assert ResultsOf(blocks[..n]) + [] == ResultsOf(blocks[..n]);
      }
    }
  }

  lemma MessageDelivers(m: AnthropicMessage)
    ensures OneForOne(AllDelivered(Back(m)), Wanted(m))
  {
    hide PlainText, AssistantBack, UserBack, UsesAmong, ResultsAmong, CallsOf, ResultsOf, AllDelivered, OneForOne;
    if m.content.Blocks? && m.role == ASSISTANT {
      UsesDelivered(m.content.blocks);
      AssistantDelivers(m.content.blocks);
    } else if m.content.Blocks? {
      ResultsDelivered(m.content.blocks);
      UserDelivers(m.content.blocks);
    } else {
      BareDelivers(m);
    }
  }

  lemma AssistantDelivers(blocks: seq<Block>)
    ensures AllDelivered(AssistantBack(blocks)) == AllCalled(CallsOf(blocks))
  {
    hide Texts, CallsOf, Join, AllDelivered;
    NothingFulfilled();
    if Texts(blocks) != [] || CallsOf(blocks) != [] {
      var only := AssistantBack(blocks)[0];
      assert AssistantBack(blocks) == [] + [only];
      DeliveredOne([], only);
    }
  }

  lemma UserDelivers(blocks: seq<Block>)
    ensures AllDelivered(UserBack(blocks)) == AllDelivered(ResultsOf(blocks))
  {
    hide Texts, ImagesOf, ResultsOf, Join, AllDelivered;
    var results := ResultsOf(blocks);
    if |UserBack(blocks)| == |results| {
      assert UserBack(blocks) == results;
    } else {
      var user := UserBack(blocks)[|results|];
      assert UserBack(blocks) == results + [user];
      DeliveredOne(results, user);
      assert AllDelivered(results) + [] == AllDelivered(results);
    }
  }

  lemma BareDelivers(m: AnthropicMessage)
    requires !m.content.Blocks?
    ensures OneForOne(AllDelivered(Back(m)), BareResult(m))
  {
    assert Back(m)[..0] == [];
  }

  lemma {:induction false} AllDeliver(ms: seq<AnthropicMessage>)
    ensures OneForOne(AllDelivered(BackAll(ms)), AllWanted(ms))
    decreases |ms|
  {
    hide Back, Wanted, OneForOne, AllDelivered;
    if ms == [] {
      NothingFulfilled();
    } else {
      var n := |ms| - 1;
      AllDeliver(ms[..n]);
      MessageDelivers(ms[n]);
      DeliveredAppend(BackAll(ms[..n]), Back(ms[n]));
      FulfilledAppend(AllDelivered(BackAll(ms[..n])), AllWanted(ms[..n]), AllDelivered(Back(ms[n])), Wanted(ms[n]));
    }
  }

  lemma NothingFulfilled()
    ensures AllDelivered([]) == [] && OneForOne(AllDelivered([]), [])
  {
  }

  lemma FulfilledAppend(ds: seq<Delivery>, bs: seq<Block>, ds': seq<Delivery>, bs': seq<Block>)
    requires OneForOne(ds, bs) && OneForOne(ds', bs')
    ensures OneForOne(ds + ds', bs + bs')
  {
    hide Fulfils;
  }

  /** Every tool use of an assistant message and every tool result of another one comes out
      exactly once, in the order of the request, whatever else the messages hold. */
  lemma ToolsConserved(req: AnthropicRequest)
    ensures OneForOne(AllDelivered(ToOpenAiMessages(req)), AllWanted(req.messages))
  {
    hide ToOpenAiMessages, BackAll, AllDelivered, WithoutSystem, OneForOne;
    AllDeliver(req.messages);
    OrderKept(req);
    SystemDeliversNothing(ToOpenAiMessages(req));
    SystemDeliversNothing(BackAll(req.messages));
  }

  /** All tool blocks of a message, wherever they stand. */
  function ToolsAmong(blocks: seq<Block>): seq<Block> {
    if blocks == [] then []
    else
      var last := blocks[|blocks| - 1];
      ToolsAmong(blocks[..|blocks| - 1]) + (if last.ToolUse? || last.ToolResult? then [last] else [])
  }

  function ToolsIn(m: AnthropicMessage): seq<Block> {
    if m.content.Blocks? then ToolsAmong(m.content.blocks) else BareResult(m)
  }

  function AllTools(ms: seq<AnthropicMessage>): seq<Block> {
    if ms == [] then [] else AllTools(ms[..|ms| - 1]) + ToolsIn(ms[|ms| - 1])
  }

  /** Tool uses stand in assistant messages, tool results in the others. */
  predicate InPlace(b: Block, role: string) {
    (b.ToolUse? ==> role == ASSISTANT) && (b.ToolResult? ==> role != ASSISTANT)
  }

  predicate AllInPlace(m: AnthropicMessage) {
    m.content.Blocks? ==> forall b | b in m.content.blocks :: InPlace(b, m.role)
  }

  lemma {:induction false} WantedAmong(blocks: seq<Block>, role: string)
    ensures var wanted := if role == ASSISTANT then UsesAmong(blocks) else ResultsAmong(blocks);
      if forall b | b in blocks :: InPlace(b, role) then wanted == ToolsAmong(blocks)
      else |wanted| < |ToolsAmong(blocks)|
    decreases |blocks|
  {
    if blocks != [] {
      var n := |blocks| - 1;
      WantedAmong(blocks[..n], role);
      assert blocks == blocks[..n] + [blocks[n]];
      assert ToolsAmong(blocks[..n]) + [] == ToolsAmong(blocks[..n]);
      assert UsesAmong(blocks[..n]) + [] == UsesAmong(blocks[..n]);
      assert ResultsAmong(blocks[..n]) + [] == ResultsAmong(blocks[..n]);
      assert (forall b | b in blocks :: InPlace(b, role)) <==>
             (forall b | b in blocks[..n] :: InPlace(b, role)) && InPlace(blocks[n], role);
    }
  }

  lemma {:induction false} WantedOfAll(ms: seq<AnthropicMessage>)
    ensures if forall m | m in ms :: AllInPlace(m)
            then AllWanted(ms) == AllTools(ms) else |AllWanted(ms)| < |AllTools(ms)|
    decreases |ms|
  {
    hide AllInPlace, Wanted, ToolsIn;
    if ms != [] {
      var n := |ms| - 1;
      WantedOfAll(ms[..n]);
      WantedOfOne(ms[n]);
      assert ms == ms[..n] + [ms[n]];
    }
  }

  lemma WantedOfOne(m: AnthropicMessage)
    ensures if AllInPlace(m) then Wanted(m) == ToolsIn(m) else |Wanted(m)| < |ToolsIn(m)|
  {
    if m.content.Blocks? { WantedAmong(m.content.blocks, m.role); }
  }

  /** All tool blocks of a request come out one for one, in order, exactly when every tool use
      stands in an assistant message and every tool result in another one. */
  lemma ToolsConservedIffInPlace(req: AnthropicRequest)
    ensures OneForOne(AllDelivered(ToOpenAiMessages(req)), AllTools(req.messages)) <==>
            forall m | m in req.messages :: AllInPlace(m)
  {
    hide ToOpenAiMessages, AllDelivered, AllWanted, AllTools, AllInPlace, Fulfils;
    ToolsConserved(req);
    WantedOfAll(req.messages);
  }

  /** A tool use in a user message and a tool result in an assistant message: nothing comes out. */
  lemma MisplacedToolsVanish(use: Block, result: Block)
    requires use.ToolUse? && result.ToolResult?
    ensures var ms := [AnthropicMessage(USER, Blocks([use])), AnthropicMessage(ASSISTANT, Blocks([result]))];
      && ToOpenAiMessages(AnthropicRequest(NoSystem, ms)) == []
      && AllTools(ms) == [use, result]
  {
    var first, second := AnthropicMessage(USER, Blocks([use])), AnthropicMessage(ASSISTANT, Blocks([result]));
    var ms := [first, second];
    assert ms[..1] == [first] && [first][..0] == [];
    LoneUse(use);
    LoneResult(result);
    assert BackAll([first]) == [] && BackAll(ms) == [];
    assert AllTools([first]) == [use];
  }

  lemma LoneUse(use: Block)
    requires use.ToolUse?
    ensures Back(AnthropicMessage(USER, Blocks([use]))) == [] && ToolsAmong([use]) == [use]
  {
    assert [use][..0] == [];
    assert Texts([use]) == [] && ImagesOf([use]) == [] && ResultsOf([use]) == [];
  }

  lemma LoneResult(result: Block)
    requires result.ToolResult?
    ensures Back(AnthropicMessage(ASSISTANT, Blocks([result]))) == [] && ToolsAmong([result]) == [result]
  {
    assert [result][..0] == [];
    assert Texts([result]) == [] && CallsOf([result]) == [];
  }
}
