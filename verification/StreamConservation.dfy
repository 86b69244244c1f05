/**
 No fragment is lost, repeated or reordered, on any stream: what was sent for a block is what
 was received for it, up to the part still held back. Unlike the client's view this also
 covers streams whose arguments arrive late.
 */
module StreamConservation {
  import opened StreamProtocol
  import opened StreamConverter
  import opened StreamBracketing
  import opened StreamMeaning

  /** The payloads of the deltas sent for block `i`, concatenated. */
  function Sent(events: seq<Event>, i: nat): string {
    if events == [] then ""
    else
      var last := events[|events| - 1];
      Sent(events[..|events| - 1], i) + OneSent(last, i)
  }

  /** The argument fragments received for tool call `key`, concatenated. */
  function ReceivedArguments(h: seq<Item>, key: int): string {
    if h == [] then ""
    else
      var last := h[|h| - 1];
      ReceivedArguments(h[..|h| - 1], key) +
          (if last.CallItem? && last.call.Key() == key then last.call.arguments else "")
  }

  function Body(b: seq<Block>, i: nat): string {
    if i >= |b| then "" else if b[i].TextBlock? then b[i].body else b[i].tool.body
  }

  lemma Glue(a: string, b: string, c: string)
    ensures (a + b) + c == a + (b + c)
  {
  }

  function OneSent(e: Event, i: nat): string {
    if e.ContentBlockDelta? && e.index == i then e.fragment.Payload() else ""
  }

  lemma {:induction false} SentAppend(a: seq<Event>, b: seq<Event>, i: nat)
    ensures Sent(a + b, i) == Sent(a, i) + Sent(b, i)
    decreases |b|
  {
    hide OneSent;
    if b == [] {
      assert a + b == a;
    } else {
      var n := |b| - 1;
      SentAppend(a, b[..n], i);
      assert (a + b)[..|a + b| - 1] == a + b[..n];
      Glue(Sent(a, i), Sent(b[..n], i), OneSent(b[n], i));
    }
  }

  /** Two steps in a row send what each of them sends. */
  lemma StepsSent(before: string, e1: seq<Event>, e2: seq<Event>, i: nat)
    ensures (before + Sent(e1, i)) + Sent(e2, i) == before + Sent(e1 + e2, i)
  {
    SentAppend(e1, e2, i);
  }

  lemma SentOne(e: Event, i: nat)
    ensures Sent([e], i) == OneSent(e, i)
  {
    assert [e][..0] == [];
  }

  lemma SentTwo(d: Event, e: Event, i: nat)
    ensures Sent([d, e], i) == Sent([d], i) + Sent([e], i)
  {
    SentAppend([d], [e], i);
    assert [d, e] == [d] + [e];
  }

  lemma TextSent(b: seq<Block>, text: string, i: nat)
    ensures Body(Text(b, text).blocks, i) == Body(b, i) + Sent(Text(b, text).events, i)
  {
    var events := Text(b, text).events;
    if TextOpen(b) {
      SentOne(events[0], i);
    } else {
      SentTwo(events[0], events[1], i);
      SentOne(events[0], i);
      SentOne(events[1], i);
    }
  }

  lemma CloseTextSent(b: seq<Block>, i: nat)
    ensures Body(CloseText(b).blocks, i) == Body(b, i) + Sent(CloseText(b).events, i)
  {
    if TextOpen(b) {
      SentOne(ContentBlockStop(|b| - 1), i);
    }
  }

  /** What a change of the tool at `at` sends goes into that tool's body and nowhere else. */
  ghost predicate Sends(t: Tool, t': Tool, events: seq<Event>, at: nat, i: nat) {
    if i == at then t'.body == t.body + Sent(events, i) else Sent(events, i) == ""
  }

  lemma AnnounceSent(t: Tool, at: nat, id: string, name: string, i: nat)
    requires t.body == ""
    ensures Sends(t, Announce(t, at, id, name).0, Announce(t, at, id, name).1, at, i)
  {
    var events := Announce(t, at, id, name).1;
    SentOne(events[0], i);
    if t.pending != "" {
      SentTwo(events[0], events[1], i);
      SentOne(events[1], i);
    }
  }

  lemma StartSent(t: Tool, at: nat, i: nat)
    requires ValidTool(t)
    ensures Sends(t, Start(t, at).0, Start(t, at).1, at, i)
  {
    if t.head.None? && t.id != "" && t.name != "" {
      AnnounceSent(t, at, t.id, t.name, i);
    }
  }

  lemma ArgueSent(t: Tool, at: nat, arguments: string, i: nat)
    ensures Sends(t, Argue(t, at, arguments).0, Argue(t, at, arguments).1, at, i)
  {
    if Argue(t, at, arguments).1 != [] { SentOne(Argue(t, at, arguments).1[0], i); }
  }

  lemma CallToolSent(t: Tool, at: nat, call: ToolCall, i: nat)
    requires ValidTool(t)
    ensures Sends(t, CallTool(t, at, call).0, CallTool(t, at, call).1, at, i)
  {
    hide Start, Argue, Sent;
    var known := Learn(t, call);
    var (started, e1) := Start(known, at);
    var (argued, e2) := Argue(started, at, call.arguments);
    StartSent(known, at, i);
    ArgueSent(started, at, call.arguments, i);
    StepsSent(t.body, e1, e2, i);
    SentAppend(e1, e2, i);
  }

  lemma CallSent(b: seq<Block>, call: ToolCall, i: nat)
    requires Valid(b) && !TextOpen(b)
    ensures Body(Call(b, call).blocks, i) == Body(b, i) + Sent(Call(b, call).events, i)
  {
    hide CallTool;
    var at := Find(b, call.Key());
    var b1 := WithTool(b, call.Key());
    WithToolValid(b, call.Key());
    assert Body(b1, i) == Body(b, i);
    CallToolSent(b1[at].tool, at, call, i);
  }

  lemma ClosingCallSent(b: seq<Block>, call: ToolCall, i: nat)
    requires Valid(b)
    ensures Body(ClosingCall(b, call).blocks, i) == Body(b, i) + Sent(ClosingCall(b, call).events, i)
  {
    hide Sent, Body, CloseText, Call, Valid, TextOpen;
    var closed := CloseText(b);
    CloseTextSent(b, i);
    CloseTextValid(b);
    CallSent(closed.blocks, call, i);
    StepsSent(Body(b, i), closed.events, Call(closed.blocks, call).events, i);
  }

  lemma {:induction false} LateStartSent(b: seq<Block>, newId: int -> string, i: nat)
    requires forall j | 0 <= j < |b| :: b[j].ToolBlock? ==> ValidTool(b[j].tool)
    ensures Body(LateStart(b, newId).blocks, i) == Body(b, i) + Sent(LateStart(b, newId).events, i)
    decreases |b|
  {
    hide Sent, LateOne;
    if b == [] {
      NothingSent(i);
    } else {
      var n := |b| - 1;
      LateStartSent(b[..n], newId, i);
      LateOneSent(b[n], n, newId, i);
      SentAppend(LateStart(b[..n], newId).events, LateOne(b[n], n, newId).1, i);
    }
  }

  lemma NothingSent(i: nat)
    ensures Sent([], i) == ""
  {
  }

  lemma LateOneSent(t: Block, at: nat, newId: int -> string, i: nat)
    requires t.ToolBlock? ==> ValidTool(t.tool)
    ensures var (t', events) := LateOne(t, at, newId);
      if i == at then Body([t'], 0) == Body([t], 0) + Sent(events, i) else Sent(events, i) == ""
  {
    if !(t.Announced() || t.tool.Blank()) {
      AnnounceSent(t.tool, at, if t.tool.id == "" then newId(t.tool.key) else t.tool.id,
                   if t.tool.name == "" then "unknown_tool" else t.tool.name, i);
    }
  }

  lemma CloseOneSent(t: Block, at: nat, i: nat)
    ensures Sent(CloseOne(t, at).1, i) == "" && Body([CloseOne(t, at).0], 0) == Body([t], 0)
  {
    if CloseOne(t, at).1 != [] { SentOne(CloseOne(t, at).1[0], i); }
  }

  lemma {:induction false} CloseToolsSent(b: seq<Block>, i: nat)
    ensures Body(CloseTools(b).blocks, i) == Body(b, i) + Sent(CloseTools(b).events, i)
    decreases |b|
  {
    hide Sent, CloseOne;
    if b == [] {
      NothingSent(i);
    } else {
      var n := |b| - 1;
      CloseToolsSent(b[..n], i);
      CloseOneSent(b[n], n, i);
      SentAppend(CloseTools(b[..n]).events, CloseOne(b[n], n).1, i);
    }
  }

  lemma SettleSent(b: seq<Block>, newId: int -> string, i: nat)
    requires Valid(b)
    ensures Body(Settle(b, newId).blocks, i) == Body(b, i) + Sent(Settle(b, newId).events, i)
  {
    hide Sent, Body, CloseText, LateStart, CloseTools;
    var s1 := CloseText(b);
    CloseTextSent(b, i);
    CloseTextValid(b);
    var s2 := LateStart(s1.blocks, newId);
    LateStartSent(s1.blocks, newId, i);
    CloseToolsSent(s2.blocks, i);
    StepsSent(Body(b, i), s1.events, s2.events, i);
    StepsSent(Body(b, i), s1.events + s2.events, CloseTools(s2.blocks).events, i);
  }

  lemma ItemSent(b: seq<Block>, finished: bool, item: Item, newId: int -> string, i: nat)
    requires Valid(b)
    ensures Body(ItemStep(b, finished, item, newId).blocks, i) ==
        Body(b, i) + Sent(ItemStep(b, finished, item, newId).events, i)
  {
    match item
    case TextItem(text) => TextSent(b, text, i);
    case CallItem(call) => ClosingCallSent(b, call, i);
    case FinishItem(_) => SettleSent(b, newId, i);
  }

  lemma {:induction false} RunSent(h: seq<Item>, newId: int -> string, i: nat)
    ensures Body(Run([], false, h, newId).blocks, i) == Sent(Run([], false, h, newId).events, i)
    decreases |h|
  {
    hide ItemStep;
    if h != [] {
      var init := h[..|h| - 1];
      var before := Run([], false, init, newId);
      RunSent(init, newId, i);
      RunValid([], false, init, newId);
      ItemSent(before.blocks, Finished(init), h[|h| - 1], newId, i);
      SentAppend(before.events, ItemStep(before.blocks, Finished(init), h[|h| - 1], newId).events, i);
    }
  }

  lemma {:induction false} ViewHoldsArguments(h: seq<Item>, key: int, newId: int -> string)
    ensures ViewOf(h, key, newId).arguments == ReceivedArguments(h, key)
    decreases |h|
  {
    if h != [] {
      ViewHoldsArguments(h[..|h| - 1], key, newId);
    }
  }

  /** At every point of every history: sent plus held back is what was received. */
  lemma RunConserves(h: seq<Item>, newId: int -> string, i: nat)
    requires i < |Layout(h)| && Layout(h)[i].ToolSlot?
    ensures var run := Run([], false, h, newId);
      && |run.blocks| == |Layout(h)| && run.blocks[i].ToolBlock?
      && Sent(run.events, i) + run.blocks[i].tool.pending == ReceivedArguments(h, Layout(h)[i].key)
  {
    var run := Run([], false, h, newId);
    RunTracks(h, newId);
    RunSent(h, newId, i);
    assert TracksBlock(run.blocks[i], Layout(h)[i], h, newId);
    ViewHoldsArguments(h, Layout(h)[i].key, newId);
  }

  /** After the final settling nothing is held back: everything received has been sent. */
  lemma SettledHoldsNothing(h: seq<Item>, newId: int -> string, i: nat)
    requires i < |Layout(h)| && Layout(h)[i].ToolSlot?
    ensures var run := Run([], false, h, newId);
      Sent(run.events + Settle(run.blocks, newId).events, i) == ReceivedArguments(h, Layout(h)[i].key)
  {
    var run := Run([], false, h, newId);
    RunValid([], false, h, newId);
    RunConserves(h, newId, i);
    RunSent(h, newId, i);
    SettleSent(run.blocks, newId, i);
    SentAppend(run.events, Settle(run.blocks, newId).events, i);
    SettleAt(run.blocks, newId);
    SettledBody(run.blocks[i], newId);
    assert ValidTool(run.blocks[i].tool);
  }

  lemma SettledBody(t: Block, newId: int -> string)
    requires t.ToolBlock? && ValidTool(t.tool)
    ensures SettledBlock(t, newId).ToolBlock? && SettledBlock(t, newId).tool.body == t.tool.body + t.tool.pending
  {
  }
}
