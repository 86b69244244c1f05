/**
 Server-sent events as text: the printer of the MCP session, the line reader of the MCP
 client, the reader of Anthropic streams, and the pass-through of such streams. They handle a
 subset of sections 9.2.5 and 9.2.6 of the WHATWG HTML Living Standard.
 */
module SseFraming {
  import opened Wrappers

  const EVENT := "event: "
  const DATA := "data: "
  const MESSAGE_STOP := "message_stop"

  datatype Pair = Pair(event: string, data: string)

  // ----- Lines -----

  predicate OneLine(s: string) { '\n' !in s }

  /** The text before and after the first line feed. */
  function CutLine(s: string): (r: Option<(string, string)>)
    ensures r.Some? ==> s == r.value.0 + "\n" + r.value.1 && OneLine(r.value.0)
    ensures r.None? ==> OneLine(s)
  {
    if s == "" then None
    else if s[0] == '\n' then Some(("", s[1..]))
    else
      var rest := CutLine(s[1..]);
      if rest.None? then None else Some(([s[0]] + rest.value.0, rest.value.1))
  }

  lemma {:induction false} CutIsUnique(line: string, rest: string)
    requires OneLine(line)
    ensures CutLine(line + "\n" + rest) == Some((line, rest))
    decreases |line|
  {
    var s := line + "\n" + rest;
    if line == "" {
      assert s[1..] == rest;
    } else {
      assert s[0] == line[0] && line[0] in line;
      assert s[1..] == line[1..] + "\n" + rest;
      CutIsUnique(line[1..], rest);
      assert [s[0]] + line[1..] == line;
    }
  }

  /** The complete lines of a text, without their line feeds. */
  function Lines(s: string): seq<string>
    decreases |s|
  {
    var cut := CutLine(s);
    if cut.None? then [] else [cut.value.0] + Lines(cut.value.1)
  }

  /** What follows the last line feed. */
  function Remainder(s: string): string
    decreases |s|
  {
    var cut := CutLine(s);
    if cut.None? then s else Remainder(cut.value.1)
  }

  function Unlines(lines: seq<string>): string {
    if lines == [] then "" else lines[0] + "\n" + Unlines(lines[1..])
  }

  ghost predicate AllOneLine(lines: seq<string>) { forall l | l in lines :: OneLine(l) }

  lemma {:induction false} LinesOfUnlines(lines: seq<string>)
    requires AllOneLine(lines)
    ensures Lines(Unlines(lines)) == lines && Remainder(Unlines(lines)) == ""
    decreases |lines|
  {
    if lines != [] {
      CutIsUnique(lines[0], Unlines(lines[1..]));
      LinesOfUnlines(lines[1..]);
    }
  }

  lemma {:induction false} LinesWithTail(lines: seq<string>, tail: string)
    requires AllOneLine(lines) && OneLine(tail)
    ensures Lines(Unlines(lines) + tail) == lines && Remainder(Unlines(lines) + tail) == tail
    decreases |lines|
  {
    if lines == [] {
      assert Unlines(lines) + tail == tail;
      NoLineIn(tail);
    } else {
      var rest := Unlines(lines[1..]) + tail;
      assert lines[0] in lines;
      assert Unlines(lines) + tail == lines[0] + "\n" + rest;
      CutIsUnique(lines[0], rest);
      LinesWithTail(lines[1..], tail);
    }
  }

  lemma NoLineIn(s: string)
    requires OneLine(s)
    ensures CutLine(s) == None
  {
  }

  lemma {:induction false} UnlinesAppend(xs: seq<string>, ys: seq<string>)
    ensures Unlines(xs + ys) == Unlines(xs) + Unlines(ys)
    decreases |xs|
  {
    if xs == [] {
      assert xs + ys == ys;
    } else {
      UnlinesAppend(xs[1..], ys);
      assert (xs + ys)[1..] == xs[1..] + ys;
    }
  }

  lemma {:induction false} LinesAreLines(s: string)
    ensures AllOneLine(Lines(s))
    decreases |s|
  {
    var cut := CutLine(s);
    if cut.Some? { LinesAreLines(cut.value.1); }
  }

  /** Lines and remainder are the whole text. */
  lemma {:induction false} LinesAreAll(s: string)
    ensures s == Unlines(Lines(s)) + Remainder(s)
    decreases |s|
  {
    hide CutLine;
    var cut := CutLine(s);
    if cut.None? {
      assert s == "" + s;
    } else {
      LinesAreAll(cut.value.1);
      var rest := Lines(cut.value.1);
      assert ([cut.value.0] + rest)[1..] == rest;
      Regroup(cut.value.0 + "\n", Unlines(rest), Remainder(cut.value.1));
    }
  }

  lemma Regroup(a: string, b: string, c: string)
    ensures a + (b + c) == (a + b) + c
  {
  }

  // ----- Printing -----

  function LinesOf(p: Pair): seq<string> { [EVENT + p.event, DATA + p.data, ""] }

  function PrintOne(p: Pair): string { EVENT + p.event + "\n" + DATA + p.data + "\n\n" }

  function Print(list: seq<Pair>): string {
    if list == [] then "" else PrintOne(list[0]) + Print(list[1..])
  }

  function AllLines(list: seq<Pair>): seq<string> {
    if list == [] then [] else LinesOf(list[0]) + AllLines(list[1..])
  }

  predicate Clean(p: Pair) { OneLine(p.event) && OneLine(p.data) }

  lemma {:induction false} PrintIsLines(list: seq<Pair>)
    ensures Print(list) == Unlines(AllLines(list))
    ensures (forall p | p in list :: Clean(p)) ==> AllOneLine(AllLines(list))
    decreases |list|
  {
    if list != [] {
      PrintIsLines(list[1..]);
      var p := list[0];
      UnlinesAppend(LinesOf(p), AllLines(list[1..]));
      PrintsThreeLines(p);
      if forall q | q in list :: Clean(q) {
        assert list[0] in list;
        forall l | l in LinesOf(p) ensures OneLine(l) { }
      }
    }
  }

  lemma PrintsThreeLines(p: Pair)
    ensures Unlines(LinesOf(p)) == PrintOne(p)
  {
    var a, b := EVENT + p.event, DATA + p.data;
    assert [a, b, ""][1..] == [b, ""] && [b, ""][1..] == [""] && [""][1..] == [];
    assert Unlines([""]) == "\n";
    assert Unlines([b, ""]) == b + "\n" + "\n";
    assert Unlines([a, b, ""]) == a + "\n" + (b + "\n" + "\n");
    assert "\n" + "\n" == "\n\n";
  }

  lemma {:induction false} PrintSnoc(list: seq<Pair>, p: Pair)
    ensures Print(list + [p]) == Print(list) + PrintOne(p)
    decreases |list|
  {
    hide PrintOne;
    if list == [] {
      assert [p][1..] == [] && [] + [p] == [p];
      assert Print([p]) == PrintOne(p) + Print([]);
    } else {
      PrintSnoc(list[1..], p);
      assert (list + [p])[1..] == list[1..] + [p];
    }
  }

  /** The session's writer. What it wrote is the printed list of all pairs sent. */
  class SseSession {
    var output: string
    ghost var sent: seq<Pair>

    ghost predicate Valid()
      reads this
    {
      output == Print(sent)
    }

    constructor ()
      ensures Valid() && sent == []
    {
      output, sent := "", [];
    }

    method SendEvent(event: string, data: string)
      requires Valid()
      modifies this
      ensures Valid() && sent == old(sent) + [Pair(event, data)]
    {
      PrintSnoc(sent, Pair(event, data));
      output := output + ("event: " + event + "\n" + "data: " + data + "\n\n");
      sent := sent + [Pair(event, data)];
    }
  }

  // ----- The MCP client's reader -----

  /** The scanner drops one carriage return at the end of a line. */
  function DropCr(s: string): string {
    if s != "" && s[|s| - 1] == '\r' then s[..|s| - 1] else s
  }

  /** The scanner also delivers a last line without line feed, unless it is empty. */
  function ScannedLines(s: string): seq<string> {
    Lines(s) + (if Remainder(s) != "" then [Remainder(s)] else [])
  }

  /** The events delivered from `lines` on, when `event` and `data` were read before. An event
      name without data is kept until data comes. */
  function Deliver(lines: seq<string>, event: string, data: string): seq<Pair>
    decreases |lines|
  {
    if lines == [] then []
    else
      var line := DropCr(lines[0]);
      if line == "" then
        if data != "" then [Pair(event, data)] + Deliver(lines[1..], "", "") else Deliver(lines[1..], event, data)
      else if EVENT <= line then Deliver(lines[1..], line[|EVENT|..], data)
      else if DATA <= line then Deliver(lines[1..], event, line[|DATA|..])
      else Deliver(lines[1..], event, data)
  }

  function Received(text: string): seq<Pair> { Deliver(ScannedLines(text), "", "") }

  method ReadEvents(text: string) returns (channel: seq<Pair>)
    ensures channel == Received(text)
  {
    hide DropCr, CutLine;
    var lines := ScannedLines(text);
    var currentEvent, currentData := "", "";
    channel := [];
    var i := 0;
    assert lines[0..] == lines;
    while i < |lines|
      invariant 0 <= i <= |lines|
      invariant channel + Deliver(lines[i..], currentEvent, currentData) == Received(text)
    {
      assert lines[i..][1..] == lines[i + 1..];
      var line := DropCr(lines[i]);
      if line == "" {
        if currentData != "" {
          channel := channel + [Pair(currentEvent, currentData)];
          currentEvent, currentData := "", "";
        }
      } else if EVENT <= line {
        currentEvent := line[|EVENT|..];
      } else if DATA <= line {
        currentData := line[|DATA|..];
      }
      i := i + 1;
    }
    assert lines[i..] == [];
  }

  lemma OneCrDropped(s: string)
    ensures DropCr(s + "\r") == s
    ensures s == "" || s[|s| - 1] != '\r' ==> DropCr(s) == s
  {
  }

  /** The rest of the last line with the prefix, or `before` when there is none. */
  function LastWith(lines: seq<string>, prefix: string, before: string): string {
    if lines == [] then before
    else
      var line := DropCr(lines[|lines| - 1]);
      if prefix <= line then line[|prefix|..] else LastWith(lines[..|lines| - 1], prefix, before)
  }

  lemma LastOfMore(line: string, lines: seq<string>, prefix: string, before: string)
    ensures LastWith([line] + lines, prefix, before) ==
            LastWith(lines, prefix, if prefix <= DropCr(line) then DropCr(line)[|prefix|..] else before)
    decreases |lines|
  {
    hide DropCr;
    if lines == [] {
      assert [line] + lines == [line] && [line][..0] == [];
    } else {
      assert ([line] + lines)[..|lines|] == [line] + lines[..|lines| - 1];
      LastOfMore(line, lines[..|lines| - 1], prefix, before);
    }
  }

  /** A stretch of lines that are not blank, whatever they are: the last event name and the last
      data count, and every other line is passed over. */
  lemma {:induction false} StretchRead(lines: seq<string>, rest: seq<string>, event: string, data: string)
    requires forall l | l in lines :: DropCr(l) != ""
    ensures Deliver(lines + rest, event, data) ==
            Deliver(rest, LastWith(lines, "event: ", event), LastWith(lines, "data: ", data))
    decreases |lines|
  {
    hide DropCr, LastWith;
    if lines == [] {
      assert lines + rest == rest;
      NoLast(event, data);
    } else {
      var l, more := lines[0], lines[1..];
      var line := DropCr(l);
      assert l in lines && lines == [l] + more;
      assert (lines + rest)[0] == l && (lines + rest)[1..] == more + rest;
      LastOfMore(l, more, "event: ", event);
      LastOfMore(l, more, "data: ", data);
      if EVENT <= line { PrefixesDiffer(line); }
      StretchRead(more, rest, if EVENT <= line then line[|EVENT|..] else event,
                  if DATA <= line then line[|DATA|..] else data);
    }
  }

  lemma NoLast(event: string, data: string)
    ensures LastWith([], "event: ", event) == event && LastWith([], "data: ", data) == data
  {
  }

  /** Any stretch of lines up to a blank one delivers its last event name and data as one event,
      if there are data; without data the name is kept for what follows. Without a blank line
      nothing is delivered. */
  lemma BlockDelivered(lines: seq<string>, blank: string, rest: seq<string>, event: string, data: string)
    requires (forall l | l in lines :: DropCr(l) != "") && DropCr(blank) == ""
    ensures var e, d := LastWith(lines, "event: ", event), LastWith(lines, "data: ", data);
      && Deliver(lines + ([blank] + rest), event, data) ==
          (if d != "" then [Pair(e, d)] + Deliver(rest, "", "") else Deliver(rest, e, ""))
      && Deliver(lines, event, data) == []
  {
    hide DropCr, LastWith;
    StretchRead(lines, [blank] + rest, event, data);
    StretchRead(lines, [], event, data);
    assert lines + [] == lines && ([blank] + rest)[1..] == rest;
  }

  /** The lines of a text are all that is read, a last one without line feed included. */
  lemma ReceivedOfLines(lines: seq<string>, tail: string)
    requires AllOneLine(lines) && OneLine(tail)
    ensures Received(Unlines(lines) + tail) == Deliver(lines + (if tail == "" then [] else [tail]), "", "")
  {
    LinesWithTail(lines, tail);
  }

  lemma EventLineOf(e: string)
    ensures DropCr(EVENT + e) == EVENT + DropCr(e)
    ensures (EVENT + e)[|EVENT|..] == e && EVENT <= EVENT + e && EVENT + e != ""
  {
  }

  lemma DataLineOf(d: string)
    ensures DropCr(DATA + d) == DATA + DropCr(d)
    ensures (DATA + d)[|DATA|..] == d && DATA <= DATA + d && DATA + d != "" && !(EVENT <= DATA + d)
  {
    assert (DATA + d)[0] == 'd' && EVENT[0] == 'e';
  }

  /** What one printed pair delivers. */
  function Delivered(p: Pair): seq<Pair> {
    if DropCr(p.data) != "" then [Pair(DropCr(p.event), DropCr(p.data))] else []
  }

  function AllDelivered(list: seq<Pair>): seq<Pair> {
    if list == [] then [] else Delivered(list[0]) + AllDelivered(list[1..])
  }

  /** An event name left over from a pair without data is replaced by the next pair's. */
  lemma {:induction false} DeliverPrinted(list: seq<Pair>, event: string)
    ensures Deliver(AllLines(list), event, "") == AllDelivered(list)
    decreases |list|
  {
    hide DropCr;
    if list != [] {
      var p := list[0];
      var lines, rest := AllLines(list), AllLines(list[1..]);
      assert lines == [EVENT + p.event] + ([DATA + p.data] + ([""] + rest));
      assert lines[1..] == [DATA + p.data] + ([""] + rest);
      assert lines[1..][1..] == [""] + rest;
      assert lines[1..][1..][1..] == rest;
      EventLineOf(p.event);
      DataLineOf(p.data);
      EventLineOf(DropCr(p.event));
      DataLineOf(DropCr(p.data));
      NoCr();
      var e, d := DropCr(p.event), DropCr(p.data);
      assert Deliver(lines, event, "") == Deliver(lines[1..], e, "");
      assert Deliver(lines[1..], e, "") == Deliver(lines[1..][1..], e, d);
      DeliverPrinted(list[1..], "");
      DeliverPrinted(list[1..], e);
      assert [] + AllDelivered(list[1..]) == AllDelivered(list[1..]);
    }
  }

  lemma NoCr()
    ensures DropCr("") == ""
  {
  }

  /** A pair that the text format can carry for this reader. */
  predicate Carried(p: Pair) {
    Clean(p) && DropCr(p.event) == p.event && DropCr(p.data) == p.data && p.data != ""
  }

  lemma {:induction false} AllDeliveredSame(list: seq<Pair>)
    ensures |AllDelivered(list)| <= |list|
    ensures AllDelivered(list) == list <==> forall p | p in list :: Delivered(p) == [p]
    decreases |list|
  {
    hide Delivered;
    if list != [] {
      var first, rest := Delivered(list[0]), AllDelivered(list[1..]);
      AllDeliveredSame(list[1..]);
      assert list == [list[0]] + list[1..];
      assert |first| <= 1 by { AtMostOne(list[0]); }
      if AllDelivered(list) == list {
        assert |first| == 1;
        assert first == [AllDelivered(list)[0]];
        assert rest == AllDelivered(list)[1..];
      }
      if forall p | p in list :: Delivered(p) == [p] {
        assert Delivered(list[0]) == [list[0]];
      }
    }
  }

  lemma AtMostOne(p: Pair)
    ensures |Delivered(p)| <= 1
  {
  }

  lemma {:induction false} DeliveredAreClean(lines: seq<string>, event: string, data: string)
    requires AllOneLine(lines) && OneLine(event) && OneLine(data)
    ensures forall p | p in Deliver(lines, event, data) :: Clean(p)
    decreases |lines|
  {
    if lines != [] {
      var line := DropCr(lines[0]);
      assert OneLine(lines[0]) && OneLine(line);
      DeliveredAreClean(lines[1..], "", "");
      DeliveredAreClean(lines[1..], event, data);
      if EVENT <= line { DeliveredAreClean(lines[1..], line[|EVENT|..], data); }
      if DATA <= line { DeliveredAreClean(lines[1..], event, line[|DATA|..]); }
    }
  }

  lemma {:induction false} RemainderIsOneLine(s: string)
    ensures OneLine(Remainder(s))
    decreases |s|
  {
    var cut := CutLine(s);
    if cut.Some? { RemainderIsOneLine(cut.value.1); }
  }

  lemma ReceivedAreClean(text: string)
    ensures forall p | p in Received(text) :: Clean(p)
  {
    LinesAreLines(text);
    RemainderIsOneLine(text);
    DeliveredAreClean(ScannedLines(text), "", "");
  }

  lemma ReceivedPrinted(list: seq<Pair>)
    requires forall p | p in list :: Clean(p)
    ensures Received(Print(list)) == AllDelivered(list)
  {
    hide Lines, Remainder, AllLines, Deliver, AllDelivered;
    PrintIsLines(list);
    LinesOfUnlines(AllLines(list));
    DeliverPrinted(list, "");
    assert AllLines(list) + [] == AllLines(list);
  }

  /** Printing and reading undo each other exactly on lists of pairs without line feeds and
      without a carriage return at the end, all with data. The event name may be empty. */
  lemma ReadPrintIff(list: seq<Pair>)
    ensures Received(Print(list)) == list <==> forall p | p in list :: Carried(p)
  {
    hide Received, Print, DropCr;
    if Received(Print(list)) == list { ReceivedAreClean(Print(list)); }
    if forall p | p in list :: Clean(p) {
      ReceivedPrinted(list);
      AllDeliveredSame(list);
      forall p | p in list ensures Delivered(p) == [p] <==> Carried(p) { }
    }
  }

  // ----- The Anthropic stream reader -----

  /** All carriage returns and line feeds at the end are dropped here. */
  function TrimEnd(s: string): string {
    if s != "" && s[|s| - 1] in {'\r', '\n'} then TrimEnd(s[..|s| - 1]) else s
  }

  /** The value of the last line with the prefix, empty when there is none. */
  function Value(frame: seq<string>, prefix: string): string {
    if frame == [] then ""
    else
      var line := TrimEnd(frame[|frame| - 1]);
      if prefix <= line then line[|prefix|..] else Value(frame[..|frame| - 1], prefix)
  }

  predicate Complete(frame: seq<string>) { Value(frame, EVENT) != "" && Value(frame, DATA) != "" }

  predicate Stops(frame: seq<string>) { Value(frame, EVENT) == MESSAGE_STOP }

  /** The complete frames from `lines` on, as the lines they consist of, when `frame` was begun.
      Frames without an event name or without data are dropped; nothing is read after the
      message stop; the end of the text ends a frame. */
  function FramesFrom(lines: seq<string>, frame: seq<string>): seq<seq<string>>
    decreases |lines|
  {
    if lines == [] then if Complete(frame) then [frame] else []
    else if TrimEnd(lines[0]) == "" then
      if Complete(frame) then [frame] + (if Stops(frame) then [] else FramesFrom(lines[1..], []))
      else FramesFrom(lines[1..], [])
    else FramesFrom(lines[1..], frame + [lines[0]])
  }

  function Frames(text: string): seq<seq<string>> { FramesFrom(Lines(text), []) }

  /** Reads line by line; an incomplete last line is never looked at. */
  class AnthropicStreamReader {
    var rest: string
    var done: bool

    constructor (text: string)
      ensures rest == text && !done
    {
      rest, done := text, false;
    }

    /** The frames still to come. */
    function Ahead(): seq<seq<string>>
      reads this
    {
      if done then [] else Frames(rest)
    }

    method ReadEvent() returns (eof: bool, event: string, data: string, raw: string, ghost frame: seq<string>)
      modifies this
      ensures eof <==> old(Ahead()) == []
      ensures eof ==> Ahead() == []
      ensures !eof ==> old(Ahead()) == [frame] + Ahead()
                       && event == Value(frame, EVENT) && data == Value(frame, DATA) && raw == Unlines(frame)
      ensures |rest| <= |old(rest)| && (old(done) ==> done)
      ensures !eof ==> |rest| < |old(rest)| || (done && !old(done))
    {
      hide CutLine, TrimEnd;
      event, data, raw := "", "", "";
      frame := [];
      if done { return true, "", "", "", []; }
      while true
        invariant !done && FramesFrom(Lines(rest), frame) == old(Ahead())
        invariant event == Value(frame, EVENT) && data == Value(frame, DATA) && raw == Unlines(frame)
        invariant |rest| <= |old(rest)|
        decreases |rest|
      {
        var cut := CutLine(rest);
        if cut.None? {
          done := true;
          if event != "" && data != "" { return false, event, data, raw, frame; }
          return true, "", "", "", [];
        }
        var line := cut.value.0;
        assert Lines(rest) == [line] + Lines(cut.value.1);
        assert ([line] + Lines(cut.value.1))[1..] == Lines(cut.value.1);
        rest := cut.value.1;
        var trimmed := TrimEnd(line);
        if trimmed == "" {
          if event != "" && data != "" {
            if event == MESSAGE_STOP { done := true; }
            return false, event, data, raw, frame;
          }
          event, data, raw, frame := "", "", "", [];
          continue;
        }
        OneLineMore(frame, line);
        ValueOfMore(frame, line, EVENT);
        ValueOfMore(frame, line, DATA);
        raw := raw + line + "\n";
        frame := frame + [line];
        if EVENT <= trimmed {
          event := trimmed[|EVENT|..];
          PrefixesDiffer(trimmed);
          continue;
        }
        if DATA <= trimmed {
          data := trimmed[|DATA|..];
        }
      }
    }
  }

  lemma PrefixesDiffer(s: string)
    requires EVENT <= s
    ensures !(DATA <= s)
  {
    assert s[0] == EVENT[0];
  }

  lemma OneLineMore(frame: seq<string>, line: string)
    ensures Unlines(frame + [line]) == Unlines(frame) + line + "\n"
  {
    UnlinesAppend(frame, [line]);
    assert [line][1..] == [];
    assert Unlines([line]) == line + "\n";
    assert Unlines(frame) + (line + "\n") == Unlines(frame) + line + "\n";
  }

  lemma ValueOfMore(frame: seq<string>, line: string, prefix: string)
    ensures Value(frame + [line], prefix) ==
            if prefix <= TrimEnd(line) then TrimEnd(line)[|prefix|..] else Value(frame, prefix)
  {
    assert (frame + [line])[..|frame|] == frame;
  }

  // ----- The pass-through -----

  function PassFrames(frames: seq<seq<string>>): string {
    if frames == [] then "" else Unlines(frames[0]) + "\n" + PassFrames(frames[1..])
  }

  /** What the client of an Anthropic stream is sent. */
  function PassThrough(text: string): string { PassFrames(Frames(text)) }

  ghost predicate EndsWithBlank(s: string) { |s| >= 2 && s[|s| - 2..] == "\n\n" }

  method PipeAnthropicStream(text: string) returns (written: string)
    ensures written == PassThrough(text)
  {
    hide Frames, Value, Unlines, PassFrames, Proper, AnthropicStreamReader.Ahead;
    FramesProper(text);
    NothingPasses();
    written := "";
    var reader := new AnthropicStreamReader(text);
    ghost var ahead := reader.Ahead();
    assert ahead == Frames(text) by { AheadOf(reader); }
    while true
      invariant fresh(reader)
      invariant ahead == reader.Ahead() && written + PassFrames(ahead) == PassThrough(text)
      invariant forall f | f in ahead :: Proper(f)
      decreases |ahead|
    {
      var eof, event, data, rawLines, frame := reader.ReadEvent();
      if eof { break; }
      assert ahead == [frame] + reader.Ahead();
      NoBlankEnd(frame);
      PassStep(frame, reader.Ahead());
      written := written + rawLines;
      if !(|rawLines| >= 2 && rawLines[|rawLines| - 2..] == "\n\n") { written := written + "\n"; }
      ahead := reader.Ahead();
    }
  }

  lemma AheadOf(reader: AnthropicStreamReader)
    requires !reader.done
    ensures reader.Ahead() == Frames(reader.rest)
  {
  }

  lemma NothingPasses()
    ensures PassFrames([]) == ""
  {
  }

  lemma PassStep(frame: seq<string>, rest: seq<seq<string>>)
    ensures PassFrames([frame] + rest) == Unlines(frame) + "\n" + PassFrames(rest)
  {
  }

  /** A frame as the reader makes it: complete, of lines that are not blank. */
  ghost predicate Proper(frame: seq<string>) {
    Complete(frame) && forall l | l in frame :: OneLine(l) && TrimEnd(l) != ""
  }

  lemma {:induction false} FramesAreProper(lines: seq<string>, frame: seq<string>)
    requires AllOneLine(lines) && forall l | l in frame :: OneLine(l) && TrimEnd(l) != ""
    ensures forall f | f in FramesFrom(lines, frame) :: Proper(f)
    ensures forall k | 0 <= k < |FramesFrom(lines, frame)| - 1 :: !Stops(FramesFrom(lines, frame)[k])
    decreases |lines|
  {
    hide Value;
    if lines != [] {
      assert lines[0] in lines;
      FramesAreProper(lines[1..], []);
      if TrimEnd(lines[0]) != "" { FramesAreProper(lines[1..], frame + [lines[0]]); }
    }
  }

  lemma FramesProper(text: string)
    ensures ProperList(Frames(text))
  {
    LinesAreLines(text);
    FramesAreProper(Lines(text), []);
  }

  /** The lines of a frame never end with a blank one, so the separator is always added. */
  lemma NoBlankEnd(frame: seq<string>)
    requires Proper(frame)
    ensures !EndsWithBlank(Unlines(frame))
  {
    assert frame != [];
    var n := |frame| - 1;
    var last := frame[n];
    assert last in frame;
    assert frame == frame[..n] + [last];
    OneLineMore(frame[..n], last);
    var s := Unlines(frame);
    assert s == Unlines(frame[..n]) + last + "\n";
    assert last != "" && last[|last| - 1] in last;
    assert s[|s| - 2] == last[|last| - 1];
    assert s[|s| - 2..] == [s[|s| - 2], s[|s| - 1]];
    assert last[|last| - 1] != '\n';
  }

  /** Frames that may follow each other: only the last one stops the message. */
  ghost predicate ProperList(frames: seq<seq<string>>) {
    && (forall f | f in frames :: Proper(f))
    && forall k | 0 <= k < |frames| - 1 :: !Stops(frames[k])
  }

  function LinesOfFrames(frames: seq<seq<string>>): seq<string> {
    if frames == [] then [] else frames[0] + [""] + LinesOfFrames(frames[1..])
  }

  lemma {:induction false} PassIsLines(frames: seq<seq<string>>)
    requires forall f | f in frames :: AllOneLine(f)
    ensures PassFrames(frames) == Unlines(LinesOfFrames(frames))
    ensures AllOneLine(LinesOfFrames(frames))
    decreases |frames|
  {
    if frames != [] {
      PassIsLines(frames[1..]);
      assert frames[0] in frames;
      UnlinesAppend(frames[0], [""]);
      UnlinesAppend(frames[0] + [""], LinesOfFrames(frames[1..]));
      assert [""][1..] == [] && Unlines([""]) == "\n";
    }
  }

  /** Reading on through lines that are not blank collects them. */
  lemma {:induction false} Collects(more: seq<string>, rest: seq<string>, frame: seq<string>)
    requires forall l | l in more :: TrimEnd(l) != ""
    ensures FramesFrom(more + rest, frame) == FramesFrom(rest, frame + more)
    decreases |more|
  {
    hide Value;
    if more == [] {
      assert more + rest == rest && frame + more == frame;
    } else {
      assert more[0] in more;
      assert (more + rest)[0] == more[0] && (more + rest)[1..] == more[1..] + rest;
      Collects(more[1..], rest, frame + [more[0]]);
      assert frame + [more[0]] + more[1..] == frame + more;
    }
  }

  lemma {:induction false} FramesOfLines(frames: seq<seq<string>>)
    requires ProperList(frames)
    ensures FramesFrom(LinesOfFrames(frames), []) == frames
    decreases |frames|
  {
    hide Value;
    if frames == [] {
      NothingIsComplete();
    } else {
      var f, rest := frames[0], LinesOfFrames(frames[1..]);
      assert f in frames;
      assert f + [""] + rest == f + ([""] + rest);
      Collects(f, [""] + rest, []);
      assert [] + f == f && ([""] + rest)[1..] == rest;
      assert TrimEnd("") == "";
      forall k | 0 <= k < |frames[1..]| - 1 ensures !Stops(frames[1..][k]) { assert frames[1..][k] == frames[k + 1]; }
      FramesOfLines(frames[1..]);
      assert frames == [f] + frames[1..];
      if Stops(f) { assert frames[1..] == []; }
    }
  }

  lemma NothingIsComplete()
    ensures !Complete([])
  {
  }

  /** The value of a frame is that of its last line with the prefix. */
  lemma {:induction false} ValueIsLast(frame: seq<string>, prefix: string, k: nat)
    requires k < |frame| && prefix <= TrimEnd(frame[k])
    requires forall j | k < j < |frame| :: !(prefix <= TrimEnd(frame[j]))
    ensures Value(frame, prefix) == TrimEnd(frame[k])[|prefix|..]
    decreases |frame|
  {
    hide TrimEnd;
    if k < |frame| - 1 { ValueIsLast(frame[..|frame| - 1], prefix, k); }
  }

  lemma {:induction false} NoValue(frame: seq<string>, prefix: string)
    requires forall l | l in frame :: !(prefix <= TrimEnd(l))
    ensures Value(frame, prefix) == ""
    decreases |frame|
  {
    hide TrimEnd;
    if frame != [] { NoValue(frame[..|frame| - 1], prefix); }
  }

  /** Exactly the carriage returns and line feeds at the end are cut off. */
  lemma {:induction false} TrimCutsLineEnds(s: string)
    ensures TrimEnd(s) <= s
    ensures forall i | |TrimEnd(s)| <= i < |s| :: s[i] == '\r' || s[i] == '\n'
    ensures TrimEnd(s) != "" ==> s[|TrimEnd(s)| - 1] != '\r' && s[|TrimEnd(s)| - 1] != '\n'
    decreases |s|
  {
    if s != "" && s[|s| - 1] in {'\r', '\n'} { TrimCutsLineEnds(s[..|s| - 1]); }
  }

  /** Any stretch of lines up to a blank one is one frame with all its lines, comments and
      unknown fields included, if it has an event name and data; otherwise it is left out. After
      the message stop nothing is read. */
  lemma BlockIsFrame(lines: seq<string>, blank: string, rest: seq<string>)
    requires (forall l | l in lines :: TrimEnd(l) != "") && TrimEnd(blank) == ""
    ensures FramesFrom(lines + ([blank] + rest), []) ==
            if Value(lines, "event: ") == "" || Value(lines, "data: ") == "" then FramesFrom(rest, [])
            else [lines] + (if Value(lines, "event: ") == "message_stop" then [] else FramesFrom(rest, []))
    ensures FramesFrom(lines, []) ==
            if Value(lines, "event: ") == "" || Value(lines, "data: ") == "" then [] else [lines]
  {
    hide TrimEnd, Value;
    Collects(lines, [blank] + rest, []);
    Collects(lines, [], []);
    assert lines + [] == lines;
    assert [] + lines == lines && ([blank] + rest)[1..] == rest;
  }

  /** This reader looks at complete lines only. */
  lemma FramesOfText(lines: seq<string>, tail: string)
    requires AllOneLine(lines) && OneLine(tail)
    ensures Frames(Unlines(lines) + tail) == FramesFrom(lines, [])
  {
    LinesWithTail(lines, tail);
  }

  lemma FramesOfPass(frames: seq<seq<string>>)
    requires ProperList(frames)
    ensures Frames(PassFrames(frames)) == frames
  {
    hide Value;
    forall f | f in frames ensures AllOneLine(f) { assert Proper(f); }
    PassIsLines(frames);
    LinesOfUnlines(LinesOfFrames(frames));
    FramesOfLines(frames);
  }

  /** The pass-through loses nothing that a reader would see, for every text: its output reads
      as the same frames, line by line, and passing it through again changes nothing. */
  lemma PassThroughIsFaithful(text: string)
    ensures Frames(PassThrough(text)) == Frames(text)
    ensures PassThrough(PassThrough(text)) == PassThrough(text)
  {
    hide Value, Frames;
    FramesProper(text);
    FramesOfPass(Frames(text));
  }

  // ----- Printed frames through the reader -----

  /** A pair that the text format can carry for this reader: both parts are needed. */
  predicate Framed(p: Pair) {
    Clean(p) && TrimEnd(p.event) == p.event && TrimEnd(p.data) == p.data && p.event != "" && p.data != ""
  }

  function FrameOf(p: Pair): seq<string> { [EVENT + p.event, DATA + p.data] }

  function FramesOf(list: seq<Pair>): seq<seq<string>> {
    if list == [] then [] else [FrameOf(list[0])] + FramesOf(list[1..])
  }

  /** The pairs up to the first message stop. */
  function UpToStop(list: seq<Pair>): seq<Pair> {
    if list == [] then []
    else if list[0].event == MESSAGE_STOP then [list[0]]
    else [list[0]] + UpToStop(list[1..])
  }

  function PairOf(frame: seq<string>): Pair { Pair(Value(frame, EVENT), Value(frame, DATA)) }

  function PairsOf(frames: seq<seq<string>>): seq<Pair> {
    if frames == [] then [] else [PairOf(frames[0])] + PairsOf(frames[1..])
  }

  lemma TrimAfter(prefix: string, s: string)
    requires s != "" && TrimEnd(s) == s
    ensures TrimEnd(prefix + s) == prefix + s
  {
    TrimmedEnd(s);
    assert (prefix + s)[|prefix + s| - 1] == s[|s| - 1];
  }

  lemma TrimmedEnd(s: string)
    requires s != ""
    ensures TrimEnd(s) == s <==> s[|s| - 1] !in {'\r', '\n'}
  {
    if s[|s| - 1] in {'\r', '\n'} { TrimShortens(s[..|s| - 1]); }
  }

  lemma {:induction false} TrimShortens(s: string)
    ensures |TrimEnd(s)| <= |s|
    ensures TrimEnd(s) <= s
    ensures TrimEnd(TrimEnd(s)) == TrimEnd(s)
    decreases |s|
  {
    if s != "" && s[|s| - 1] in {'\r', '\n'} { TrimShortens(s[..|s| - 1]); }
  }

  lemma ValuesOfFrame(p: Pair)
    requires TrimEnd(EVENT + p.event) == EVENT + p.event && TrimEnd(DATA + p.data) == DATA + p.data
    ensures PairOf(FrameOf(p)) == p
  {
    hide TrimEnd, Value;
    var e, d := EVENT + p.event, DATA + p.data;
    EventLineOf(p.event);
    DataLineOf(p.data);
    PrefixesDiffer(e);
    assert FrameOf(p) == [e] + [d] && [e] == [] + [e];
    ValueOfMore([], e, EVENT);
    ValueOfMore([e], d, EVENT);
    ValueOfMore([e], d, DATA);
  }

  lemma FrameIsProper(p: Pair)
    requires Framed(p)
    ensures Proper(FrameOf(p)) && PairOf(FrameOf(p)) == p
    ensures Stops(FrameOf(p)) <==> p.event == MESSAGE_STOP
  {
    hide TrimEnd, Value;
    TrimAfter(EVENT, p.event);
    TrimAfter(DATA, p.data);
    ValuesOfFrame(p);
    assert EVENT + p.event != "" && DATA + p.data != "";
  }

  lemma {:induction false} PrintedFrames(list: seq<Pair>)
    requires forall p | p in list :: Framed(p)
    ensures FramesFrom(AllLines(list), []) == FramesOf(UpToStop(list))
    ensures PairsOf(FramesOf(UpToStop(list))) == UpToStop(list)
    ensures PassFrames(FramesOf(UpToStop(list))) == Print(UpToStop(list))
    decreases |list|
  {
    hide Value, TrimEnd, Unlines;
    if list == [] {
      NothingIsComplete();
    } else {
      var p := list[0];
      var f, rest := FrameOf(p), AllLines(list[1..]);
      assert p in list;
      FrameIsProper(p);
      assert AllLines(list) == f + ([""] + rest);
      Collects(f, [""] + rest, []);
      assert [] + f == f && ([""] + rest)[1..] == rest && ([""] + rest)[0] == "";
      BlankIsBlank();
      PrintedFrames(list[1..]);
      OneFramePasses(p);
      var shown := UpToStop(list);
      assert shown == [p] + shown[1..] && FramesOf(shown) == [f] + FramesOf(shown[1..]);
      if p.event == MESSAGE_STOP { assert shown[1..] == []; } else { assert shown[1..] == UpToStop(list[1..]); }
      assert FramesFrom([""] + rest, f) == [f] + (if Stops(f) then [] else FramesFrom(rest, []));
      assert PassFrames(FramesOf(shown)) == Unlines(f) + "\n" + PassFrames(FramesOf(shown[1..]));
      assert PairsOf(FramesOf(shown)) == [p] + PairsOf(FramesOf(shown[1..]));
    }
  }

  lemma BlankIsBlank()
    ensures TrimEnd("") == ""
  {
  }

  lemma OneFramePasses(p: Pair)
    ensures Unlines(FrameOf(p)) + "\n" == PrintOne(p)
  {
    var a, b := EVENT + p.event, DATA + p.data;
    assert [a, b][1..] == [b] && [b][1..] == [];
    assert Unlines([b]) == b + "\n";
    assert Unlines([a, b]) == a + "\n" + (b + "\n");
    assert "\n" + "\n" == "\n\n";
  }

  /** For printed frames with a name and data the reader recovers the pairs up to the message
      stop, and the pass-through reproduces their text byte for byte. */
  lemma PrintedThroughReader(list: seq<Pair>)
    requires forall p | p in list :: Framed(p)
    ensures PairsOf(Frames(Print(list))) == UpToStop(list)
    ensures PassThrough(Print(list)) == Print(UpToStop(list))
  {
    hide Value, TrimEnd;
    PrintIsLines(list);
    LinesOfUnlines(AllLines(list));
    PrintedFrames(list);
  }

  lemma TrimIsOneLine(s: string)
    requires OneLine(s)
    ensures OneLine(TrimEnd(s))
  {
    TrimShortens(s);
    forall c | c in TrimEnd(s) ensures c in s { }
  }

  lemma RestOfTrimmed(line: string, n: nat)
    requires TrimEnd(line) == line && OneLine(line) && n <= |line|
    ensures TrimEnd(line[n..]) == line[n..] && OneLine(line[n..])
  {
    if n < |line| {
      TrimmedEnd(line);
      TrimmedEnd(line[n..]);
    }
  }

  lemma {:induction false} ValueIsTrimmed(frame: seq<string>, prefix: string)
    requires AllOneLine(frame)
    ensures OneLine(Value(frame, prefix)) && TrimEnd(Value(frame, prefix)) == Value(frame, prefix)
    decreases |frame|
  {
    hide TrimEnd;
    if frame == [] {
      BlankIsBlank();
    } else {
      var line := frame[|frame| - 1];
      assert line in frame;
      TrimShortens(line);
      TrimIsOneLine(line);
      if prefix <= TrimEnd(line) {
        RestOfTrimmed(TrimEnd(line), |prefix|);
      } else {
        ValueIsTrimmed(frame[..|frame| - 1], prefix);
      }
    }
  }

  lemma {:induction false} FramesAreFramed(frames: seq<seq<string>>)
    requires ProperList(frames)
    ensures forall p | p in PairsOf(frames) :: Framed(p)
    ensures UpToStop(PairsOf(frames)) == PairsOf(frames)
    decreases |frames|
  {
    hide Value, TrimEnd;
    if frames != [] {
      var f := frames[0];
      assert f in frames && AllOneLine(f);
      ValueIsTrimmed(f, EVENT);
      ValueIsTrimmed(f, DATA);
      forall k | 0 <= k < |frames[1..]| - 1 ensures !Stops(frames[1..][k]) { assert frames[1..][k] == frames[k + 1]; }
      FramesAreFramed(frames[1..]);
      if Stops(f) { assert frames[1..] == []; }
    }
  }

  /** Printing and this reader undo each other exactly on lists of pairs that both have a name
      and data, without line ends at their ends or inside, where nothing follows a stop. */
  lemma ReaderUndoesPrintIff(list: seq<Pair>)
    ensures PairsOf(Frames(Print(list))) == list <==> (forall p | p in list :: Framed(p)) && UpToStop(list) == list
  {
    hide Value, TrimEnd, Frames, Print, Framed;
    FramesProper(Print(list));
    FramesAreFramed(Frames(Print(list)));
    if forall p | p in list :: Framed(p) { PrintedThroughReader(list); }
  }
}
