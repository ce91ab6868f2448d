/** The decoder of one MCP response: a JSON body or a server-sent event stream (section 9.2.6 of
    the WHATWG HTML Living Standard), of which exactly one message must carry the request id.

    The JSON parser and the test of the id are parameters; `M` is whatever the parser yields. */
module EventStream {
  import opened Results

  /** The bytes of a response by the two ways they are read: as strict UTF-8, and in the encoding that `json.loads`
      detects in them, which may also be UTF-16, UTF-32 or UTF-8 with a byte order mark. Either reading may fail. */
  datatype Body = Body(utf8: Option<string>, detected: Option<string>)

  // ---- Text ---------------------------------------------------------------------------------

  predicate Holds(s: string, c: char) {
    exists i | 0 <= i < |s| :: s[i] == c
  }

  /** Every CR LF becomes LF. */
  function Unfold(s: string): string {
    if s == "" then ""
    else if |s| > 1 && s[0] == '\r' && s[1] == '\n' then "\n" + Unfold(s[2..])
    else [s[0]] + Unfold(s[1..])
  }

  function SplitLines(s: string): (r: seq<string>)
    ensures |r| > 0
  {
    if s == "" then [""]
    else
      var rest := SplitLines(s[1..]);
      if s[0] == '\n' then [""] + rest else [[s[0]] + rest[0]] + rest[1..]
  }

  function JoinLines(lines: seq<string>): string {
    if lines == [] then ""
    else if |lines| == 1 then lines[0]
    else lines[0] + "\n" + JoinLines(lines[1..])
  }

  /** Split at each blank line, leftmost first. */
  function SplitBlocks(s: string): (r: seq<string>)
    ensures |r| > 0
  {
    if s == "" then [""]
    else if |s| > 1 && s[0] == '\n' && s[1] == '\n' then [""] + SplitBlocks(s[2..])
    else
      var rest := SplitBlocks(s[1..]);
      [[s[0]] + rest[0]] + rest[1..]
  }

  /** The text before the first `c`, and what follows it if there is one. */
  function Partition(s: string, c: char): (string, Option<string>) {
    if s == "" then ("", None)
    else if s[0] == c then ("", Some(s[1..]))
    else
      var (head, tail) := Partition(s[1..], c);
      ([s[0]] + head, tail)
  }

  // ---- What the decoder means ---------------------------------------------------------------

  /** What one line of an event contributes: nothing, one data value, or a failure. */
  function LineData(line: string): Result<seq<string>> {
    if line != "" && line[0] == ':' then Returned([])
    else
      var (name, tail) := Partition(line, ':');
      if tail.None? then Raised
      else
        var value := if tail.value != "" && tail.value[0] == ' ' then tail.value[1..] else tail.value;
        if name == "data" then Returned([value])
        else if name == "event" && value == "message" then Returned([])
        else Raised
  }

  function BlockData(lines: seq<string>): Result<seq<string>> {
    if lines == [] then Returned([])
    else
      var rest := BlockData(lines[..|lines| - 1]);
      var last := LineData(lines[|lines| - 1]);
      if rest.Raised? || last.Raised? then Raised else Returned(rest.value + last.value)
  }

  /** The messages of the blocks: the JSON of each block that has data. */
  function Messages<M>(blocks: seq<string>, decode: string -> Option<M>): Result<seq<M>> {
    if blocks == [] then Returned([])
    else
      var rest := Messages(blocks[..|blocks| - 1], decode);
      if rest.Raised? then Raised
      else
        var block := blocks[|blocks| - 1];
        if block == "" then rest
        else
          var data := BlockData(SplitLines(block));
          if data.Raised? then Raised
          else if data.value == [] then rest
          else
            var message := decode(JoinLines(data.value));
            if message.None? then Raised else Returned(rest.value + [message.value])
  }

  function Matching<M>(messages: seq<M>, matches: M -> bool): seq<M> {
    if messages == [] then []
    else Matching(messages[..|messages| - 1], matches) +
         (if matches(messages[|messages| - 1]) then [messages[|messages| - 1]] else [])
  }

  function Unique<M>(messages: seq<M>, matches: M -> bool): Result<M> {
    var matched := Matching(messages, matches);
    if |matched| == 1 then Returned(matched[0]) else Raised
  }

  function StreamMessages<M>(raw: string, decode: string -> Option<M>): Result<seq<M>> {
    var text := Unfold(raw);
    if Holds(text, '\r') || !(|text| > 1 && text[|text| - 2..] == "\n\n") then Raised
    else Messages(SplitBlocks(text), decode)
  }

  function Decoded<M>(body: Body, contentType: string, decode: string -> Option<M>, matches: M -> bool): Result<M> {
    var (mediaType, _) := Partition(contentType, ';');
    if mediaType == "application/json" then
      var message := if body.detected.None? then None else decode(body.detected.value);
      if message.None? then Raised else Unique([message.value], matches)
    else if mediaType == "text/event-stream" then
      var messages := if body.utf8.None? then Raised else StreamMessages(body.utf8.value, decode);
      if messages.Raised? then Raised else Unique(messages.value, matches)
    else Raised
  }

  method DecodeMcp<M>(body: Body, contentType: string, decode: string -> Option<M>, matches: M -> bool)
    returns (r: Result<M>)
    ensures r == Decoded(body, contentType, decode, matches)
  {
    hide Unfold, SplitBlocks, SplitLines, JoinLines, Partition, LineData, Holds;
    var (mediaType, _) := Partition(contentType, ';');
    var messages: seq<M> := [];
    if mediaType == "application/json" {
      var message := if body.detected.None? then None else decode(body.detected.value);
      if message.None? {
        return Raised;
      }
      messages := [message.value];
    } else if mediaType == "text/event-stream" {
      if body.utf8.None? {
        return Raised;
      }
      var text := Unfold(body.utf8.value);
      if Holds(text, '\r') || !(|text| > 1 && text[|text| - 2..] == "\n\n") {
        return Raised;
      }
      var blocks := SplitBlocks(text);
      for i := 0 to |blocks|
        invariant Messages(blocks[..i], decode) == Returned(messages)
        invariant Messages(blocks, decode).Raised? || Messages(blocks[..i], decode).Returned?
      {
        assert blocks[..i + 1][..i] == blocks[..i];
        if blocks[i] == "" {
          continue;
        }
        var lines := SplitLines(blocks[i]);
        var fields: seq<string> := [];
        for j := 0 to |lines|
          invariant BlockData(lines[..j]) == Returned(fields)
        {
          assert lines[..j + 1][..j] == lines[..j];
          var data := LineData(lines[j]);
          if data.Raised? {
            RaisedLineRaisesBlock(lines, j + 1);
            RaisedBlockRaisesAll(blocks, decode, i + 1);
            return Raised;
          }
          fields := fields + data.value;
        }
        assert lines[..|lines|] == lines;
        if fields != [] {
          var message := decode(JoinLines(fields));
          if message.None? {
            RaisedBlockRaisesAll(blocks, decode, i + 1);
            return Raised;
          }
          messages := messages + [message.value];
        }
      }
      assert blocks[..|blocks|] == blocks;
    } else {
      return Raised;
    }
    var matched: seq<M> := [];
    for i := 0 to |messages|
      invariant matched == Matching(messages[..i], matches)
    {
      assert messages[..i + 1][..i] == messages[..i];
      if matches(messages[i]) {
        matched := matched + [messages[i]];
      }
    }
    assert messages[..|messages|] == messages;
    r := if |matched| == 1 then Returned(matched[0]) else Raised;
  }

  lemma {:induction false} RaisedLineRaisesBlock(lines: seq<string>, n: nat)
    requires n <= |lines| && BlockData(lines[..n]).Raised?
    ensures BlockData(lines).Raised?
    decreases |lines|
  {
    if n == |lines| {
      assert lines[..n] == lines;
    } else {
      var front := lines[..|lines| - 1];
      assert front[..n] == lines[..n];
      RaisedLineRaisesBlock(front, n);
    }
  }

  lemma {:induction false} RaisedBlockRaisesAll<M>(blocks: seq<string>, decode: string -> Option<M>, n: nat)
    requires n <= |blocks| && Messages(blocks[..n], decode).Raised?
    ensures Messages(blocks, decode).Raised?
    decreases |blocks|
  {
    if n == |blocks| {
      assert blocks[..n] == blocks;
    } else {
      var front := blocks[..|blocks| - 1];
      assert front[..n] == blocks[..n];
      RaisedBlockRaisesAll(front, decode, n);
    }
  }

  // ---- Encoding -----------------------------------------------------------------------------

  function Padded(space: bool, value: string): string {
    (if space then " " else "") + value
  }

  /** One line of an event as a server may write it, ended by LF or CR LF. */
  datatype Line =
    | Comment(text: string, crlf: bool)
    | EventName(space: bool, crlf: bool)
    | Data(value: string, space: bool, crlf: bool)
  {
    /** Text that stays on its line; a value that starts with a space needs the separating space. */
    ghost predicate Valid() {
      match this
      case Comment(text, _) => !Holds(text, '\r') && !Holds(text, '\n')
      case EventName(_, _) => true
      case Data(value, space, _) =>
        !Holds(value, '\r') && !Holds(value, '\n') && (value != "" && value[0] == ' ' ==> space)
    }

    function Text(): string {
      match this
      case Comment(text, _) => ":" + text
      case EventName(space, _) => "event" + ":" + Padded(space, "message")
      case Data(value, space, _) => "data" + ":" + Padded(space, value)
    }

    function Contribution(): seq<string> {
      match this
      case Comment(_, _) => []
      case EventName(_, _) => []
      case Data(value, _, _) => [value]
    }
  }

  datatype Event = Event(lines: seq<Line>, crlf: bool) {
    ghost predicate Valid() {
      |lines| > 0 && forall i :: 0 <= i < |lines| ==> lines[i].Valid()
    }
  }

  function Break(crlf: bool): string {
    if crlf then "\r\n" else "\n"
  }

  function WriteLines(lines: seq<Line>): string {
    if lines == [] then "" else lines[0].Text() + Break(lines[0].crlf) + WriteLines(lines[1..])
  }

  function Write(events: seq<Event>): string {
    if events == [] then "" else WriteLines(events[0].lines) + Break(events[0].crlf) + Write(events[1..])
  }

  function Texts(lines: seq<Line>): seq<string> {
    seq(|lines|, i requires 0 <= i < |lines| => lines[i].Text())
  }

  function Values(lines: seq<Line>): seq<string> {
    if lines == [] then [] else Values(lines[..|lines| - 1]) + lines[|lines| - 1].Contribution()
  }

  /** The JSON texts the events carry, in order; an event without data carries none. */
  function Payloads(events: seq<Event>): seq<string> {
    if events == [] then []
    else
      (if Values(events[0].lines) == [] then [] else [JoinLines(Values(events[0].lines))]) + Payloads(events[1..])
  }

  // ---- Lemmas about text --------------------------------------------------------------------

  lemma HoldsConcat(a: string, b: string, c: char)
    ensures Holds(a + b, c) <==> Holds(a, c) || Holds(b, c)
  {
    if i :| 0 <= i < |a| && a[i] == c {
      assert (a + b)[i] == c;
    }
    if i :| 0 <= i < |b| && b[i] == c {
      assert (a + b)[|a| + i] == c;
    }
  }

  lemma HoldsSplit(a: string, c: char)
    requires a != ""
    ensures a == [a[0]] + a[1..]
    ensures Holds(a, c) <==> a[0] == c || Holds(a[1..], c)
  {
    HoldsConcat([a[0]], a[1..], c);
    assert [a[0]][0] == a[0];
  }

  lemma {:induction false} UnfoldPlain(a: string, b: string)
    requires !Holds(a, '\r')
    ensures Unfold(a + b) == a + Unfold(b)
  {
    if a == "" {
      assert a + b == b;
    } else {
      assert (a + b)[1..] == a[1..] + b;
      HoldsSplit(a, '\r');
      UnfoldPlain(a[1..], b);
    }
  }

  lemma UnfoldBreak(crlf: bool, b: string)
    ensures Unfold(Break(crlf) + b) == "\n" + Unfold(b)
  {
    if crlf {
      assert (Break(crlf) + b)[2..] == b;
    } else {
      assert (Break(crlf) + b)[1..] == b;
    }
  }

  lemma {:induction false} SplitLinesAt(a: string, b: string)
    requires !Holds(a, '\n')
    ensures SplitLines(a + "\n" + b) == [a] + SplitLines(b)
    ensures SplitLines(a) == [a]
  {
    if a == "" {
      assert a + "\n" + b == "\n" + b && ("\n" + b)[1..] == b;
    } else {
      assert (a + "\n" + b)[1..] == a[1..] + "\n" + b;
      HoldsSplit(a, '\n');
      SplitLinesAt(a[1..], b);
    }
  }

  lemma {:induction false} SplitJoined(lines: seq<string>)
    requires |lines| > 0 && forall i :: 0 <= i < |lines| ==> !Holds(lines[i], '\n')
    ensures SplitLines(JoinLines(lines)) == lines
  {
    if |lines| > 1 {
      SplitJoined(lines[1..]);
      SplitLinesAt(lines[0], JoinLines(lines[1..]));
    } else {
      SplitLinesAt(lines[0], "");
    }
  }

  lemma {:induction false} JoinSplit(s: string)
    ensures JoinLines(SplitLines(s)) == s
  {
    if s != "" {
      JoinSplit(s[1..]);
      var rest := SplitLines(s[1..]);
      assert s == [s[0]] + s[1..];
      if s[0] == '\n' {
        assert ([""] + rest)[1..] == rest;
      } else {
        var head := [s[0]] + rest[0];
        assert ([head] + rest[1..])[1..] == rest[1..];
        if |rest| > 1 {
          assert JoinLines([head] + rest[1..]) == [s[0]] + (rest[0] + "\n" + JoinLines(rest[1..]));
        }
      }
    }
  }

  lemma {:induction false} SplitHolds(s: string, c: char, i: nat)
    requires i < |SplitLines(s)| && (c == '\n' || !Holds(s, c))
    ensures !Holds(SplitLines(s)[i], c)
  {
    if s != "" {
      HoldsSplit(s, c);
      var rest := SplitLines(s[1..]);
      if s[0] == '\n' {
        if i > 0 {
          SplitHolds(s[1..], c, i - 1);
        }
      } else {
        SplitHolds(s[1..], c, i);
        if i == 0 {
          HoldsConcat([s[0]], rest[0], c);
        }
      }
    }
  }

  /** A block has no blank line inside and does not end with a line break. */
  ghost predicate IsBlock(a: string) {
    && (forall i :: 0 <= i < |a| - 1 ==> !(a[i] == '\n' && a[i + 1] == '\n'))
    && (a != "" ==> a[|a| - 1] != '\n')
  }

  lemma {:induction false} SplitBlocksAt(a: string, b: string)
    requires IsBlock(a)
    ensures SplitBlocks(a + "\n\n" + b) == [a] + SplitBlocks(b)
  {
    var t := a + "\n\n" + b;
    if a == "" {
      assert t[2..] == b;
    } else {
      assert t[1..] == a[1..] + "\n\n" + b;
      assert forall i :: 0 <= i < |a[1..]| ==> a[1..][i] == a[i + 1];
      SplitBlocksAt(a[1..], b);
      assert a == [a[0]] + a[1..];
      assert t[0] == a[0] && (|a| > 1 ==> t[1] == a[1]);
    }
  }

  lemma {:induction false} JoinedIsBlock(lines: seq<string>)
    requires |lines| > 0 && forall i :: 0 <= i < |lines| ==> lines[i] != "" && !Holds(lines[i], '\n')
    ensures IsBlock(JoinLines(lines)) && JoinLines(lines) != "" && JoinLines(lines)[0] != '\n'
  {
    var s := JoinLines(lines);
    if |lines| > 1 {
      JoinedIsBlock(lines[1..]);
      var tail := JoinLines(lines[1..]);
      var n := |lines[0]|;
      assert s == lines[0] + "\n" + tail;
      forall i | 0 <= i < |s| - 1
        ensures !(s[i] == '\n' && s[i + 1] == '\n')
      {
        if i < n {
          assert s[i] == lines[0][i];
        } else if i == n {
          assert s[i + 1] == tail[0];
        } else {
          assert s[i] == tail[i - n - 1] && s[i + 1] == tail[i - n];
        }
      }
      assert s[|s| - 1] == tail[|tail| - 1];
      assert s[0] == lines[0][0];
    }
  }

  lemma {:induction false} PartitionAt(a: string, c: char, b: string)
    requires !Holds(a, c)
    ensures Partition(a + [c] + b, c) == (a, Some(b))
  {
    var t := a + [c] + b;
    if a == "" {
      assert t[1..] == b;
    } else {
      assert t[1..] == a[1..] + [c] + b;
      HoldsSplit(a, c);
      PartitionAt(a[1..], c, b);
    }
  }

  // ---- Lemmas about events ------------------------------------------------------------------

  lemma FieldRoundTrip(name: string, space: bool, value: string)
    requires name == "data" || (name == "event" && value == "message")
    requires value != "" && value[0] == ' ' ==> space
    ensures LineData(name + ":" + Padded(space, value)) ==
            Returned(if name == "data" then [value] else [])
  {
    var padded := Padded(space, value);
    assert name[0] != ':' && !Holds(name, ':');
    PartitionAt(name, ':', padded);
    var line := name + [':'] + padded;
    assert line == name + ":" + padded && line[0] == name[0];
    assert space ==> padded[0] == ' ' && padded[1..] == value;
    assert !space ==> padded == value;
  }

  lemma LineRoundTrip(line: Line)
    requires line.Valid()
    ensures LineData(line.Text()) == Returned(line.Contribution())
  {
    hide Holds, Partition, Padded;
    match line
    case Comment(text, _) =>
    case EventName(space, _) => FieldRoundTrip("event", space, "message");
    case Data(value, space, _) => FieldRoundTrip("data", space, value);
  }

  lemma LineStaysOnItsLine(line: Line, c: char)
    requires line.Valid() && (c == '\n' || c == '\r')
    ensures line.Text() != "" && !Holds(line.Text(), c)
  {
    match line {
      case Comment(text, _) =>
        HoldsConcat(":", text, c);
      case EventName(space, _) =>
      case Data(value, space, _) =>
        HoldsConcat("data:" + (if space then " " else ""), value, c);
    }
  }

  lemma {:induction false} LinesRoundTrip(lines: seq<Line>)
    requires forall i :: 0 <= i < |lines| ==> lines[i].Valid()
    ensures BlockData(Texts(lines)) == Returned(Values(lines))
  {
    if lines != [] {
      var n := |lines| - 1;
      LinesRoundTrip(lines[..n]);
      LineRoundTrip(lines[n]);
      assert Texts(lines)[..n] == Texts(lines[..n]);
    }
  }

  lemma UnfoldOne(text: string, crlf: bool, b: string)
    requires !Holds(text, '\r')
    ensures Unfold(text + Break(crlf) + b) == text + "\n" + Unfold(b)
  {
    assert text + Break(crlf) + b == text + (Break(crlf) + b);
    UnfoldPlain(text, Break(crlf) + b);
    UnfoldBreak(crlf, b);
  }

  lemma {:induction false} UnfoldLines(lines: seq<Line>, b: string)
    requires |lines| > 0 && forall i :: 0 <= i < |lines| ==> lines[i].Valid()
    ensures Unfold(WriteLines(lines) + b) == JoinLines(Texts(lines)) + "\n" + Unfold(b)
  {
    hide Line.Text, Line.Valid, Unfold, Holds, Break;
    var t, end, rest := lines[0].Text(), Break(lines[0].crlf), WriteLines(lines[1..]);
    LineStaysOnItsLine(lines[0], '\r');
    UnfoldOne(t, lines[0].crlf, rest + b);
    assert WriteLines(lines) + b == t + end + (rest + b);
    if |lines| == 1 {
      assert rest + b == b;
      assert Texts(lines) == [t];
    } else {
      UnfoldLines(lines[1..], b);
      assert Texts(lines)[1..] == Texts(lines[1..]);
      assert t + "\n" + (JoinLines(Texts(lines[1..])) + "\n" + Unfold(b)) ==
             t + "\n" + JoinLines(Texts(lines[1..])) + "\n" + Unfold(b);
    }
  }

  function Blocks(events: seq<Event>): seq<string> {
    seq(|events|, i requires 0 <= i < |events| => JoinLines(Texts(events[i].lines)))
  }

  lemma EventIsBlock(event: Event)
    requires event.Valid()
    ensures IsBlock(JoinLines(Texts(event.lines))) && JoinLines(Texts(event.lines)) != ""
    ensures !Holds(JoinLines(Texts(event.lines)), '\r')
    ensures SplitLines(JoinLines(Texts(event.lines))) == Texts(event.lines)
  {
    var texts := Texts(event.lines);
    forall i | 0 <= i < |texts|
      ensures texts[i] != "" && !Holds(texts[i], '\n') && !Holds(texts[i], '\r')
    {
      LineStaysOnItsLine(event.lines[i], '\n');
      LineStaysOnItsLine(event.lines[i], '\r');
    }
    JoinedIsBlock(texts);
    JoinedHolds(texts, '\r');
    SplitJoined(texts);
  }

  lemma UnfoldNothing()
    ensures Unfold("") == "" && !Holds("", '\r')
  {
  }

  lemma EndsBlank(block: string, tail: string)
    requires tail == "" || (|tail| > 1 && tail[|tail| - 2..] == "\n\n")
    ensures var text := block + "\n\n" + tail; |text| > 1 && text[|text| - 2..] == "\n\n"
  {
    var text := block + "\n\n" + tail;
    if tail != "" {
      assert text[|text| - 2..] == tail[|tail| - 2..];
    }
  }

  lemma BlockHoldsNoCr(block: string, tail: string)
    ensures !Holds(block, '\r') && !Holds(tail, '\r') ==> !Holds(block + "\n\n" + tail, '\r')
  {
    HoldsConcat(block, "\n\n", '\r');
    HoldsConcat(block + "\n\n", tail, '\r');
    NoCrInBreaks();
  }

  lemma NoCrInBreaks()
    ensures !Holds("\n\n", '\r')
  {
  }

  /** The first event of a stream, unfolded, is its block and a blank line. */
  lemma FirstUnfolds(first: Event, rest: string)
    requires first.Valid()
    ensures Unfold(WriteLines(first.lines) + Break(first.crlf) + rest) == JoinLines(Texts(first.lines)) + "\n\n"
            + Unfold(rest)
  {
    hide Line.Valid, Line.Text, Unfold, Break, WriteLines;
    var block := JoinLines(Texts(first.lines));
    assert WriteLines(first.lines) + Break(first.crlf) + rest == WriteLines(first.lines) + (Break(first.crlf) + rest);
    UnfoldLines(first.lines, Break(first.crlf) + rest);
    UnfoldBreak(first.crlf, rest);
    assert block + "\n" + ("\n" + Unfold(rest)) == block + "\n\n" + Unfold(rest);
  }

  lemma BlocksStep(events: seq<Event>)
    requires events != []
    ensures Blocks(events) == [JoinLines(Texts(events[0].lines))] + Blocks(events[1..])
  {
  }

  /** The written stream, unfolded, split into blocks: one per event and an empty one at the end. */
  lemma {:induction false} StreamBlocks(events: seq<Event>)
    requires forall i :: 0 <= i < |events| ==> events[i].Valid()
    ensures SplitBlocks(Unfold(Write(events))) == Blocks(events) + [""]
    ensures !Holds(Unfold(Write(events)), '\r')
    ensures var text := Unfold(Write(events)); |events| > 0 ==> |text| > 1 && text[|text| - 2..] == "\n\n"
  {
    hide Event.Valid, Line.Text, Unfold, Holds, Break, IsBlock, SplitLines, WriteLines, JoinLines;
    if events == [] {
      UnfoldNothing();
    } else {
      hide SplitBlocks;
      var first, rest := events[0], Write(events[1..]);
      var block, tail := JoinLines(Texts(first.lines)), Unfold(rest);
      StreamBlocks(events[1..]);
      FirstUnfolds(first, rest);
      EventIsBlock(first);
      SplitBlocksAt(block, tail);
      BlockHoldsNoCr(block, tail);
      BlocksStep(events);
      hide Blocks;
      EmptyWrites();
      EndsBlank(block, tail);
    }
  }

  lemma EmptyWrites()
    ensures Write([]) == "" && Unfold(Write([])) == ""
  {
  }

  lemma {:induction false} JoinedHolds(lines: seq<string>, c: char)
    requires c != '\n' && forall i :: 0 <= i < |lines| ==> !Holds(lines[i], c)
    ensures !Holds(JoinLines(lines), c)
  {
    if |lines| > 1 {
      JoinedHolds(lines[1..], c);
      HoldsConcat(lines[0], "\n", c);
      HoldsConcat(lines[0] + "\n", JoinLines(lines[1..]), c);
    }
  }

  function DecodeAll<M>(payloads: seq<string>, decode: string -> Option<M>): Result<seq<M>> {
    if payloads == [] then Returned([])
    else
      var rest := DecodeAll(payloads[..|payloads| - 1], decode);
      var last := decode(payloads[|payloads| - 1]);
      if rest.Raised? || last.None? then Raised else Returned(rest.value + [last.value])
  }

  lemma {:induction false} PayloadsSnoc(events: seq<Event>)
    requires events != []
    ensures var n := |events| - 1; var values := Values(events[n].lines);
            Payloads(events) == Payloads(events[..n]) + (if values == [] then [] else [JoinLines(values)])
  {
    var n := |events| - 1;
    if n == 0 {
      assert events[1..] == [] && events[..0] == [];
    } else {
      PayloadsSnoc(events[1..]);
      assert events[1..][..n - 1] == events[..n][1..];
    }
  }

  lemma EventMessages<M>(blocks: seq<string>, event: Event, decode: string -> Option<M>)
    requires event.Valid()
    ensures var rest, values := Messages(blocks, decode), Values(event.lines);
            Messages(blocks + [JoinLines(Texts(event.lines))], decode) ==
              if rest.Raised? then Raised
              else if values == [] then rest
              else
                var message := decode(JoinLines(values));
                if message.None? then Raised else Returned(rest.value + [message.value])
  {
    hide Line.Text, Line.Valid, SplitLines, IsBlock, BlockData, Holds, JoinLines, Values, Texts;
    var block := JoinLines(Texts(event.lines));
    var all := blocks + [block];
    assert all[..|all| - 1] == blocks && all[|all| - 1] == block;
    EventIsBlock(event);
    assert BlockData(Texts(event.lines)) == Returned(Values(event.lines)) by {
      EventLinesAreValid(event);
      LinesRoundTrip(event.lines);
    }
  }

  lemma EventLinesAreValid(event: Event)
    requires event.Valid()
    ensures forall i :: 0 <= i < |event.lines| ==> event.lines[i].Valid()
  {
  }

  lemma {:induction false} BlocksRoundTrip<M>(events: seq<Event>, decode: string -> Option<M>)
    requires forall i :: 0 <= i < |events| ==> events[i].Valid()
    ensures Messages(Blocks(events), decode) == DecodeAll(Payloads(events), decode)
  {
    hide Event.Valid, JoinLines, Values, Texts, Messages, Payloads;
    if events == [] {
      NothingCarried(decode);
      assert Blocks(events) == [];
    } else {
      var n := |events| - 1;
      BlocksRoundTrip(events[..n], decode);
      assert Blocks(events) == Blocks(events[..n]) + [JoinLines(Texts(events[n].lines))];
      EventMessages(Blocks(events[..n]), events[n], decode);
      PayloadsSnoc(events);
      if Values(events[n].lines) != [] {
        assert Payloads(events)[..|Payloads(events)| - 1] == Payloads(events[..n]);
      } else {
        assert Payloads(events) == Payloads(events[..n]);
      }
    }
  }

  lemma NothingCarried<M>(decode: string -> Option<M>)
    ensures Payloads([]) == [] && Messages([], decode) == Returned([])
  {
  }

  /** Decoding inverts writing: whatever comments, event names, spaces and line ends the server
      chose, the messages are those of the payloads, in order. */
  lemma StreamRoundTrip<M>(events: seq<Event>, decode: string -> Option<M>)
    requires |events| > 0 && forall i :: 0 <= i < |events| ==> events[i].Valid()
    ensures StreamMessages(Write(events), decode) == DecodeAll(Payloads(events), decode)
  {
    StreamBlocks(events);
    BlocksRoundTrip(events, decode);
    var blocks := Blocks(events);
    assert (blocks + [""])[..|blocks|] == blocks;
  }

  // ---- The whole response -------------------------------------------------------------------

  lemma {:induction false} MatchingOne<M>(messages: seq<M>, matches: M -> bool, k: nat)
    requires k < |messages| && matches(messages[k])
    requires forall i :: 0 <= i < |messages| && i != k ==> !matches(messages[i])
    ensures Matching(messages, matches) == [messages[k]]
  {
    var n := |messages| - 1;
    if k < n {
      MatchingOne(messages[..n], matches, k);
    } else {
      MatchingNone(messages[..n], matches);
    }
  }

  lemma {:induction false} MatchingNone<M>(messages: seq<M>, matches: M -> bool)
    requires forall i :: 0 <= i < |messages| ==> !matches(messages[i])
    ensures Matching(messages, matches) == []
  {
    if messages != [] {
      MatchingNone(messages[..|messages| - 1], matches);
    }
  }

  lemma {:induction false} MatchingCounts<M>(messages: seq<M>, matches: M -> bool, i: nat, j: nat)
    requires i < j < |messages| && matches(messages[i]) && matches(messages[j])
    ensures |Matching(messages, matches)| >= 2
  {
    var n := |messages| - 1;
    if j < n {
      MatchingCounts(messages[..n], matches, i, j);
    } else {
      MatchingHas(messages[..n], matches, i);
    }
  }

  lemma {:induction false} MatchingHas<M>(messages: seq<M>, matches: M -> bool, i: nat)
    requires i < |messages| && matches(messages[i])
    ensures |Matching(messages, matches)| >= 1
  {
    var n := |messages| - 1;
    if i < n {
      MatchingHas(messages[..n], matches, i);
    }
  }

  lemma {:induction false} DecodeAllEach<M>(payloads: seq<string>, decode: string -> Option<M>, messages: seq<M>)
    requires |payloads| == |messages|
    requires forall i :: 0 <= i < |payloads| ==> decode(payloads[i]) == Some(messages[i])
    ensures DecodeAll(payloads, decode) == Returned(messages)
  {
    if payloads != [] {
      var n := |payloads| - 1;
      DecodeAllEach(payloads[..n], decode, messages[..n]);
      assert messages == messages[..n] + [messages[n]];
    }
  }

  ghost predicate OnlyMatch<M>(messages: seq<M>, matches: M -> bool, k: nat) {
    && k < |messages| && matches(messages[k])
    && forall i :: 0 <= i < |messages| && i != k ==> !matches(messages[i])
  }

  lemma UniqueIsOnly<M>(messages: seq<M>, matches: M -> bool)
    ensures forall k: nat :: OnlyMatch(messages, matches, k) ==> Unique(messages, matches) == Returned(messages[k])
    ensures Unique(messages, matches).Returned? ==> exists k: nat :: OnlyMatch(messages, matches, k)
  {
    forall k: nat | OnlyMatch(messages, matches, k)
      ensures Matching(messages, matches) == [messages[k]]
    {
      MatchingOne(messages, matches, k);
    }
    if |Matching(messages, matches)| == 1 {
      if k: nat :| k < |messages| && matches(messages[k]) {
        if i: nat :| i < |messages| && i != k && matches(messages[i]) {
          MatchingCounts(messages, matches, if i < k then i else k, if i < k then k else i);
        }
        assert OnlyMatch(messages, matches, k);
      } else {
        MatchingNone(messages, matches);
      }
    }
  }

  /** A stream that carries `messages` decodes to message `k` if and only if `k` is the only one
      with the request id; with none or several it raises. */
  lemma ResponseRoundTrip<M>(events: seq<Event>, parameters: string, decode: string -> Option<M>,
                             matches: M -> bool, messages: seq<M>, detected: Option<string>)
    requires |events| > 0 && forall i :: 0 <= i < |events| ==> events[i].Valid()
    requires |Payloads(events)| == |messages|
    requires forall i :: 0 <= i < |messages| ==> decode(Payloads(events)[i]) == Some(messages[i])
    requires parameters == "" || parameters[0] == ';'
    ensures var r := Decoded(Body(Some(Write(events)), detected), "text/event-stream" + parameters, decode, matches);
            && (forall k: nat :: OnlyMatch(messages, matches, k) ==> r == Returned(messages[k]))
            && (r.Returned? ==> exists k: nat :: OnlyMatch(messages, matches, k))
  {
    hide Write, Payloads, StreamMessages, DecodeAll, OnlyMatch, Unique, Holds, Partition;
    StreamRoundTrip(events, decode);
    DecodeAllEach(Payloads(events), decode, messages);
    EventStreamType(parameters);
    UniqueIsOnly(messages, matches);
  }

  lemma EventStreamType(parameters: string)
    requires parameters == "" || parameters[0] == ';'
    ensures Partition("text/event-stream" + parameters, ';').0 == "text/event-stream"
  {
    MediaType("text/event-stream", parameters);
  }

  lemma MediaType(mediaType: string, parameters: string)
    requires !Holds(mediaType, ';') && (parameters == "" || parameters[0] == ';')
    ensures Partition(mediaType + parameters, ';').0 == mediaType
  {
    if parameters == "" {
      assert mediaType + parameters == mediaType;
      PartitionNone(mediaType, ';');
    } else {
      assert mediaType + parameters == mediaType + [';'] + parameters[1..];
      PartitionAt(mediaType, ';', parameters[1..]);
    }
  }

  lemma {:induction false} PartitionNone(a: string, c: char)
    requires !Holds(a, c)
    ensures Partition(a, c) == (a, None)
  {
    if a != "" {
      HoldsSplit(a, c);
      PartitionNone(a[1..], c);
    }
  }

  /** Any CR-free JSON text can be written as one event: one data line for each of its lines. */
  function EventOf(text: string): Event {
    var lines := SplitLines(text);
    Event(seq(|lines|, i requires 0 <= i < |lines| => Data(lines[i], true, false)), false)
  }

  lemma EventOfCarries(text: string)
    requires !Holds(text, '\r')
    ensures EventOf(text).Valid() && Payloads([EventOf(text)]) == [text]
  {
    JoinSplit(text);
    var event, lines := EventOf(text), SplitLines(text);
    forall i | 0 <= i < |lines|
      ensures event.lines[i].Valid()
    {
      SplitHolds(text, '\n', i);
      SplitHolds(text, '\r', i);
    }
    DataValues(lines, |lines|);
    assert event.lines[..|lines|] == event.lines && lines[..|lines|] == lines;
    assert [event][0] == event && [event][1..] == [];
  }

  lemma {:induction false} DataValues(lines: seq<string>, n: nat)
    requires n <= |lines|
    ensures Values(seq(|lines|, i requires 0 <= i < |lines| => Data(lines[i], true, false))[..n]) == lines[..n]
  {
    var all := seq(|lines|, i requires 0 <= i < |lines| => Data(lines[i], true, false));
    if n > 0 {
      DataValues(lines, n - 1);
      assert all[..n][..n - 1] == all[..n - 1];
      assert lines[..n] == lines[..n - 1] + [lines[n - 1]];
    }
  }
}
