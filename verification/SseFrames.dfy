/** The browser's reader of the token stream: frames cut out of a growing buffer, each parsed as a
    server-sent event (WHATWG HTML, sections 9.2.5 and 9.2.6) and dispatched by its name. */
module SseFrames {
  import opened Tables

  // ------------------------------------------------------------------ cutting frames

  /** `indexOf("\n\n")`. */
  function Boundary(text: string): (at: Option<nat>)
    ensures at.Some? ==> at.value + 1 < |text| && text[at.value] == '\n' && text[at.value + 1] == '\n'
    ensures at.Some? ==> forall k :: 0 <= k < at.value ==> !(text[k] == '\n' && text[k + 1] == '\n')
    ensures at.None? ==> forall k :: 0 <= k < |text| - 1 ==> !(text[k] == '\n' && text[k + 1] == '\n')
  {
    if |text| < 2 then None
    else if text[0] == '\n' && text[1] == '\n' then Some(0)
    else
      match Boundary(text[1..])
      case None => assert forall k :: 0 < k < |text| - 1 ==> text[k] == text[1..][k - 1] && text[k + 1] == text[1..][k]; None
      case Some(i) => assert forall k :: 0 < k < |text| - 1 ==> text[k] == text[1..][k - 1] && text[k + 1] == text[1..][k]; Some(i + 1)
  }

  datatype Cut = Cut(frames: seq<string>, rest: string)

  /** The whole text split at every boundary, from the left. */
  function Frames(text: string): Cut
    decreases |text|
  {
    match Boundary(text)
    case None => Cut([], text)
    case Some(i) =>
      var tail := Frames(text[i + 2..]);
      Cut([text[..i]] + tail.frames, tail.rest)
  }

  function Concat(chunks: seq<string>): string {
    if chunks == [] then "" else Concat(chunks[..|chunks| - 1]) + chunks[|chunks| - 1]
  }

  /** The first boundary is where it is, whatever follows. */
  lemma BoundaryStays(a: string, b: string)
    requires Boundary(a).Some?
    ensures Boundary(a + b) == Boundary(a)
  {
    var i := Boundary(a).value;
    var text := a + b;
    assert text[i] == '\n' && text[i + 1] == '\n';
    assert forall k :: 0 <= k <= i + 1 ==> text[k] == a[k];
    match Boundary(text)
    case None =>
    case Some(j) => assert j == i;
  }

  /** Frames cut early are the frames cut late: only the rest matters for what comes next. */
  lemma {:induction false} FramesIncremental(a: string, b: string)
    ensures var first := Frames(a);
      var second := Frames(first.rest + b);
      Frames(a + b) == Cut(first.frames + second.frames, second.rest)
    decreases |a|
  {
    hide Boundary, Frames;
    match Boundary(a)
    case None =>
      FramesNone(a);
      assert [] + Frames(a + b).frames == Frames(a + b).frames;
    case Some(i) =>
      BoundaryStays(a, b);
      var head, restA := a[..i], a[i + 2..];
      assert (a + b)[i + 2..] == restA + b && (a + b)[..i] == head;
      FramesSome(a, i);
      FramesSome(a + b, i);
      FramesIncremental(restA, b);
      var tail := Frames(restA);
      var second := Frames(tail.rest + b);
      assert [head] + tail.frames + second.frames == [head] + (tail.frames + second.frames);
  }

  lemma FramesNone(text: string)
    requires Boundary(text).None?
    ensures Frames(text) == Cut([], text)
  {
  }

  lemma FramesSome(text: string, i: nat)
    requires Boundary(text) == Some(i)
    ensures i + 2 <= |text| && Frames(text) == Cut([text[..i]] + Frames(text[i + 2..]).frames, Frames(text[i + 2..]).rest)
  {
    hide Boundary;
  }

  lemma {:induction false} NothingLeftToCut(text: string)
    ensures Boundary(Frames(text).rest).None?
    decreases |text|
  {
    match Boundary(text)
    case None =>
    case Some(i) => NothingLeftToCut(text[i + 2..]);
  }

  // ------------------------------------------------------------------ parsing a frame

  /** `split("\n")`. */
  function Lines(text: string): (lines: seq<string>)
    ensures |lines| > 0
    ensures forall i :: 0 <= i < |lines| ==> '\n' !in lines[i]
  {
    if text == "" then [""]
    else
      var rest := Lines(text[1..]);
      if text[0] == '\n' then [""] + rest else [[text[0]] + rest[0]] + rest[1..]
  }

  /** `join("\n")`. */
  function Joined(lines: seq<string>): string {
    if lines == [] then "" else if |lines| == 1 then lines[0] else lines[0] + "\n" + Joined(lines[1..])
  }

  lemma {:induction false} JoinedLines(text: string)
    ensures Joined(Lines(text)) == text
  {
    if text != "" {
      JoinedLines(text[1..]);
      var rest := Lines(text[1..]);
      if text[0] == '\n' {
        assert ([""] + rest)[1..] == rest;
      } else {
        assert ([[text[0]] + rest[0]] + rest[1..])[1..] == rest[1..];
        assert Joined(Lines(text)) == [text[0]] + Joined(rest);
      }
      assert text == [text[0]] + text[1..];
    }
  }

  lemma {:induction false} LinesOfLine(line: string)
    requires '\n' !in line
    ensures Lines(line) == [line]
  {
    if line != "" {
      LinesOfLine(line[1..]);
      assert line == [line[0]] + line[1..];
    }
  }

  lemma {:induction false} LinesConcat(line: string, rest: string)
    requires '\n' !in line
    ensures Lines(line + "\n" + rest) == [line] + Lines(rest)
  {
    var text := line + "\n" + rest;
    if line == "" {
      assert text[1..] == rest;
    } else {
      assert text[1..] == line[1..] + "\n" + rest;
      LinesConcat(line[1..], rest);
      assert line == [line[0]] + line[1..];
    }
  }

  lemma {:induction false} LinesJoined(lines: seq<string>)
    requires lines != [] && forall i :: 0 <= i < |lines| ==> '\n' !in lines[i]
    ensures Lines(Joined(lines)) == lines
  {
    if |lines| == 1 {
      LinesOfLine(lines[0]);
    } else {
      LinesJoined(lines[1..]);
      LinesConcat(lines[0], Joined(lines[1..]));
    }
  }

  const EVENT := "event: "
  const DATA := "data: "

  predicate StartsWith(line: string, prefix: string) {
    |prefix| <= |line| && line[..|prefix|] == prefix
  }

  function EventName(lines: seq<string>): string {
    if lines == [] then "token"
    else if StartsWith(lines[0], EVENT) then lines[0][|EVENT|..]
    else EventName(lines[1..])
  }

  function DataLines(lines: seq<string>): seq<string> {
    if lines == [] then []
    else if StartsWith(lines[0], DATA) then [lines[0][|DATA|..]] + DataLines(lines[1..])
    else DataLines(lines[1..])
  }

  datatype Message = Message(event: string, data: string)

  /** `parseSseFrame`. */
  function Parsed(frame: string): Message {
    Message(EventName(Lines(frame)), Joined(DataLines(Lines(frame))))
  }

  // ------------------------------------------------------------------ the server's encoding

  /** Line endings CR LF and CR become LF: the server splits data at all three. */
  function Normalised(data: string): string {
    if data == "" then ""
    else if data[0] == '\r' then "\n" + Normalised(if |data| > 1 && data[1] == '\n' then data[2..] else data[1..])
    else [data[0]] + Normalised(data[1..])
  }

  function Prefixed(lines: seq<string>): (r: seq<string>)
    ensures |r| == |lines|
    ensures forall i :: 0 <= i < |lines| ==> r[i] == DATA + lines[i]
  {
    if lines == [] then [] else [DATA + lines[0]] + Prefixed(lines[1..])
  }

  /** One `event:` line, one `data:` line per line of data, without the blank line that ends it. */
  function Encoded(m: Message): string {
    Joined([EVENT + m.event] + Prefixed(Lines(Normalised(m.data))))
  }

  /** What the server writes: a message, or a keep-alive comment. */
  datatype Sent = Event(m: Message) | Ping(comment: string)

  function Written(sent: Sent): string {
    match sent
    case Event(m) => Encoded(m)
    case Ping(comment) => ": " + comment
  }

  function EncodedStream(sent: seq<Sent>): string {
    if sent == [] then "" else Written(sent[0]) + "\n\n" + EncodedStream(sent[1..])
  }

  lemma {:induction false} NormalisedFixed(data: string)
    ensures Normalised(data) == data <==> '\r' !in data
    ensures '\r' !in Normalised(data)
    decreases |data|
  {
    if data != "" {
      var rest := if data[0] == '\r' && |data| > 1 && data[1] == '\n' then data[2..] else data[1..];
      NormalisedFixed(rest);
      assert data == [data[0]] + data[1..];
      if data[0] != '\r' && Normalised(data) == data {
        assert Normalised(data[1..]) == data[1..] by { assert Normalised(data)[1..] == Normalised(data[1..]); }
      }
    }
  }

  lemma {:induction false} DataOfPrefixed(lines: seq<string>)
    ensures DataLines(Prefixed(lines)) == lines
  {
    if lines != [] {
      DataOfPrefixed(lines[1..]);
      assert (DATA + lines[0])[|DATA|..] == lines[0];
      assert Prefixed(lines)[1..] == Prefixed(lines[1..]);
    }
  }

  lemma EncodedLines(m: Message)
    requires '\n' !in m.event
    ensures Lines(Encoded(m)) == [EVENT + m.event] + Prefixed(Lines(Normalised(m.data)))
  {
    LinesJoined([EVENT + m.event] + Prefixed(Lines(Normalised(m.data))));
  }

  /** A frame is read back with the event name it was given, and its data with line endings
      normalised: exactly the data itself if and only if that has no carriage return. */
  lemma FrameReadsBack(m: Message)
    requires '\n' !in m.event
    ensures Parsed(Encoded(m)) == Message(m.event, Normalised(m.data))
    ensures Parsed(Encoded(m)) == m <==> '\r' !in m.data
  {
    EncodedLines(m);
    var data := Lines(Normalised(m.data));
    var lines := [EVENT + m.event] + Prefixed(data);
    assert lines[1..] == Prefixed(data);
    assert (EVENT + m.event)[|EVENT|..] == m.event;
    assert (EVENT + m.event)[0] == 'e';
    DataOfPrefixed(data);
    JoinedLines(Normalised(m.data));
    NormalisedFixed(m.data);
  }

  /** A message with a carriage return that does not come back as it was sent. */
  lemma CarriageReturnIsLost()
    ensures Parsed(Encoded(Message("token", "a\rb"))) == Message("token", "a\nb")
    ensures Parsed(Encoded(Message("token", "a\r\nb"))) == Message("token", "a\nb")
  {
    FrameReadsBack(Message("token", "a\r\nb"));
    assert "a\r\nb"[1..] == "\r\nb" && "\r\nb"[2..] == "b";
    assert Normalised("\r\nb") == "\n" + Normalised("b");
    FrameReadsBack(Message("token", "a\rb"));
    assert "a\rb"[1..][1..] == "b" && "b"[1..] == "";
    assert Normalised("b") == "b";
    assert Normalised("\rb") == "\nb" by { assert "\rb"[1..] == "b"; }
    assert Normalised("a\rb") == "a\nb" by { assert "a\rb"[1..] == "\rb"; }
  }

  // ------------------------------------------------------------------ a whole stream

  /** Lines that are not empty, joined, contain no blank line and do not end in a line break. */
  lemma {:induction false} JoinedHasNoBoundary(lines: seq<string>)
    requires lines != [] && forall i :: 0 <= i < |lines| ==> '\n' !in lines[i] && lines[i] != ""
    ensures Boundary(Joined(lines)).None?
    ensures Joined(lines) != "" && Joined(lines)[0] == lines[0][0] && Joined(lines)[|Joined(lines)| - 1] != '\n'
  {
    var text := Joined(lines);
    if |lines| > 1 {
      JoinedHasNoBoundary(lines[1..]);
      var rest := Joined(lines[1..]);
      assert text == lines[0] + "\n" + rest;
      var n := |lines[0]|;
      assert lines[0][n - 1] in lines[0] && rest[0] == lines[1][0] && lines[1][0] in lines[1];
      forall k | 0 <= k < |text| - 1 ensures !(text[k] == '\n' && text[k + 1] == '\n') {
        if k < n {
          assert text[k] == lines[0][k] && lines[0][k] in lines[0];
        } else if k > n {
          assert text[k] == rest[k - n - 1] && text[k + 1] == rest[k - n];
        }
      }
    } else {
      assert forall k :: 0 <= k < |text| ==> text[k] in lines[0];
    }
  }

  /** A frame without a blank line in it, followed by one, is cut exactly there. */
  lemma CutsThere(frame: string, rest: string)
    requires Boundary(frame).None? && frame != "" && frame[|frame| - 1] != '\n'
    ensures Boundary(frame + "\n\n" + rest) == Some(|frame|)
  {
    var text := frame + "\n\n" + rest;
    var n := |frame|;
    assert text[n] == '\n' && text[n + 1] == '\n';
    forall k | 0 <= k < n ensures !(text[k] == '\n' && text[k + 1] == '\n') {
      if k < n - 1 {
        assert text[k] == frame[k] && text[k + 1] == frame[k + 1];
      } else {
        assert text[k] == frame[k];
      }
    }
    match Boundary(text)
    case None =>
    case Some(j) => assert j == n;
  }

  function ParsedAll(frames: seq<string>): (ms: seq<Message>)
    ensures |ms| == |frames|
  {
    if frames == [] then [] else [Parsed(frames[0])] + ParsedAll(frames[1..])
  }

  /** Event names and comments are single lines; data is any text at all. */
  predicate Sendable(sent: Sent) {
    match sent
    case Event(m) => '\n' !in m.event
    case Ping(comment) => '\n' !in comment
  }

  /** What arrives: the message with its line endings normalised; a comment as an empty token. */
  function Arrived(sent: Sent): Message {
    match sent
    case Event(m) => Message(m.event, Normalised(m.data))
    case Ping(_) => Message("token", "")
  }

  function ArrivedAll(sent: seq<Sent>): (ms: seq<Message>)
    ensures |ms| == |sent| && forall i :: 0 <= i < |sent| ==> ms[i] == Arrived(sent[i])
  {
    if sent == [] then [] else [Arrived(sent[0])] + ArrivedAll(sent[1..])
  }

  /** What is written is one frame, and read back as it should arrive. */
  lemma WrittenReadsBack(sent: Sent)
    requires Sendable(sent)
    ensures Parsed(Written(sent)) == Arrived(sent)
    ensures Boundary(Written(sent)).None? && Written(sent) != "" && Written(sent)[|Written(sent)| - 1] != '\n'
  {
    hide Boundary;
    match sent {
      case Event(m) =>
        FrameReadsBack(m);
        JoinedHasNoBoundary([EVENT + m.event] + Prefixed(Lines(Normalised(m.data))));
      case Ping(comment) =>
        CommentReadsBack(comment);
        assert Joined([": " + comment]) == ": " + comment;
        JoinedHasNoBoundary([": " + comment]);
    }
  }

  lemma CommentReadsBack(comment: string)
    requires '\n' !in comment
    ensures Parsed(": " + comment) == Message("token", "")
  {
    var frame := ": " + comment;
    LinesOfLine(frame);
    assert frame[0] == ':';
    var after: seq<string> := [frame][1..];
    assert after == [];
    assert !StartsWith(frame, EVENT) by { assert EVENT[0] == 'e'; }
    assert !StartsWith(frame, DATA) by { assert DATA[0] == 'd'; }
    assert EventName(after) == "token" && DataLines(after) == [];
    assert DataLines([frame]) == [];
    assert EventName([frame]) == "token";
  }

  /** What is written at the front of a text is one frame of it. */
  lemma CutsOneMessage(sent: Sent, rest: string)
    requires Sendable(sent)
    ensures Frames(Written(sent) + "\n\n" + rest) == Cut([Written(sent)] + Frames(rest).frames, Frames(rest).rest)
  {
    hide Boundary, Frames;
    WrittenReadsBack(sent);
    hide Written, Parsed;
    CutsThere(Written(sent), rest);
    var text := Written(sent) + "\n\n" + rest;
    assert text[|Written(sent)| + 2..] == rest && text[..|Written(sent)|] == Written(sent);
    FramesSome(text, |Written(sent)|);
  }

  /** The stream the server writes is cut and parsed into exactly the messages it sent, with their
      line endings normalised, keep-alive comments arriving as empty tokens in their places. */
  lemma {:induction false} StreamReadsBack(sent: seq<Sent>)
    requires forall i :: 0 <= i < |sent| ==> Sendable(sent[i])
    ensures Frames(EncodedStream(sent)).rest == "" && ParsedAll(Frames(EncodedStream(sent)).frames) == ArrivedAll(sent)
  {
    hide Written, Parsed, Arrived;
    if sent == [] {
      FramesNone("");
    } else {
      hide Frames;
      var rest := EncodedStream(sent[1..]);
      CutsOneMessage(sent[0], rest);
      StreamReadsBack(sent[1..]);
      WrittenReadsBack(sent[0]);
      var frames := [Written(sent[0])] + Frames(rest).frames;
      assert frames[1..] == Frames(rest).frames;
    }
  }

  // ------------------------------------------------------------------ dispatch

  /** What the reader makes of the data of a done event: JSON null, or anything else with the html it
      carries (empty: none it would use). Data that is not JSON reads as an empty object. */
  datatype Payload = Null | Object(html: string)

  /** What the browser supplies: `JSON.parse` as far as the reader looks, and the text content of
      markup. */
  datatype Browser = Browser(payload: string -> Payload, textOf: string -> string)

  datatype Surface = Text(text: string) | Markup(html: string)

  datatype Shown = Shown(surface: Surface, completed: bool, failed: bool)

  function TextContent(b: Browser, surface: Surface): string {
    match surface
    case Text(text) => text
    case Markup(html) => b.textOf(html)
  }

  /** What one message does to the surface. An error event ends the reading, and so does a done event
      whose data is JSON null: asking it for its html throws. Appending text to rendered markup, even
      empty text, leaves its plain text. */
  function Dispatch(b: Browser, s: Shown, m: Message): Shown {
    if s.failed then s
    else if m.event == "token" then s.(surface := Text(TextContent(b, s.surface) + m.data))
    else if m.event == "error" then s.(failed := true)
    else if m.event == "done" then
      match b.payload(m.data)
      case Null => s.(failed := true)
      case Object(html) => s.(surface := if html != "" then Markup(html) else s.surface, completed := true)
    else s
  }

  function DispatchAll(b: Browser, s: Shown, ms: seq<Message>): Shown
    decreases |ms|
  {
    if ms == [] then s else DispatchAll(b, Dispatch(b, s, ms[0]), ms[1..])
  }

  lemma {:induction false} DispatchConcat(b: Browser, s: Shown, before: seq<Message>, after: seq<Message>)
    ensures DispatchAll(b, s, before + after) == DispatchAll(b, DispatchAll(b, s, before), after)
    decreases |before|
  {
    if before == [] {
      assert before + after == after;
    } else {
      assert (before + after)[1..] == before[1..] + after;
      DispatchConcat(b, Dispatch(b, s, before[0]), before[1..], after);
    }
  }

  lemma {:induction false} AfterFailure(b: Browser, s: Shown, ms: seq<Message>)
    requires s.failed
    ensures DispatchAll(b, s, ms) == s
    decreases |ms|
  {
    if ms != [] {
      AfterFailure(b, s, ms[1..]);
    }
  }

  lemma {:induction false} ParsedConcat(a: seq<string>, b: seq<string>)
    ensures ParsedAll(a + b) == ParsedAll(a) + ParsedAll(b)
  {
    if a == [] {
      assert a + b == b;
    } else {
      assert (a + b)[1..] == a[1..] + b;
      ParsedConcat(a[1..], b);
    }
  }

  const BLANK := Shown(Text(""), false, false)

  /** What the surface shows for a whole decoded text. */
  function ShownFor(b: Browser, text: string): Shown {
    DispatchAll(b, BLANK, ParsedAll(Frames(text).frames))
  }

  /** One more frame at the front of the buffer. */
  lemma OneMoreFrame(b: Browser, shown: Shown, buffer: string, i: nat)
    requires Boundary(buffer) == Some(i)
    ensures DispatchAll(b, shown, ParsedAll(Frames(buffer).frames))
         == DispatchAll(b, Dispatch(b, shown, Parsed(buffer[..i])), ParsedAll(Frames(buffer[i + 2..]).frames))
    ensures Frames(buffer).rest == Frames(buffer[i + 2..]).rest
  {
    hide Boundary, Dispatch;
    var tail := Frames(buffer[i + 2..]).frames;
    assert Frames(buffer).frames == [buffer[..i]] + tail;
    assert ([buffer[..i]] + tail)[1..] == tail;
    assert ParsedAll([buffer[..i]] + tail)[1..] == ParsedAll(tail);
  }

  /** `streamInto`'s inner loop: every complete frame of the buffer, in order. */
  method DrainBuffer(b: Browser, shown0: Shown, buffer0: string) returns (shown: Shown, buffer: string)
    requires !shown0.failed
    ensures shown == DispatchAll(b, shown0, ParsedAll(Frames(buffer0).frames))
    ensures !shown.failed ==> buffer == Frames(buffer0).rest && Boundary(buffer).None?
  {
    shown, buffer := shown0, buffer0;
    var boundary := Boundary(buffer);
    while boundary.Some?
      invariant boundary == Boundary(buffer) && !shown.failed
      invariant DispatchAll(b, shown0, ParsedAll(Frames(buffer0).frames)) == DispatchAll(b, shown, ParsedAll(Frames(buffer).frames))
      invariant Frames(buffer0).rest == Frames(buffer).rest
      decreases |buffer|
    {
      var i := boundary.value;
      var m := Parsed(buffer[..i]);
      OneMoreFrame(b, shown, buffer, i);
      buffer := buffer[i + 2..];
      shown := Dispatch(b, shown, m);
      if shown.failed {
        AfterFailure(b, shown, ParsedAll(Frames(buffer).frames));
        return;
      }
      boundary := Boundary(buffer);
    }
  }

  lemma NothingShown(b: Browser)
    ensures ShownFor(b, "") == BLANK && Frames("").rest == "" && Concat([]) == ""
  {
  }

  /** `streamInto`: read chunk by chunk, show every frame as soon as it is complete, stop when one
      fails; a stream that ends without a done event has failed too. However the text is split into
      chunks, the surface ends up as if the whole text had been read at once. */
  method StreamInto(b: Browser, chunks: seq<string>) returns (shown: Shown, finished: bool)
    ensures shown == ShownFor(b, Concat(chunks))
    ensures finished <==> shown.completed && !shown.failed
  {
    NothingShown(b);
    hide ShownFor, Frames, Boundary;
    shown := BLANK;
    var buffer := "";
    var n := 0;
    while n < |chunks|
      invariant n <= |chunks| && !shown.failed
      invariant shown == ShownFor(b, Concat(chunks[..n])) && buffer == Frames(Concat(chunks[..n])).rest
    {
      assert chunks[..n + 1][..n] == chunks[..n];
      MoreText(b, Concat(chunks[..n]), chunks[n]);
      buffer := buffer + chunks[n];
      shown, buffer := DrainBuffer(b, shown, buffer);
      n := n + 1;
      if shown.failed {
        FailedForGood(b, chunks, n);
        return shown, false;
      }
    }
    assert chunks[..n] == chunks;
    finished := shown.completed;
  }

  lemma NothingMoreShown(b: Browser, before: string, chunk: string)
    requires ShownFor(b, before).failed
    ensures ShownFor(b, before + chunk) == ShownFor(b, before)
  {
    hide ShownFor, Frames, DispatchAll, ParsedAll;
    MoreText(b, before, chunk);
    AfterFailure(b, ShownFor(b, before), ParsedAll(Frames(Frames(before).rest + chunk).frames));
  }

  /** Once the reading has failed, the chunks after it make no difference. */
  lemma {:induction false} FailedForGood(b: Browser, chunks: seq<string>, n: nat)
    requires n <= |chunks| && ShownFor(b, Concat(chunks[..n])).failed
    ensures ShownFor(b, Concat(chunks)) == ShownFor(b, Concat(chunks[..n]))
    decreases |chunks|
  {
    hide ShownFor, Frames, DispatchAll, ParsedAll, Boundary;
    if n == |chunks| {
      assert chunks[..n] == chunks;
    } else {
      var m := |chunks| - 1;
      assert chunks[..m][..n] == chunks[..n];
      FailedForGood(b, chunks[..m], n);
      NothingMoreShown(b, Concat(chunks[..m]), chunks[m]);
    }
  }

  /** What is shown for more text: the frames it completes, after what was shown before. */
  lemma MoreText(b: Browser, before: string, chunk: string)
    ensures ShownFor(b, before + chunk) == DispatchAll(b, ShownFor(b, before), ParsedAll(Frames(Frames(before).rest + chunk).frames))
    ensures Frames(before + chunk).rest == Frames(Frames(before).rest + chunk).rest
  {
    hide Boundary, Dispatch;
    FramesIncremental(before, chunk);
    var more := Frames(Frames(before).rest + chunk).frames;
    hide Frames;
    ParsedConcat(Frames(before).frames, more);
    DispatchConcat(b, BLANK, ParsedAll(Frames(before).frames), ParsedAll(more));
  }

  // ------------------------------------------------------------------ what the surface ends up with

  /** The message that ends the reading. */
  predicate Stops(b: Browser, m: Message) {
    m.event == "error" || (m.event == "done" && b.payload(m.data).Null?)
  }

  predicate CarriesHtml(b: Browser, m: Message) {
    m.event == "done" && b.payload(m.data).Object? && b.payload(m.data).html != ""
  }

  /** The messages before the first one that ends the reading. */
  function Handled(b: Browser, ms: seq<Message>): (h: seq<Message>)
    ensures h <= ms && forall i :: 0 <= i < |h| ==> !Stops(b, h[i])
    ensures |h| < |ms| ==> Stops(b, ms[|h|])
  {
    if ms == [] || Stops(b, ms[0]) then [] else [ms[0]] + Handled(b, ms[1..])
  }

  predicate Mentions(ms: seq<Message>, event: string) {
    exists i :: 0 <= i < |ms| && ms[i].event == event
  }

  /** All token texts, in order. */
  function Tokens(ms: seq<Message>): string {
    if ms == [] then "" else (if ms[0].event == "token" then ms[0].data else "") + Tokens(ms[1..])
  }

  lemma {:induction false} TokensAre(a: seq<Message>, b: seq<Message>, m: Message)
    ensures Tokens([]) == ""
    ensures Tokens([m]) == if m.event == "token" then m.data else ""
    ensures Tokens(a + b) == Tokens(a) + Tokens(b)
    decreases |a|
  {
    assert [m][1..] == [];
    if m.event == "token" {
      assert m.data + "" == m.data;
    }
    if a == [] {
      assert a + b == b && "" + Tokens(b) == Tokens(b);
    } else {
      assert (a + b)[1..] == a[1..] + b;
      TokensAre(a[1..], b, m);
    }
  }

  /** The last message that carries html. */
  function LastHtml(b: Browser, ms: seq<Message>): (last: Option<nat>)
    ensures last.Some? ==> last.value < |ms| && CarriesHtml(b, ms[last.value])
    ensures forall i :: 0 <= i < |ms| && CarriesHtml(b, ms[i]) ==> last.Some? && i <= last.value
  {
    if ms == [] then None
    else if CarriesHtml(b, ms[|ms| - 1]) then Some(|ms| - 1)
    else LastHtml(b, ms[..|ms| - 1])
  }

  /** Token texts appended to a surface: it stays as it is if there is no token at all. */
  function Appended(b: Browser, surface: Surface, ms: seq<Message>): Surface {
    if Mentions(ms, "token") then Text(TextContent(b, surface) + Tokens(ms)) else surface
  }

  lemma {:induction false} DispatchAppends(b: Browser, s: Shown, ms: seq<Message>)
    requires !s.failed && forall i :: 0 <= i < |ms| ==> !Stops(b, ms[i]) && !CarriesHtml(b, ms[i])
    ensures DispatchAll(b, s, ms) == Shown(Appended(b, s.surface, ms), s.completed || Mentions(ms, "done"), false)
    decreases |ms|
  {
    if ms != [] {
      var m, rest := ms[0], ms[1..];
      assert forall i :: 0 <= i < |rest| ==> rest[i] == ms[i + 1];
      var next := Dispatch(b, s, m);
      DispatchAppends(b, next, rest);
      MentionsFirst(ms, "done");
      AppendedFirst(b, s.surface, ms);
      assert next.surface == if m.event == "token" then Text(TextContent(b, s.surface) + m.data) else s.surface;
    }
  }

  lemma AppendedFirst(b: Browser, surface: Surface, ms: seq<Message>)
    requires ms != []
    ensures Appended(b, surface, ms) ==
      Appended(b, if ms[0].event == "token" then Text(TextContent(b, surface) + ms[0].data) else surface, ms[1..])
  {
    var before, data, rest := TextContent(b, surface), ms[0].data, ms[1..];
    MentionsFirst(ms, "token");
    if ms[0].event == "token" {
      if Mentions(rest, "token") {
        assert before + (data + Tokens(rest)) == (before + data) + Tokens(rest);
      } else {
        NoTokens(rest);
        assert data + "" == data;
      }
    } else {
      assert "" + Tokens(rest) == Tokens(rest);
    }
  }

  lemma MentionsFirst(ms: seq<Message>, event: string)
    requires ms != []
    ensures Mentions(ms, event) <==> ms[0].event == event || Mentions(ms[1..], event)
  {
    var rest := ms[1..];
    if Mentions(rest, event) {
      var i :| 0 <= i < |rest| && rest[i].event == event;
      assert ms[i + 1].event == event;
    }
    if Mentions(ms, event) && ms[0].event != event {
      var i :| 0 <= i < |ms| && ms[i].event == event;
      assert rest[i - 1].event == event;
    }
  }

  lemma {:induction false} NoTokens(ms: seq<Message>)
    requires !Mentions(ms, "token")
    ensures Tokens(ms) == ""
  {
    if ms != [] {
      MentionsFirst(ms, "token");
      NoTokens(ms[1..]);
    }
  }

  lemma {:induction false} NothingStops(b: Browser, s: Shown, ms: seq<Message>)
    requires !s.failed && forall i :: 0 <= i < |ms| ==> !Stops(b, ms[i])
    ensures !DispatchAll(b, s, ms).failed && (DispatchAll(b, s, ms).completed <==> s.completed || Mentions(ms, "done"))
    decreases |ms|
  {
    if ms != [] {
      assert forall i :: 0 <= i < |ms| - 1 ==> ms[1..][i] == ms[i + 1];
      NothingStops(b, Dispatch(b, s, ms[0]), ms[1..]);
      MentionsFirst(ms, "done");
    }
  }

  /** What messages of which none ends the reading leave on a blank surface: the html of the last one
      that carries any, with the token texts after it. */
  function Content(b: Browser, ms: seq<Message>): Surface {
    match LastHtml(b, ms)
    case None => Text(Tokens(ms))
    case Some(i) => Appended(b, Markup(b.payload(ms[i].data).html), ms[i + 1..])
  }

  /** From a message with html on only that html and what follows count. */
  lemma RenderedIsShown(b: Browser, s: Shown, m: Message, rest: seq<Message>)
    requires !s.failed && CarriesHtml(b, m)
    requires forall k :: 0 <= k < |rest| ==> !Stops(b, rest[k]) && !CarriesHtml(b, rest[k])
    ensures DispatchAll(b, s, [m] + rest) == Shown(Appended(b, Markup(b.payload(m.data).html), rest), true, false)
  {
    assert ([m] + rest)[1..] == rest;
    DispatchAppends(b, Dispatch(b, s, m), rest);
    hide Appended;
  }

  lemma PlainIsShown(b: Browser, ms: seq<Message>)
    requires forall k :: 0 <= k < |ms| ==> !Stops(b, ms[k]) && !CarriesHtml(b, ms[k])
    ensures DispatchAll(b, BLANK, ms) == Shown(Text(Tokens(ms)), Mentions(ms, "done"), false)
  {
    hide Mentions, Stops, CarriesHtml, Tokens;
    DispatchAppends(b, BLANK, ms);
    if !Mentions(ms, "token") {
      NoTokens(ms);
    }
    assert "" + Tokens(ms) == Tokens(ms);
  }

  lemma ContentIsShown(b: Browser, ms: seq<Message>)
    requires forall i :: 0 <= i < |ms| ==> !Stops(b, ms[i])
    ensures DispatchAll(b, BLANK, ms) == Shown(Content(b, ms), Mentions(ms, "done"), false)
  {
    hide DispatchAll, Stops, Tokens, Appended, Dispatch;
    match LastHtml(b, ms) {
      case None =>
        PlainIsShown(b, ms);
      case Some(i) =>
        var before, rest := ms[..i], ms[i + 1..];
        forall k | 0 <= k < |rest| ensures !Stops(b, rest[k]) && !CarriesHtml(b, rest[k]) {
          assert rest[k] == ms[i + 1 + k];
        }
        assert ms == before + ([ms[i]] + rest);
        assert forall k :: 0 <= k < i ==> before[k] == ms[k];
        assert ms[i].event == "done" && Mentions(ms, "done");
        DispatchConcat(b, BLANK, before, [ms[i]] + rest);
        NothingStops(b, BLANK, before);
        RenderedIsShown(b, DispatchAll(b, BLANK, before), ms[i], rest);
    }
  }

  /** A message that ends the reading ends it as failed; what was shown before it stays. */
  lemma DispatchMeans(b: Browser, ms: seq<Message>)
    ensures var h := Handled(b, ms);
      DispatchAll(b, BLANK, ms) == Shown(Content(b, h), Mentions(h, "done"), h != ms)
  {
    hide Content, Dispatch, DispatchAll, Stops, Mentions;
    var h := Handled(b, ms);
    ContentIsShown(b, h);
    assert h == ms[..|h|];
    if |h| == |ms| {
      assert h == ms;
    } else {
      var n := |h|;
      assert ms == h + ms[n..] && ms[n..][0] == ms[n];
      DispatchConcat(b, BLANK, h, ms[n..]);
      StopFails(b, DispatchAll(b, BLANK, h), ms[n..]);
    }
  }

  lemma StopFails(b: Browser, s: Shown, ms: seq<Message>)
    requires !s.failed && ms != [] && Stops(b, ms[0])
    ensures DispatchAll(b, s, ms) == s.(failed := true)
  {
    AfterFailure(b, Dispatch(b, s, ms[0]), ms[1..]);
  }

  /** End to end: whatever the server writes and however the network splits it, the reading fails
      exactly at the first error event or null done event, and what is handled before that decides
      the rest: it has completed exactly if a done event is among it; the surface shows exactly the
      token texts if none of it carries html; otherwise the last html and nothing else, or, if tokens
      (a keep-alive comment is one) come after that, the plain text of both. */
  lemma SurfaceShowsTheTokens(b: Browser, sent: seq<Sent>, chunks: seq<string>)
    requires forall i :: 0 <= i < |sent| ==> Sendable(sent[i])
    requires Concat(chunks) == EncodedStream(sent)
    ensures var shown, ms := ShownFor(b, Concat(chunks)), ArrivedAll(sent);
      var h := Handled(b, ms);
      && (shown.failed <==> exists i :: 0 <= i < |ms| && Stops(b, ms[i]))
      && (shown.completed <==> Mentions(h, "done"))
      && ((forall i :: 0 <= i < |h| ==> !CarriesHtml(b, h[i])) ==> shown.surface == Text(Tokens(h)))
      && (LastHtml(b, h).Some? ==>
           var last := LastHtml(b, h).value;
           var html, rest := b.payload(h[last].data).html, h[last + 1..];
           shown.surface == if Mentions(rest, "token") then Text(b.textOf(html) + Tokens(rest)) else Markup(html))
  {
    var ms := ArrivedAll(sent);
    WholeStreamIsShown(b, sent);
    HandledAllOrStopped(b, ms);
    ContentMeans(b, Handled(b, ms));
    hide ShownFor, Handled, EncodedStream, Concat, Arrived, ArrivedAll, Stops, Tokens, Mentions, Content;
  }

  lemma ContentMeans(b: Browser, ms: seq<Message>)
    ensures (forall i :: 0 <= i < |ms| ==> !CarriesHtml(b, ms[i])) ==> Content(b, ms) == Text(Tokens(ms))
    ensures LastHtml(b, ms).Some? ==>
      var last := LastHtml(b, ms).value;
      var html, rest := b.payload(ms[last].data).html, ms[last + 1..];
      Content(b, ms) == if Mentions(rest, "token") then Text(b.textOf(html) + Tokens(rest)) else Markup(html)
  {
    hide Tokens, Mentions;
  }

  lemma WholeStreamIsShown(b: Browser, sent: seq<Sent>)
    requires forall i :: 0 <= i < |sent| ==> Sendable(sent[i])
    ensures var h := Handled(b, ArrivedAll(sent));
      ShownFor(b, EncodedStream(sent)) == Shown(Content(b, h), Mentions(h, "done"), h != ArrivedAll(sent))
  {
    hide Sendable, Handled, Content, Mentions, Frames, EncodedStream, ArrivedAll, DispatchAll, ParsedAll;
    StreamReadsBack(sent);
    DispatchMeans(b, ArrivedAll(sent));
  }

  lemma HandledAllOrStopped(b: Browser, ms: seq<Message>)
    ensures Handled(b, ms) != ms <==> exists i :: 0 <= i < |ms| && Stops(b, ms[i])
  {
    var h := Handled(b, ms);
    hide Handled, Stops;
    assert h == ms[..|h|];
    if |h| == |ms| {
      assert h == ms;
    }
  }

  /** A keep-alive comment shows nothing, exactly as long as no html has been rendered: it arrives as
      an empty token, and appending that flattens markup to its text. */
  lemma PingIsHarmless(b: Browser, comment: string, s: Shown)
    requires '\n' !in comment
    ensures Dispatch(b, s, Parsed(": " + comment)) == s <==> s.failed || s.surface.Text?
    ensures TextContent(b, Dispatch(b, s, Parsed(": " + comment)).surface) == TextContent(b, s.surface)
  {
    CommentReadsBack(comment);
    assert TextContent(b, s.surface) + "" == TextContent(b, s.surface);
  }
}
