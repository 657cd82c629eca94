/**
  The server-sent-event stream of a chat turn: the frames the backend prints
  (backend/src/doda/api/conversations.py) and the incremental parser that reads them
  (frontend/src/lib/api.ts).  Chunks are text: every frame is plain ASCII, so cutting the bytes
  anywhere cuts the text between two characters.
*/
module Sse {
  import opened Wrappers
  import opened Json
  import opened JsonPrinting
  import opened JsonReading
  import opened JsonCanonical

  // ---------- Printing ----------

  datatype Frame = Frame(event: string, data: Json)

  function SseFrame(f: Frame): string {
    "event: " + f.event + "\n" + "data: " + Dumps(f.data) + "\n\n"
  }

  function Encode(frames: seq<Frame>): string {
    if frames == [] then [] else SseFrame(frames[0]) + Encode(frames[1..])
  }

  // ---------- Parsing ----------

  // What the client sees of a frame: the kind and the text handed to JSON.parse.
  datatype Parsed = Parsed(kind: string, data: string)

  // The index of the first blank-line separator, or |s| if there is none.
  function IndexOfBlankLine(s: string): (n: nat)
    ensures n <= |s|
    ensures n < |s| ==> n + 2 <= |s| && s[n] == '\n' && s[n + 1] == '\n'
  {
    if s == [] then 0
    else if |s| >= 2 && s[0] == '\n' && s[1] == '\n' then 0
    else
      var n := IndexOfBlankLine(s[1..]);
      n + 1
  }

  function Split(frame: string): seq<string> {
    if frame == [] then [[]]
    else
      var rest := Split(frame[1..]);
      if frame[0] == '\n' then [[]] + rest
      else if rest == [] then [[frame[0]]]
      else [[frame[0]] + rest[0]] + rest[1..]
  }

  predicate StartsWith(line: string, prefix: string) { prefix <= line }

  function FindLine(lines: seq<string>, prefix: string): Option<string> {
    if lines == [] then None
    else if StartsWith(lines[0], prefix) then Some(lines[0])
    else FindLine(lines[1..], prefix)
  }

  lemma FindLinePrefix(lines: seq<string>, prefix: string)
    ensures FindLine(lines, prefix).Some? ==> StartsWith(FindLine(lines, prefix).value, prefix)
  {
  }

  const EVENT := "event: "
  const DATA := "data: "

  // A frame without an event line or without a data line is dropped.
  function ReadFrame(frame: string): seq<Parsed> {
    var eventLine := FindLine(Split(frame), EVENT);
    var dataLine := FindLine(Split(frame), DATA);
    FindLinePrefix(Split(frame), EVENT);
    FindLinePrefix(Split(frame), DATA);
    if eventLine.Some? && dataLine.Some?
    then [Parsed(eventLine.value[|EVENT|..], dataLine.value[|DATA|..])]
    else []
  }

  function ReadFrames(frames: seq<string>): seq<Parsed> {
    if frames == [] then [] else ReadFrames(frames[..|frames| - 1]) + ReadFrame(frames[|frames| - 1])
  }

  // The complete frames of a text, and what is left of it.
  datatype Drained = Drained(frames: seq<string>, buffer: string)

  function After(frames: seq<string>, d: Drained): Drained { Drained(frames + d.frames, d.buffer) }

  lemma AfterAfter(a: seq<string>, b: seq<string>, d: Drained)
    ensures After(a, After(b, d)) == After(a + b, d)
  {
    Assoc(a, b, d.frames);
  }

  function Drain(s: string): Drained
    decreases |s|
  {
    var n := IndexOfBlankLine(s);
    if n < |s| then After([s[..n]], Drain(s[n + 2..])) else Drained([], s)
  }

  function Concat(chunks: seq<string>): string {
    if chunks == [] then [] else Concat(chunks[..|chunks| - 1]) + chunks[|chunks| - 1]
  }

  // The two nested loops of streamConversationMessage; `events` are its yields.
  method StreamConversationMessage(chunks: seq<string>) returns (events: seq<Parsed>, buffer: string)
    ensures events == ReadFrames(Drain(Concat(chunks)).frames)
    ensures buffer == Drain(Concat(chunks)).buffer
  {
    events, buffer := [], "";
    ghost var frames: seq<string> := [];
    for i := 0 to |chunks|
      invariant Drained(frames, buffer) == Drain(Concat(chunks[..i]))
      invariant events == ReadFrames(frames)
    {
      ConcatStep(chunks, i);
      DrainAppend(Concat(chunks[..i]), chunks[i]);
      buffer := buffer + chunks[i];
      var frameEnd := IndexOfBlankLine(buffer);
      while frameEnd < |buffer|
        invariant frameEnd == IndexOfBlankLine(buffer)
        invariant After(frames, Drain(buffer)) == Drain(Concat(chunks[..i + 1]))
        invariant events == ReadFrames(frames)
        decreases |buffer|
      {
        var frame := buffer[..frameEnd];
        AfterAfter(frames, [frame], Drain(buffer[frameEnd + 2..]));
        assert (frames + [frame])[..|frames|] == frames;
        buffer := buffer[frameEnd + 2..];
        events := events + ReadFrame(frame);
        frames := frames + [frame];
        frameEnd := IndexOfBlankLine(buffer);
      }
    }
    assert chunks[..|chunks|] == chunks;
  }

  lemma ConcatStep(chunks: seq<string>, i: nat)
    requires i < |chunks|
    ensures Concat(chunks[..i + 1]) == Concat(chunks[..i]) + chunks[i]
  {
    assert chunks[..i + 1][..i] == chunks[..i];
  }

  // ---------- The cuts between chunks do not matter ----------

  lemma {:induction false} FirstBlankLineStays(s: string, t: string)
    requires IndexOfBlankLine(s) < |s|
    ensures IndexOfBlankLine(s + t) == IndexOfBlankLine(s)
  {
    if !(s[0] == '\n' && s[1] == '\n') {
      assert (s + t)[1..] == s[1..] + t;
      FirstBlankLineStays(s[1..], t);
    }
  }

  // Draining what has arrived and going on later is draining everything at once.
  lemma {:induction false} DrainAppend(s: string, t: string)
    ensures Drain(s + t) == After(Drain(s).frames, Drain(Drain(s).buffer + t))
    decreases |s|
  {
    var n := IndexOfBlankLine(s);
    if n < |s| {
      var rest := s[n + 2..];
      FirstBlankLineStays(s, t);
      assert (s + t)[..n] == s[..n] && (s + t)[n + 2..] == rest + t;
      DrainAppend(rest, t);
      AfterAfter([s[..n]], Drain(rest).frames, Drain(Drain(rest).buffer + t));
    }
  }

  // ---------- Round trip ----------

  predicate OneLine(s: string) { '\n' !in s }

  lemma {:induction false} SplitOneLine(s: string)
    requires OneLine(s)
    ensures Split(s) == [s]
  {
    if s != [] {
      SplitOneLine(s[1..]);
      assert [s[0]] + s[1..] == s;
    }
  }

  lemma {:induction false} SplitTwoLines(s: string, t: string)
    requires OneLine(s) && OneLine(t)
    ensures Split(s + "\n" + t) == [s, t]
  {
    var u := s + "\n" + t;
    if s == [] {
      SplitOneLine(t);
      assert u[1..] == t;
    } else {
      SplitTwoLines(s[1..], t);
      assert u[1..] == s[1..] + "\n" + t;
      assert [s[0]] + s[1..] == s;
    }
  }

  lemma {:induction false} BlankLineAfter(s: string, t: string)
    requires OneLine(s) && OneLine(t) && t != []
    ensures IndexOfBlankLine(s + "\n" + t + "\n\n") == |s| + 1 + |t|
    decreases |s| + |t|
  {
    var u := s + "\n" + t + "\n\n";
    if s != [] {
      assert u[1..] == s[1..] + "\n" + t + "\n\n";
      BlankLineAfter(s[1..], t);
    } else {
      assert u[1..] == t + "\n\n";
      assert u[1] == t[0];
      BlankLineAfterLine(t);
    }
  }

  lemma {:induction false} BlankLineAfterLine(t: string)
    requires OneLine(t)
    ensures IndexOfBlankLine(t + "\n\n") == |t|
  {
    if t != [] {
      assert (t + "\n\n")[1..] == t[1..] + "\n\n";
      BlankLineAfterLine(t[1..]);
    }
  }

  // The lines of a frame.
  function EventLine(f: Frame): string { EVENT + f.event }

  function DataLine(f: Frame): string { DATA + Dumps(f.data) }

  ghost predicate Sendable(f: Frame) { OneLine(f.event) && WellFormed(f.data) }

  lemma FrameLines(f: Frame)
    requires Sendable(f)
    ensures OneLine(EventLine(f)) && OneLine(DataLine(f))
    ensures SseFrame(f) == EventLine(f) + "\n" + DataLine(f) + "\n\n"
  {
    PrintPrintable(f.data, SPACED);
  }

  lemma ReadFrameBack(event: string, data: string)
    requires OneLine(event) && OneLine(data)
    ensures ReadFrame(EVENT + event + "\n" + (DATA + data)) == [Parsed(event, data)]
  {
    var e, d := EVENT + event, DATA + data;
    SplitTwoLines(e, d);
    assert EVENT <= e && DATA <= d;
    assert e[0] == 'e' && DATA[0] == 'd';
    assert FindLine([e, d], EVENT) == Some(e);
    assert [e, d][1..] == [d];
    assert FindLine([e, d], DATA) == FindLine([d], DATA) == Some(d);
    assert e[|EVENT|..] == event && d[|DATA|..] == data;
  }

  function ParsedOf(frames: seq<Frame>): (p: seq<Parsed>)
    ensures |p| == |frames|
    ensures forall i :: 0 <= i < |p| ==> p[i] == Parsed(frames[i].event, Dumps(frames[i].data))
  {
    seq(|frames|, i requires 0 <= i < |frames| => Parsed(frames[i].event, Dumps(frames[i].data)))
  }

  function Body(f: Frame): string { EventLine(f) + "\n" + DataLine(f) }

  function Bodies(frames: seq<Frame>): (b: seq<string>)
    ensures |b| == |frames|
    ensures forall i :: 0 <= i < |b| ==> b[i] == Body(frames[i])
  {
    seq(|frames|, i requires 0 <= i < |frames| => Body(frames[i]))
  }

  lemma DrainFirstFrame(body: string, rest: string)
    requires IndexOfBlankLine(body + "\n\n") == |body|
    ensures Drain(body + "\n\n" + rest) == After([body], Drain(rest))
  {
    var s := body + "\n\n" + rest;
    FirstBlankLineStays(body + "\n\n", rest);
    assert s[..|body|] == body && s[|body| + 2..] == rest;
  }

  lemma {:induction false} DrainEncoded(frames: seq<Frame>)
    requires forall i :: 0 <= i < |frames| ==> Sendable(frames[i])
    ensures Drain(Encode(frames)) == Drained(Bodies(frames), [])
  {
    if frames != [] {
      var f := frames[0];
      FrameLines(f);
      BlankLineAfter(EventLine(f), DataLine(f));
      DrainFirstFrame(Body(f), Encode(frames[1..]));
      DrainEncoded(frames[1..]);
      assert [Body(f)] + Bodies(frames[1..]) == Bodies(frames);
    }
  }

  lemma {:induction false} ReadBodies(frames: seq<Frame>)
    requires forall i :: 0 <= i < |frames| ==> Sendable(frames[i])
    ensures ReadFrames(Bodies(frames)) == ParsedOf(frames)
  {
    if frames != [] {
      var n := |frames| - 1;
      var f := frames[n];
      ReadBodies(frames[..n]);
      assert Bodies(frames)[..n] == Bodies(frames[..n]);
      PrintPrintable(f.data, SPACED);
      ReadFrameBack(f.event, Dumps(f.data));
      assert ParsedOf(frames) == ParsedOf(frames[..n]) + [Parsed(f.event, Dumps(f.data))];
    }
  }

  // Whatever the frames and however their text is cut into chunks, even inside a separator, the client
  // yields exactly the frames sent, in order, and is left with an empty buffer.
  lemma RoundTrip(frames: seq<Frame>, chunks: seq<string>)
    requires forall i :: 0 <= i < |frames| ==> Sendable(frames[i])
    requires Concat(chunks) == Encode(frames)
    ensures ReadFrames(Drain(Concat(chunks)).frames) == ParsedOf(frames)
    ensures Drain(Concat(chunks)).buffer == []
  {
    DrainEncoded(frames);
    ReadBodies(frames);
  }

  // The kinds and texts received determine the frames sent.
  lemma ParsedDeterminesFrames(a: seq<Frame>, b: seq<Frame>)
    requires forall i :: 0 <= i < |a| ==> Sendable(a[i])
    requires forall i :: 0 <= i < |b| ==> Sendable(b[i])
    ensures ParsedOf(a) == ParsedOf(b) <==> a == b
  {
    if ParsedOf(a) == ParsedOf(b) {
      assert |a| == |ParsedOf(a)| == |b|;
      forall i | 0 <= i < |a|
        ensures a[i] == b[i]
      {
        assert ParsedOf(a)[i] == ParsedOf(b)[i];
        var x, y := Dumps(a[i].data), Dumps(b[i].data);
        assert x + [] == x && y + [] == y;
        PrintInjective(a[i].data, b[i].data, [], [], SPACED);
      }
    }
  }
}
