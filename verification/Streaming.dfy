/**
  The response body of a chat turn (_body in backend/src/doda/api/conversations.py): one frame for each
  chunk of the turn, until the client is gone, and an error frame if the turn fails after it has begun.
*/
module Streaming {
  import opened Wrappers
  import opened Json
  import opened Sse
  import C = ChatTurn

  // `message` is the saved message as JSON, or null.
  datatype TurnChunk = Text(text: string) | ToolStatus(text: string) | Done(message: Json)

  function FrameOf(c: TurnChunk): Frame {
    match c
    case Text(text) => Frame("text", Obj([Field("text", Str(text))]))
    case ToolStatus(text) => Frame("tool_status", Obj([Field("text", Str(text))]))
    case Done(message) => Frame("done", Obj([Field("message", message)]))
  }

  function FramesOf(chunks: seq<TurnChunk>): (frames: seq<Frame>)
    ensures |frames| == |chunks|
    ensures forall i :: 0 <= i < |frames| ==> frames[i] == FrameOf(chunks[i])
  {
    seq(|chunks|, i requires 0 <= i < |chunks| => FrameOf(chunks[i]))
  }

  function ErrorFrame(traceId: string): Frame {
    Frame("error", Obj([Field("code", Str("AI_STREAM_ERROR")), Field("message", Str("Suhbat davomida xato yuz berdi.")),
                        Field("trace_id", Str(traceId)), Field("retryable", Bool(true))]))
  }

  // How many of the chunks are sent: the client's presence is checked before each.
  function Sent(gone: nat -> bool, n: nat): nat {
    if n == 0 then 0
    else if Sent(gone, n - 1) < n - 1 then Sent(gone, n - 1)
    else if gone(n - 1) then n - 1 else n
  }

  lemma {:induction false} SentIff(gone: nat -> bool, n: nat, k: nat)
    ensures Sent(gone, n) == k <==> k <= n && (forall i: nat :: i < k ==> !gone(i)) && (k < n ==> gone(k))
  {
    if n > 0 {
      SentIff(gone, n - 1, Sent(gone, n - 1));
      if k <= n - 1 { SentIff(gone, n - 1, k); }
    }
  }

  function BodyFrames(chunks: seq<TurnChunk>, fails: bool, gone: nat -> bool, traceId: string): seq<Frame> {
    var k := Sent(gone, |chunks|);
    SentIff(gone, |chunks|, k);
    FramesOf(chunks[..k]) + if fails && chunks != [] then [ErrorFrame(traceId)] else []
  }

  // The chunks a turn yields, and whether it then ends in an exception, be it when asked for the next
  // chunk or when closed; `closed` says that the client left and the turn was closed.
  method StreamBody(chunks: seq<TurnChunk>, fails: bool, gone: nat -> bool, traceId: string)
    returns (frames: seq<Frame>, closed: bool)
    ensures frames == BodyFrames(chunks, fails, gone, traceId)
    ensures closed == (Sent(gone, |chunks|) < |chunks|)
  {
    frames, closed := [], false;
    if chunks == [] { return; }  // raised before the response began
    var next := 0;
    while next < |chunks|
      invariant next <= |chunks| && frames == FramesOf(chunks[..next])
      invariant forall i: nat :: i < next ==> !gone(i)
    {
      SentIff(gone, |chunks|, next);
      if gone(next) {
        closed := true;
        break;
      }
      assert FramesOf(chunks[..next + 1]) == frames + [FrameOf(chunks[next])];
      frames := frames + [FrameOf(chunks[next])];
      next := next + 1;
    }
    SentIff(gone, |chunks|, next);
    if fails { frames := frames + [ErrorFrame(traceId)]; }
  }

  ghost predicate Shown(c: TurnChunk) { c.Done? ==> WellFormed(c.message) }

  lemma FrameSendable(c: TurnChunk)
    requires Shown(c)
    ensures Sendable(FrameOf(c))
  {
    if c.Done? {
      OneField("message", c.message);
    } else {
      OneField("text", Str(c.text));
    }
  }

  lemma OneField(key: string, value: Json)
    requires WellFormed(value)
    ensures WellFormed(Obj([Field(key, value)]))
  {
  }

  lemma ErrorSendable(traceId: string)
    ensures Sendable(ErrorFrame(traceId))
  {
    var fields := ErrorFrame(traceId).data.fields;
    assert fields[0].key == "code" && fields[1].key == "message" && fields[2].key == "trace_id" && fields[3].key == "retryable";
    assert "code"[0] == 'c' && "message"[0] == 'm' && "trace_id"[0] == 't' && "retryable"[0] == 'r';
  }

  lemma BodySendable(chunks: seq<TurnChunk>, fails: bool, gone: nat -> bool, traceId: string)
    requires forall i :: 0 <= i < |chunks| ==> Shown(chunks[i])
    ensures var body := BodyFrames(chunks, fails, gone, traceId);
      forall i :: 0 <= i < |body| ==> Sendable(body[i])
  {
    var body := BodyFrames(chunks, fails, gone, traceId);
    SentIff(gone, |chunks|, Sent(gone, |chunks|));
    forall i | 0 <= i < |body|
      ensures Sendable(body[i])
    {
      if i < Sent(gone, |chunks|) { FrameSendable(chunks[i]); } else { ErrorSendable(traceId); }
    }
  }

  // ---------- The chunks of a turn of stream_message ----------

  // What a yield puts on the wire: `say` words a notice, `show` is the saved message as JSON.
  function ChunkOf(chunk: C.Chunk, say: C.Content -> string, show: Option<C.Saved> -> Json): TurnChunk {
    match chunk
    case Text(text) => Text(text)
    case ToolStatus(notice) => ToolStatus(say(notice))
    case Done(message) => Done(show(message))
  }

  function ChunksOf(log: seq<C.Entry>, say: C.Content -> string, show: Option<C.Saved> -> Json): seq<TurnChunk> {
    if log == [] then []
    else
      var last, before := log[|log| - 1], ChunksOf(log[..|log| - 1], say, show);
      if last.Yield? then before + [ChunkOf(last.chunk, say, show)] else before
  }

  // The streamed text.
  function TextOf(chunks: seq<TurnChunk>): string {
    if chunks == [] then ""
    else
      var last, before := chunks[|chunks| - 1], TextOf(chunks[..|chunks| - 1]);
      if last.Text? then before + last.text else before
  }

  lemma {:induction false} ChunksAreYields(log: seq<C.Entry>, say: C.Content -> string, show: Option<C.Saved> -> Json)
    ensures var chunks, w := ChunksOf(log, say, show), C.Watch(log);
      |chunks| == w.yielded && TextOf(chunks) == w.spoken
  {
    if log != [] {
      var last, before := log[|log| - 1], ChunksOf(log[..|log| - 1], say, show);
      ChunksAreYields(log[..|log| - 1], say, show);
      if last.Yield? { assert (before + [ChunkOf(last.chunk, say, show)])[..|before|] == before; }
    }
  }

  // The done chunks come last.
  lemma {:induction false} DoneComesLast(log: seq<C.Entry>, say: C.Content -> string, show: Option<C.Saved> -> Json)
    requires !C.PhaseOf(log).Disordered?
    ensures var chunks, w := ChunksOf(log, say, show), C.Watch(log);
      && w.dones <= |chunks|
      && (forall i :: 0 <= i < |chunks| ==> (chunks[i].Done? <==> i >= |chunks| - w.dones))
      && (!C.PhaseOf(log).Over? ==> w.dones == 0)
  {
    if log != [] { DoneComesLast(log[..|log| - 1], say, show); }
  }

  // The client the turn was played for: the turn is closed at the first check that finds it gone.
  ghost predicate ClosedWhenGone(t: C.Turn, gone: nat -> bool) {
    match t.closeAt
    case None => forall i :: !gone(i)
    case Some(k) => gone(k) && forall i: nat :: i < k ==> !gone(i)
  }

  lemma AllSentButTheLast(t: C.Turn, gone: nat -> bool, n: nat)
    requires ClosedWhenGone(t, gone) && (t.closeAt == Some(n - 1) || !C.HasClosed(t, n))
    ensures Sent(gone, n) == if t.closeAt == Some(n - 1) then n - 1 else n
  {
    SentIff(gone, n, if t.closeAt == Some(n - 1) then n - 1 else n);
  }

  predicate Fails(o: C.Outcome) { o.Raised? || o.Unsettled? }

  // What is sent of a turn: everything it yields, but for the chunk at which the client hung up.
  lemma SentOfTurn(t: C.Turn, log: seq<C.Entry>, o: C.Outcome, gone: nat -> bool,
                   say: C.Content -> string, show: Option<C.Saved> -> Json)
    requires C.TurnDone(t, C.Watch(log), o) && C.InOrder(t, log, o) && !o.Refused? && ClosedWhenGone(t, gone)
    ensures var chunks := ChunksOf(log, say, show);
      var k := Sent(gone, |chunks|);
      && k <= |chunks| && (k < |chunks| <==> t.closeAt == Some(|chunks| - 1))
      && (!o.Unsettled? ==> (k < |chunks| <==> o.HungUp?)) && |chunks| <= k + 1
      && (k == |chunks| ==> TextOf(chunks[..k]) == C.Watch(log).spoken)
      && ((exists i :: 0 <= i < k && chunks[i].Done?) <==> o.Answered?)
  {
    var chunks := ChunksOf(log, say, show);
    ChunksAreYields(log, say, show);
    DoneComesLast(log, say, show);
    AllSentButTheLast(t, gone, |chunks|);
    assert chunks[..|chunks|] == chunks;
    if o.Answered? { assert chunks[|chunks| - 1].Done?; }
  }

  lemma KindsDiffer(c: TurnChunk)
    ensures FrameOf(c).event == "done" <==> c.Done?
    ensures ErrorFrame("").event != "done"
  {
    assert FrameOf(c).event[0] == if c.Done? then 'd' else 't';
    assert "error"[0] == 'e' && "done"[0] == 'd';
  }

  // A body with k of the chunks in it, and an error frame or not.
  ghost predicate IsBody(chunks: seq<TurnChunk>, fails: bool, k: nat, body: seq<Frame>) {
    && k <= |chunks| && |body| == k + (if fails && chunks != [] then 1 else 0)
    && (forall i :: 0 <= i < k ==> body[i] == FrameOf(chunks[i]))
    && (forall i :: k <= i < |body| ==> body[i].event == "error")
  }

  lemma BodyIsBody(chunks: seq<TurnChunk>, fails: bool, gone: nat -> bool, traceId: string)
    ensures IsBody(chunks, fails, Sent(gone, |chunks|), BodyFrames(chunks, fails, gone, traceId))
  {
    SentIff(gone, |chunks|, Sent(gone, |chunks|));
  }

  // What the client makes of it.
  ghost predicate IsSeen(chunks: seq<TurnChunk>, fails: bool, k: nat, events: seq<Parsed>) {
    && k <= |chunks| && |events| == k + (if fails && chunks != [] then 1 else 0)
    && (forall i :: 0 <= i < k ==> events[i] == Parsed(FrameOf(chunks[i]).event, Dumps(FrameOf(chunks[i]).data)))
    && (forall i :: k <= i < |events| ==> events[i].kind == "error")
  }

  lemma SeenOfBody(chunks: seq<TurnChunk>, fails: bool, k: nat, body: seq<Frame>)
    requires IsBody(chunks, fails, k, body)
    ensures IsSeen(chunks, fails, k, ParsedOf(body))
  {
    var events := ParsedOf(body);
    forall i | 0 <= i < |body|
      ensures events[i] == Parsed(body[i].event, Dumps(body[i].data))
    {
    }
  }

  predicate HasDone(events: seq<Parsed>) { exists i :: 0 <= i < |events| && events[i].kind == "done" }

  lemma DoneIffSent(chunks: seq<TurnChunk>, fails: bool, k: nat, events: seq<Parsed>)
    requires IsSeen(chunks, fails, k, events)
    ensures HasDone(events) <==> exists i :: 0 <= i < k && chunks[i].Done?
  {
    forall i | 0 <= i < |events|
      ensures events[i].kind == "done" <==> i < k && chunks[i].Done?
    {
      KindsDiffer(if i < k then chunks[i] else Text(""));
    }
    if i :| 0 <= i < k && chunks[i].Done? { assert events[i].kind == "done"; }
  }

  // From the turn to the client: however the body is cut, the client yields one event for each chunk
  // sent, in order, a done event exactly when the turn was answered, and an error event exactly when the
  // turn failed after it had begun; and it is left with an empty buffer.
  lemma ClientSeesTheTurn(t: C.Turn, log: seq<C.Entry>, o: C.Outcome, gone: nat -> bool,
                          say: C.Content -> string, show: Option<C.Saved> -> Json, traceId: string, cut: seq<string>)
    requires C.TurnDone(t, C.Watch(log), o) && C.InOrder(t, log, o) && !o.Refused? && ClosedWhenGone(t, gone)
    requires forall m :: WellFormed(show(m))
    requires Concat(cut) == Encode(BodyFrames(ChunksOf(log, say, show), Fails(o), gone, traceId))
    ensures var chunks, drained := ChunksOf(log, say, show), Drain(Concat(cut));
      && drained.buffer == []
      && IsSeen(chunks, Fails(o), Sent(gone, |chunks|), ReadFrames(drained.frames))
      && (HasDone(ReadFrames(drained.frames)) <==> o.Answered?)
  {
    var chunks := ChunksOf(log, say, show);
    var body, k := BodyFrames(chunks, Fails(o), gone, traceId), Sent(gone, |chunks|);
    SentOfTurn(t, log, o, gone, say, show);
    DoneIsShown(log, say, show);
    BodySeen(chunks, Fails(o), gone, traceId, cut);
    DoneIffSent(chunks, Fails(o), k, ParsedOf(body));
  }

  lemma BodySeen(chunks: seq<TurnChunk>, fails: bool, gone: nat -> bool, traceId: string, cut: seq<string>)
    requires forall i :: 0 <= i < |chunks| ==> Shown(chunks[i])
    requires Concat(cut) == Encode(BodyFrames(chunks, fails, gone, traceId))
    ensures var body, drained := BodyFrames(chunks, fails, gone, traceId), Drain(Concat(cut));
      && drained.buffer == [] && ReadFrames(drained.frames) == ParsedOf(body)
      && IsSeen(chunks, fails, Sent(gone, |chunks|), ParsedOf(body))
  {
    var body := BodyFrames(chunks, fails, gone, traceId);
    BodySendable(chunks, fails, gone, traceId);
    RoundTrip(body, cut);
    BodyIsBody(chunks, fails, gone, traceId);
    SeenOfBody(chunks, fails, Sent(gone, |chunks|), body);
  }

  lemma {:induction false} DoneIsShown(log: seq<C.Entry>, say: C.Content -> string, show: Option<C.Saved> -> Json)
    requires forall m :: WellFormed(show(m))
    ensures forall i :: 0 <= i < |ChunksOf(log, say, show)| ==> Shown(ChunksOf(log, say, show)[i])
  {
    if log != [] {
      var last := log[|log| - 1];
      DoneIsShown(log[..|log| - 1], say, show);
      if last.Yield? && last.chunk.Done? { assert WellFormed(show(last.chunk.message)); }
      assert last.Yield? ==> Shown(ChunkOf(last.chunk, say, show));
    }
  }
}
