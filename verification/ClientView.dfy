/**
  What the client makes of a turn's events (streamConversationMessage in frontend/src/lib/api.ts): it
  parses the data of each and takes the fields by name.
*/
module ClientView {
  import opened Wrappers
  import opened Json
  import opened JsonReading
  import opened JsonCanonical
  import opened Sse
  import opened Streaming
  import C = ChatTurn

  // A field of an event's data, read as JSON.
  function FieldOf(p: Parsed, key: string): Option<Value> {
    match Loads(p.data)
    case None => None
    case Some(j) =>
      match Denote(j)
      case VObj(fields) => if key in fields then Some(fields[key]) else None
      case _ => None
  }

  // The chunks a turn yields, in order.
  function YieldsIn(log: seq<C.Entry>): seq<C.Chunk> {
    if log == [] then []
    else YieldsIn(log[..|log| - 1]) + if log[|log| - 1].Yield? then [log[|log| - 1].chunk] else []
  }

  // The event says what was yielded, with notices worded by `say` and messages shown by `show`.
  predicate Says(p: Parsed, chunk: C.Chunk, say: C.Content -> string, show: Option<C.Saved> -> Json) {
    match chunk
    case Text(text) => p.kind == "text" && FieldOf(p, "text") == Some(VStr(text))
    case ToolStatus(notice) => p.kind == "tool_status" && FieldOf(p, "text") == Some(VStr(say(notice)))
    case Done(message) => p.kind == "done" && FieldOf(p, "message") == Some(Denote(show(message)))
  }

  lemma {:induction false} ChunksSayYields(log: seq<C.Entry>, say: C.Content -> string, show: Option<C.Saved> -> Json, i: nat)
    ensures |ChunksOf(log, say, show)| == |YieldsIn(log)|
    ensures i < |YieldsIn(log)| ==> forall p :: Means(p, ChunksOf(log, say, show)[i]) ==> Says(p, YieldsIn(log)[i], say, show)
  {
    if log != [] { ChunksSayYields(log[..|log| - 1], say, show, i); }
  }

  // The event says what the chunk says.
  predicate Means(p: Parsed, c: TurnChunk) {
    match c
    case Text(text) => p.kind == "text" && FieldOf(p, "text") == Some(VStr(text))
    case ToolStatus(text) => p.kind == "tool_status" && FieldOf(p, "text") == Some(VStr(text))
    case Done(message) => p.kind == "done" && FieldOf(p, "message") == Some(Denote(message))
  }

  predicate IsErrorEvent(p: Parsed, traceId: string) {
    && p.kind == "error" && FieldOf(p, "code") == Some(VStr("AI_STREAM_ERROR"))
    && FieldOf(p, "trace_id") == Some(VStr(traceId)) && FieldOf(p, "retryable") == Some(VBool(true))
  }

  function SpokenIn(p: Parsed): string {
    var text := FieldOf(p, "text");
    if p.kind == "text" && text.Some? && text.value.VStr? then text.value.s else ""
  }

  // The reply as the client puts it together.
  function ReplyOf(events: seq<Parsed>): string {
    if events == [] then "" else ReplyOf(events[..|events| - 1]) + SpokenIn(events[|events| - 1])
  }

  lemma FieldReads(kind: string, fields: seq<Field>, i: nat)
    requires WellFormed(Obj(fields)) && i < |fields|
    ensures FieldOf(Parsed(kind, Dumps(Obj(fields))), fields[i].key) == Some(Denote(fields[i].value))
  {
    LoadsWhatIsPrinted(Obj(fields), SPACED);
    FieldLookup(fields, i);
  }

  lemma FrameMeans(c: TurnChunk)
    requires Shown(c)
    ensures Means(Parsed(FrameOf(c).event, Dumps(FrameOf(c).data)), c)
  {
    FrameSendable(c);
    FieldReads(FrameOf(c).event, FrameOf(c).data.fields, 0);
  }

  lemma ErrorMeans(traceId: string)
    ensures IsErrorEvent(Parsed(ErrorFrame(traceId).event, Dumps(ErrorFrame(traceId).data)), traceId)
  {
    ErrorSendable(traceId);
    var fields := ErrorFrame(traceId).data.fields;
    FieldReads("error", fields, 0);
    FieldReads("error", fields, 2);
    FieldReads("error", fields, 3);
  }

  // The first k events say what was yielded, and one more reports an error if there is one.
  ghost predicate TellsTurn(yielded: seq<C.Chunk>, k: nat, fails: bool, traceId: string, events: seq<Parsed>,
                            say: C.Content -> string, show: Option<C.Saved> -> Json) {
    && k <= |yielded| && |events| == k + (if fails && yielded != [] then 1 else 0)
    && (forall i :: 0 <= i < k ==> Says(events[i], yielded[i], say, show))
    && (forall i :: k <= i < |events| ==> IsErrorEvent(events[i], traceId))
  }

  lemma TellsYields(log: seq<C.Entry>, say: C.Content -> string, show: Option<C.Saved> -> Json,
                    k: nat, fails: bool, traceId: string, events: seq<Parsed>)
    requires Tells(ChunksOf(log, say, show), k, fails, traceId, events)
    ensures TellsTurn(YieldsIn(log), k, fails, traceId, events, say, show)
  {
    ChunksSayYields(log, say, show, 0);
    forall i | 0 <= i < k ensures Says(events[i], YieldsIn(log)[i], say, show) { ChunksSayYields(log, say, show, i); }
  }

  // The first k events say what the first k chunks say, and one more reports an error if there is one.
  ghost predicate Tells(chunks: seq<TurnChunk>, k: nat, fails: bool, traceId: string, events: seq<Parsed>) {
    && k <= |chunks| && |events| == k + (if fails && chunks != [] then 1 else 0)
    && (forall i :: 0 <= i < k ==> Means(events[i], chunks[i]))
    && (forall i :: k <= i < |events| ==> IsErrorEvent(events[i], traceId))
  }

  lemma BodyEnd(chunks: seq<TurnChunk>, fails: bool, gone: nat -> bool, traceId: string)
    ensures var k, body := Sent(gone, |chunks|), BodyFrames(chunks, fails, gone, traceId);
      && k <= |chunks| && |body| == k + (if fails && chunks != [] then 1 else 0)
      && (forall i :: 0 <= i < k ==> body[i] == FrameOf(chunks[i]))
      && (forall i :: k <= i < |body| ==> body[i] == ErrorFrame(traceId))
  {
    SentIff(gone, |chunks|, Sent(gone, |chunks|));
  }

  lemma BodyTells(chunks: seq<TurnChunk>, fails: bool, gone: nat -> bool, traceId: string)
    requires forall i :: 0 <= i < |chunks| ==> Shown(chunks[i])
    ensures Tells(chunks, Sent(gone, |chunks|), fails, traceId, ParsedOf(BodyFrames(chunks, fails, gone, traceId)))
  {
    var k, body := Sent(gone, |chunks|), BodyFrames(chunks, fails, gone, traceId);
    BodyEnd(chunks, fails, gone, traceId);
    forall i | 0 <= i < k
      ensures Means(ParsedOf(body)[i], chunks[i])
    {
      FrameMeans(chunks[i]);
    }
    ErrorMeans(traceId);
  }

  lemma SpokenOfChunk(p: Parsed, c: TurnChunk)
    requires Means(p, c)
    ensures SpokenIn(p) == if c.Text? then c.text else ""
  {
    assert "text"[0] == 't' && "tool_status"[1] == 'o' && "done"[0] == 'd' && "text"[1] == 'e';
  }

  lemma {:induction false} ReplyIsText(chunks: seq<TurnChunk>, events: seq<Parsed>)
    requires |events| == |chunks| && forall i :: 0 <= i < |chunks| ==> Means(events[i], chunks[i])
    ensures ReplyOf(events) == TextOf(chunks)
  {
    if events != [] {
      var n := |events| - 1;
      ReplyIsText(chunks[..n], events[..n]);
      SpokenOfChunk(events[n], chunks[n]);
    }
  }

  lemma ReplyOfPart(chunks: seq<TurnChunk>, k: nat, fails: bool, traceId: string, events: seq<Parsed>)
    requires Tells(chunks, k, fails, traceId, events)
    ensures ReplyOf(events) == TextOf(chunks[..k])
  {
    ReplyIsText(chunks[..k], events[..k]);
    if |events| > k {
      assert IsErrorEvent(events[k], traceId) && "error"[0] == 'e' && "text"[0] == 't';
      assert events[..|events| - 1] == events[..k];
    } else {
      assert events[..k] == events;
    }
  }

  lemma LastChunk(chunks: seq<TurnChunk>, k: nat)
    requires k <= |chunks| <= k + 1
    ensures TextOf(chunks[..k]) <= TextOf(chunks)
    ensures k == |chunks| || !chunks[k].Text? ==> TextOf(chunks[..k]) == TextOf(chunks)
  {
    if k == |chunks| { assert chunks[..k] == chunks; } else { assert chunks[..k] == chunks[..|chunks| - 1]; }
  }

  // However the body is cut, the client's events say what the turn yielded, one for one, up to the
  // chunk at which it hung up, and report an error exactly when the turn failed after it had begun; and the
  // reply it puts together is the text the turn streamed, or what of it came before it hung up.
  lemma ClientReadsTheTurn(t: C.Turn, log: seq<C.Entry>, o: C.Outcome, gone: nat -> bool,
                           say: C.Content -> string, show: Option<C.Saved> -> Json, traceId: string, cut: seq<string>)
    requires C.TurnDone(t, C.Watch(log), o) && C.InOrder(t, log, o) && !o.Refused? && ClosedWhenGone(t, gone)
    requires forall m :: WellFormed(show(m))
    requires Concat(cut) == Encode(BodyFrames(ChunksOf(log, say, show), Fails(o), gone, traceId))
    ensures var yielded, events := YieldsIn(log), ReadFrames(Drain(Concat(cut)).frames);
      && TellsTurn(yielded, Sent(gone, |yielded|), Fails(o), traceId, events, say, show)
      && ReplyOf(events) <= C.Watch(log).spoken
      && (t.closeAt.None? || o.Answered? || o == C.HungUp(true) ==> ReplyOf(events) == C.Watch(log).spoken)
  {
    var chunks := ChunksOf(log, say, show);
    var k := Sent(gone, |chunks|);
    var events := ReadFrames(Drain(Concat(cut)).frames);
    DoneIsShown(log, say, show);
    SentOfTurn(t, log, o, gone, say, show);
    ChunksAreYields(log, say, show);
    BodySeen(chunks, Fails(o), gone, traceId, cut);
    BodyTells(chunks, Fails(o), gone, traceId);
    ReplyOfPart(chunks, k, Fails(o), traceId, events);
    LastChunk(chunks, k);
    ChunksSayYields(log, say, show, 0);
    TellsYields(log, say, show, k, Fails(o), traceId, events);
    if o == C.HungUp(true) { DoneComesLast(log, say, show); }
  }
}
