/**
  One chat turn (stream_message in backend/src/doda/application/conversation_service.py): reserve, up to
  N tool rounds, at most one fallback to another provider, settle on every exit.

  Everything a turn does to the outside is an entry of its log, in order; `Watch` reads a log and keeps
  count.  What the provider answers, whether a proposal is accepted and when the client hangs up are
  inputs.
*/
module ChatTurn {
  import opened Wrappers
  import opened Pricing
  import opened Budget

  datatype Usage = Usage(input: nat, output: nat)

  function Plus(a: Usage, b: Usage): Usage { Usage(a.input + b.input, a.output + b.output) }

  datatype ToolCall = ToolCall(callId: string, name: string)

  // ---------- What a provider may answer ----------

  // A JSON text has at least one character.
  type JsonText = s: string | s != "" witness "0"

  datatype GatewayEvent =
    | TextDelta(text: string)
    | ToolCallReady(call: ToolCall)
    | StructuredOutput(json: JsonText)
    | Completed(usage: Usage)
    | ErrorEvent  // not looked at by the loop

  // ModelTimeoutError, ModelRateLimitedError and ModelProviderError are transient.
  datatype CallEnd = Ended | TransientError | OtherError

  datatype GatewayCall = GatewayCall(events: seq<GatewayEvent>, end: CallEnd)

  // What a sequence of events adds up to.
  function UsedBy(events: seq<GatewayEvent>): Usage {
    if events == [] then Usage(0, 0)
    else
      var last, before := events[|events| - 1], UsedBy(events[..|events| - 1]);
      if last.Completed? then Plus(before, last.usage) else before
  }

  function SpokenBy(events: seq<GatewayEvent>): string {
    if events == [] then ""
    else
      var last, before := events[|events| - 1], SpokenBy(events[..|events| - 1]);
      if last.TextDelta? then before + last.text else before
  }

  function YieldsOf(events: seq<GatewayEvent>): nat {
    if events == [] then 0
    else YieldsOf(events[..|events| - 1]) + if events[|events| - 1].TextDelta? then 1 else 0
  }

  // The text of the message: structured output replaces what was streamed before it.
  function TextLeft(events: seq<GatewayEvent>): string {
    if events == [] then ""
    else
      var last, before := events[|events| - 1], TextLeft(events[..|events| - 1]);
      if last.TextDelta? then before + last.text else if last.StructuredOutput? then last.json else before
  }

  function ToolsIn(events: seq<GatewayEvent>): seq<ToolCall> {
    if events == [] then []
    else
      var last, before := events[|events| - 1], ToolsIn(events[..|events| - 1]);
      if last.ToolCallReady? then before + [last.call] else before
  }

  // An empty message means that nothing was streamed: this is what makes the fallback safe.
  lemma {:induction false} EmptyTextMeansSilence(events: seq<GatewayEvent>)
    requires TextLeft(events) == ""
    ensures SpokenBy(events) == ""
  {
    if events != [] { EmptyTextMeansSilence(events[..|events| - 1]); }
  }

  // ---------- What a turn does ----------

  datatype MessageKind = ToolCallMessage | ToolResult | FinalMessage

  // The notices are fixed sentences: that an action was proposed, or that the rounds were used up.
  datatype Content = Words(text: string) | ProposalNotice(tool: string, status: string) | RoundsUsedUp

  datatype Saved = Saved(kind: MessageKind, provider: Option<Provider>, content: Content, callId: string)

  datatype Chunk = Text(text: string) | ToolStatus(notice: Content) | Done(message: Option<Saved>)

  datatype Settlement = Settlement(status: UsageStatus, provider: Provider, model: string, usage: Usage, estimate: nat)

  datatype Entry =
    | Reserve(estimate: nat)
    | Call(provider: Provider)
    | Billed(usage: Usage)
    | Yield(chunk: Chunk, provider: Provider)
    | Persist(message: Saved)
    | Propose(call: ToolCall)
    | Settle(settlement: Settlement)

  // ---------- Watching a log ----------

  datatype Watched = Watched(
    reserved: seq<nat>, settled: seq<Settlement>, usage: Usage,
    calls: nat, current: Option<Provider>, switches: nat,
    spoken: string, saved: seq<Saved>,
    speakers: set<Provider>,  // providers of non-empty text and of saved assistant messages
    finals: nat, proposals: nat, callAfterProposal: bool,
    yielded: nat, dones: nat, properDone: bool)  // the done chunk has the last message, after settling

  const NOTHING := Watched([], [], Usage(0, 0), 0, None, 0, "", [], {}, 0, 0, false, 0, 0, true)

  function Observe(w: Watched, e: Entry): Watched {
    match e
    case Reserve(estimate) => w.(reserved := w.reserved + [estimate])
    case Call(p) =>
      w.(calls := w.calls + 1, current := Some(p),
         switches := w.switches + (if w.current.Some? && w.current != Some(p) then 1 else 0),
         callAfterProposal := w.callAfterProposal || w.proposals > 0)
    case Billed(u) => w.(usage := Plus(w.usage, u))
    case Yield(chunk, p) =>
      var next := w.(yielded := w.yielded + 1);
      if chunk.Text? then next.(spoken := w.spoken + chunk.text, speakers := if chunk.text == "" then w.speakers else w.speakers + {p})
      else if chunk.ToolStatus? then next.(speakers := w.speakers + {p})
      else
        next.(dones := w.dones + 1,
              properDone := w.saved != [] && chunk.message == Some(w.saved[|w.saved| - 1]) && w.settled != [])
    case Persist(m) =>
      w.(saved := w.saved + [m], finals := w.finals + (if m.kind.FinalMessage? then 1 else 0),
         speakers := if m.provider.Some? then w.speakers + {m.provider.value} else w.speakers)
    case Propose(c) => w.(proposals := w.proposals + 1)
    case Settle(s) => w.(settled := w.settled + [s])
  }

  function Watch(log: seq<Entry>): Watched {
    if log == [] then NOTHING else Observe(Watch(log[..|log| - 1]), log[|log| - 1])
  }

  // The order of a turn: reserve first, settle last, and after that only the done chunk.
  datatype Phase = Idle | Running(estimate: nat) | Over(estimate: nat, settlement: Settlement) | Disordered

  function Advance(phase: Phase, e: Entry): Phase {
    match phase
    case Idle => if e.Reserve? then Running(e.estimate) else Disordered
    case Running(estimate) =>
      if e.Settle? then Over(estimate, e.settlement)
      else if e.Reserve? || (e.Yield? && e.chunk.Done?) then Disordered
      else phase
    case Over(_, _) => if e.Yield? && e.chunk.Done? then phase else Disordered
    case Disordered => Disordered
  }

  function PhaseOf(log: seq<Entry>): Phase {
    if log == [] then Idle else Advance(PhaseOf(log[..|log| - 1]), log[|log| - 1])
  }

  method Append(log: seq<Entry>, e: Entry) returns (more: seq<Entry>)
    ensures more == log + [e] && Watch(more) == Observe(Watch(log), e) && PhaseOf(more) == Advance(PhaseOf(log), e)
  {
    more := log + [e];
    assert more[..|log|] == log;
  }

  // ---------- The turn ----------

  datatype Turn = Turn(
    rounds: nat,                                // ai_max_tool_rounds
    provider: Provider, model: string,
    historyChars: nat, maxOutputTokens: nat,
    deepCeiling: Option<nat>,                   // in DEEP mode
    granted: bool,                              // what reserve_budget answers
    gateway: nat -> GatewayCall,                // the k-th gateway call of the turn
    fallback: Option<(Provider, string)>,       // if allowed, the provider to fall back to and its model
    proposal: ToolCall -> Option<string>,       // propose_write_tool_action: the action's status, or an exception
    readTool: ToolCall -> string,               // dispatch_read_tool's text or error text
    closeAt: Option<nat>)                       // the yield at which the client hangs up
  {
    function RoundCents(): Option<nat> {
      EstimateCostCents(provider, model, EstimateInputTokensFromChars(historyChars), maxOutputTokens)
    }

    // What the turn reserves, unless it is refused for an unpriced model or a DEEP request's ceiling.
    function Estimate(): Option<nat> {
      if RoundCents().None? then None
      else
        var total := RoundCents().value * rounds;
        if deepCeiling.Some? && total > deepCeiling.value then None else Some(total)
    }
  }

  predicate IsReadTool(name: string) { name == "list_my_open_tasks" }

  predicate IsWriteTool(name: string) { name == "telegram_send_message" }

  function FirstWrite(calls: seq<ToolCall>): Option<ToolCall> {
    if calls == [] then None
    else if IsWriteTool(calls[0].name) then Some(calls[0])
    else FirstWrite(calls[1..])
  }

  datatype Outcome =
    | Refused                      // raised before anything was reserved
    | Answered                     // the done chunk was delivered
    | Raised
    | HungUp(afterSettling: bool)  // at the done chunk, or before
    | Unsettled                    // settling itself raised: the fallback's model has no price

  // How the rounds with one provider ended; `untouched`: in round 0, with no text and no tool call.
  datatype RoundsEnd = Finished(answer: Saved) | Failed(transient: bool, untouched: bool) | Closed

  // ---------- The reference: what the calls of a turn add up to ----------

  function UsedUpTo(t: Turn, n: nat): Usage {
    if n == 0 then Usage(0, 0) else Plus(UsedUpTo(t, n - 1), UsedBy(t.gateway(n - 1).events))
  }

  function SpokenUpTo(t: Turn, n: nat): string {
    if n == 0 then "" else SpokenUpTo(t, n - 1) + SpokenBy(t.gateway(n - 1).events)
  }

  function YieldsUpTo(t: Turn, n: nat): nat {
    if n == 0 then 0 else YieldsUpTo(t, n - 1) + YieldsOf(t.gateway(n - 1).events)
  }

  // A call after which the rounds go on: it asked for tools, none of which writes.
  predicate GoesOn(t: Turn, k: nat) {
    var c := t.gateway(k);
    c.end.Ended? && ToolsIn(c.events) != [] && FirstWrite(ToolsIn(c.events)).None?
  }

  function AskedMessages(p: Provider, text: string, calls: seq<ToolCall>): seq<Saved> {
    if calls == [] then []
    else
      AskedMessages(p, text, calls[..|calls| - 1]) +
      [Saved(ToolCallMessage, Some(p), Words(text), calls[|calls| - 1].callId)]
  }

  function ResultMessages(t: Turn, calls: seq<ToolCall>): seq<Saved> {
    if calls == [] then []
    else
      var last, before := calls[|calls| - 1], ResultMessages(t, calls[..|calls| - 1]);
      if IsReadTool(last.name) then before + [Saved(ToolResult, None, Words(t.readTool(last)), last.callId)] else before
  }

  // The messages of a call after which the rounds go on.
  function Exchange(t: Turn, p: Provider, k: nat): seq<Saved> {
    var events := t.gateway(k).events;
    AskedMessages(p, TextLeft(events), ToolsIn(events)) + ResultMessages(t, ToolsIn(events))
  }

  // The messages of the call that ends the rounds.
  function Closing(t: Turn, p: Provider, k: nat): seq<Saved> {
    var events := t.gateway(k).events;
    var write := FirstWrite(ToolsIn(events));
    if ToolsIn(events) == [] then [Saved(FinalMessage, Some(p), Words(TextLeft(events)), "")]
    else if write.None? || t.proposal(write.value).None? then []
    else AskedMessages(p, TextLeft(events), ToolsIn(events)) + [Saved(FinalMessage, Some(p), ProposalNotice(write.value.name, t.proposal(write.value).value), "")]
  }

  // What the calls from..to, which all go on, leave in the conversation.
  function RoundMessages(t: Turn, p: Provider, from: nat, to: nat): seq<Saved>
    requires from <= to
  {
    if from == to then [] else RoundMessages(t, p, from, to - 1) + Exchange(t, p, to - 1)
  }

  // What rounds that end normally after the calls from..to leave in the conversation: the last call
  // answered in text, or proposed an action, or the rounds were used up.
  function Conversation(t: Turn, p: Provider, from: nat, to: nat): seq<Saved>
    requires from <= to
  {
    if from == to || GoesOn(t, to - 1) then RoundMessages(t, p, from, to) + [Saved(FinalMessage, Some(p), RoundsUsedUp, "")]
    else RoundMessages(t, p, from, to - 1) + Closing(t, p, to - 1)
  }

  // ---------- One gateway call ----------

  function ObserveEvent(w: Watched, p: Provider, e: GatewayEvent): Watched {
    match e
    case TextDelta(text) => Observe(w, Yield(Text(text), p))
    case Completed(usage) => Observe(w, Billed(usage))
    case _ => w
  }

  function AfterCall(w: Watched, p: Provider, events: seq<GatewayEvent>): Watched {
    if events == [] then Observe(w, Call(p))
    else ObserveEvent(AfterCall(w, p, events[..|events| - 1]), p, events[|events| - 1])
  }

  // A call bills, says and yields what its events add up to, and nothing else.
  lemma {:induction false} AfterCallTotals(w: Watched, p: Provider, events: seq<GatewayEvent>)
    ensures AfterCall(w, p, events) == Observe(w, Call(p)).(
        usage := Plus(w.usage, UsedBy(events)),
        spoken := w.spoken + SpokenBy(events),
        speakers := if SpokenBy(events) == "" then w.speakers else w.speakers + {p},
        yielded := w.yielded + YieldsOf(events))
  {
    if events != [] {
      var before, last := events[..|events| - 1], events[|events| - 1];
      AfterCallTotals(w, p, before);
      if last.TextDelta? {
        assert w.spoken + SpokenBy(events) == (w.spoken + SpokenBy(before)) + last.text;
      }
    } else {
      assert w.spoken + SpokenBy(events) == w.spoken;
    }
  }

  // Whether the client has hung up at one of the first `yielded` yields.
  predicate HasClosed(t: Turn, yielded: nat) { t.closeAt.Some? && t.closeAt.value < yielded }

  lemma SumsSnoc(events: seq<GatewayEvent>, i: nat)
    requires i < |events|
    ensures events[..i + 1][..i] == events[..i] && events[..i + 1] != [] && |events[..i + 1]| == i + 1
    ensures events[..i + 1][i] == events[i]
  {
  }

  // `closed` says that the client hung up at the last yield.
  ghost predicate Tells(t: Turn, closed: bool, yielded: nat) {
    if closed then t.closeAt == Some(yielded - 1) else !HasClosed(t, yielded)
  }

  method YieldChunk(t: Turn, p: Provider, chunk: Chunk, log: seq<Entry>) returns (more: seq<Entry>, closed: bool)
    requires !HasClosed(t, Watch(log).yielded)
    ensures Watch(more) == Observe(Watch(log), Yield(chunk, p)) && PhaseOf(more) == Advance(PhaseOf(log), Yield(chunk, p))
    ensures Tells(t, closed, Watch(more).yielded)
  {
    closed := t.closeAt == Some(Watch(log).yielded);
    more := Append(log, Yield(chunk, p));
  }

  method StreamEvent(t: Turn, p: Provider, e: GatewayEvent, log: seq<Entry>, text0: string, calls0: seq<ToolCall>, usage0: Usage)
    returns (more: seq<Entry>, text: string, calls: seq<ToolCall>, usage: Usage, closed: bool)
    requires PhaseOf(log).Running?
    requires !HasClosed(t, Watch(log).yielded) && usage0 == Watch(log).usage
    ensures usage == Watch(more).usage
    ensures Watch(more) == ObserveEvent(Watch(log), p, e)
    ensures text == if e.TextDelta? then text0 + e.text else if e.StructuredOutput? then e.json else text0
    ensures calls == if e.ToolCallReady? then calls0 + [e.call] else calls0
    ensures Tells(t, closed, Watch(more).yielded) && (closed ==> e.TextDelta?)
    ensures PhaseOf(more) == PhaseOf(log)
  {
    more, text, calls, usage, closed := log, text0, calls0, usage0, false;
    match e {
      case TextDelta(delta) =>
        text := text + delta;
        more, closed := YieldChunk(t, p, Text(delta), more);
      case ToolCallReady(c) =>
        calls := calls + [c];
      case StructuredOutput(json) =>
        text := json;
      case Completed(billed) =>
        usage := Plus(usage, billed);
        more := Append(more, Billed(billed));
      case ErrorEvent =>
    }
  }

  // The last of the events seen was yielded.
  predicate StopsAtText(events: seq<GatewayEvent>, seen: nat) { 0 < seen <= |events| && events[seen - 1].TextDelta? }

  // The event loop of one call; `seen` events were consumed, all of them unless the client hung up.
  method StreamCall(t: Turn, p: Provider, call: GatewayCall, log: seq<Entry>, usage0: Usage)
    returns (more: seq<Entry>, text: string, calls: seq<ToolCall>, usage: Usage, closed: bool, seen: nat)
    requires PhaseOf(log).Running?
    requires !HasClosed(t, Watch(log).yielded) && usage0 == Watch(log).usage
    ensures usage == Watch(more).usage
    ensures seen <= |call.events| && (!closed ==> seen == |call.events|)
    ensures Watch(more) == AfterCall(Watch(log), p, call.events[..seen])
    ensures text == TextLeft(call.events[..seen]) && calls == ToolsIn(call.events[..seen])
    ensures Tells(t, closed, Watch(more).yielded) && (closed ==> StopsAtText(call.events, seen))
    ensures PhaseOf(more) == PhaseOf(log)
  {
    more := Append(log, Call(p));
    text, calls, usage, closed, seen := "", [], usage0, false, 0;
    while seen < |call.events| && !closed
      invariant PhaseOf(more) == PhaseOf(log)
      invariant seen <= |call.events|
      invariant Watch(more) == AfterCall(Watch(log), p, call.events[..seen])
      invariant text == TextLeft(call.events[..seen]) && calls == ToolsIn(call.events[..seen])
      invariant Tells(t, closed, Watch(more).yielded) && usage == Watch(more).usage
      invariant closed ==> StopsAtText(call.events, seen)
      decreases |call.events| - seen
    {
      SumsSnoc(call.events, seen);
      more, text, calls, usage, closed := StreamEvent(t, p, call.events[seen], more, text, calls, usage);
      seen := seen + 1;
    }
  }

  // ---------- One round ----------

  function WithAsked(w: Watched, p: Provider, text: string, calls: seq<ToolCall>): Watched {
    w.(saved := w.saved + AskedMessages(p, text, calls), speakers := if calls == [] then w.speakers else w.speakers + {p})
  }

  lemma AskedSnoc(w: Watched, p: Provider, text: string, calls: seq<ToolCall>, i: nat)
    requires i < |calls|
    ensures Observe(WithAsked(w, p, text, calls[..i]), Persist(Saved(ToolCallMessage, Some(p), Words(text), calls[i].callId)))
        == WithAsked(w, p, text, calls[..i + 1])
  {
    assert calls[..i + 1][..i] == calls[..i];
  }

  method PersistAsked(p: Provider, text: string, calls: seq<ToolCall>, log: seq<Entry>) returns (more: seq<Entry>)
    requires PhaseOf(log).Running?
    ensures Watch(more) == WithAsked(Watch(log), p, text, calls)
    ensures PhaseOf(more) == PhaseOf(log)
  {
    more := log;
    for i := 0 to |calls|
      invariant PhaseOf(more) == PhaseOf(log)
      invariant Watch(more) == WithAsked(Watch(log), p, text, calls[..i])
    {
      AskedSnoc(Watch(log), p, text, calls, i);
      more := Append(more, Persist(Saved(ToolCallMessage, Some(p), Words(text), calls[i].callId)));
    }
    assert calls[..|calls|] == calls;
  }

  method RunReadTools(t: Turn, calls: seq<ToolCall>, log: seq<Entry>) returns (more: seq<Entry>)
    requires PhaseOf(log).Running?
    ensures Watch(more) == Watch(log).(saved := Watch(log).saved + ResultMessages(t, calls))
    ensures PhaseOf(more) == PhaseOf(log)
  {
    more := log;
    for i := 0 to |calls|
      invariant PhaseOf(more) == PhaseOf(log)
      invariant Watch(more) == Watch(log).(saved := Watch(log).saved + ResultMessages(t, calls[..i]))
    {
      assert calls[..i + 1][..i] == calls[..i];
      if IsReadTool(calls[i].name) {
        more := Append(more, Persist(Saved(ToolResult, None, Words(t.readTool(calls[i])), calls[i].callId)));
      }
    }
    assert calls[..|calls|] == calls;
  }

  // What every stretch of calls to one provider keeps and adds, whatever way it ends.
  ghost predicate SameTurn(p: Provider, w: Watched, v: Watched) {
    && v.reserved == w.reserved && v.settled == w.settled && v.dones == w.dones && v.properDone == w.properDone
    && v.calls >= w.calls
    && v.current == (if v.calls == w.calls then w.current else Some(p))
    && v.switches == w.switches + (if v.calls > w.calls && w.current.Some? && w.current != Some(p) then 1 else 0)
    && v.speakers <= w.speakers + {p}
    && v.proposals <= w.proposals + 1 && v.finals <= w.finals + 1
    && v.callAfterProposal == w.callAfterProposal
  }

  // All calls of the turn so far were heard to their end.
  ghost predicate Heard(t: Turn, w: Watched) {
    w.usage == UsedUpTo(t, w.calls) && w.spoken == SpokenUpTo(t, w.calls)
  }

  predicate IsLast(m: Saved, messages: seq<Saved>) { messages != [] && m == messages[|messages| - 1] }

  // A failed call that produced no text and no tool call.
  predicate Untouched(t: Turn, k: nat) {
    var c := t.gateway(k);
    !c.end.Ended? && TextLeft(c.events) == "" && ToolsIn(c.events) == []
  }

  // The call after w, which v has heard up to `seen` and no further.
  ghost predicate PartHeard(t: Turn, w: Watched, v: Watched, seen: nat) {
    var events := t.gateway(w.calls).events;
    && StopsAtText(events, seen)
    && v.usage == Plus(w.usage, UsedBy(events[..seen])) && v.spoken == w.spoken + SpokenBy(events[..seen])
    && v.yielded == w.yielded + YieldsOf(events[..seen])
  }

  // The client hung up at a piece of text.
  ghost predicate CutInCall(t: Turn, w: Watched, v: Watched) {
    && v.saved == w.saved && v.finals == w.finals && v.proposals == w.proposals
    && exists seen :: PartHeard(t, w, v, seen)
  }

  // The call after w ended and asked to write, and the action was proposed.
  predicate Proposes(t: Turn, k: nat) {
    var c := t.gateway(k);
    c.end.Ended? && FirstWrite(ToolsIn(c.events)).Some? && t.proposal(FirstWrite(ToolsIn(c.events)).value).Some?
  }

  // The client hung up at the notice of a proposed action.
  ghost predicate CutAtNotice(t: Turn, p: Provider, w: Watched, v: Watched) {
    && Proposes(t, w.calls) && Heard(t, v) && v.yielded == w.yielded + YieldsOf(t.gateway(w.calls).events) + 1
    && v.saved == w.saved + Closing(t, p, w.calls) && v.finals == w.finals + 1 && v.proposals == w.proposals + 1
  }

  // The call after w failed, or it asked to write and proposing the action failed.
  ghost predicate Breaks(t: Turn, p: Provider, w: Watched, v: Watched) {
    var c := t.gateway(w.calls);
    && Heard(t, v) && v.yielded == w.yielded + YieldsOf(c.events) && v.finals == w.finals
    && if c.end.Ended? then
         && FirstWrite(ToolsIn(c.events)).Some? && t.proposal(FirstWrite(ToolsIn(c.events)).value).None?
         && v.saved == w.saved + AskedMessages(p, TextLeft(c.events), ToolsIn(c.events)) && v.proposals == w.proposals + 1
       else v.saved == w.saved && v.proposals == w.proposals
  }

  // The k-th call answered in text, or proposed an action; with so many chunks and proposals.
  predicate AnswerShape(t: Turn, k: nat, chunks: int, proposals: int) {
    var c := t.gateway(k);
    && c.end.Ended? && (ToolsIn(c.events) == [] || Proposes(t, k))
    && proposals == (if ToolsIn(c.events) == [] then 0 else 1)
    && chunks == YieldsOf(c.events) + proposals
  }

  ghost predicate Answers(t: Turn, p: Provider, w: Watched, v: Watched) {
    && AnswerShape(t, w.calls, v.yielded - w.yielded, v.proposals - w.proposals) && Heard(t, v)
    && v.finals == w.finals + 1 && v.saved == w.saved + Closing(t, p, w.calls)
  }

  ghost predicate RoundEnded(t: Turn, p: Provider, w: Watched, v: Watched, end: Option<RoundsEnd>) {
    match end
    case None =>
      && GoesOn(t, w.calls) && Heard(t, v) && !HasClosed(t, v.yielded)
      && v.yielded == w.yielded + YieldsOf(t.gateway(w.calls).events)
      && v.proposals == w.proposals && v.finals == w.finals && v.saved == w.saved + Exchange(t, p, w.calls)
    case Some(Finished(answer)) =>
      Answers(t, p, w, v) && !HasClosed(t, v.yielded) && IsLast(answer, Closing(t, p, w.calls))
    case Some(Failed(transient, untouched)) =>
      && Breaks(t, p, w, v) && !HasClosed(t, v.yielded)
      && transient == t.gateway(w.calls).end.TransientError? && untouched == Untouched(t, w.calls)
      && (untouched ==> v.speakers == w.speakers)
    case Some(Closed) =>
      && t.closeAt == Some(v.yielded - 1)
      && (t.gateway(w.calls).end.Ended? || HasClosed(t, w.yielded + YieldsOf(t.gateway(w.calls).events)))
      && (CutInCall(t, w, v) || CutAtNotice(t, p, w, v))
  }

  ghost predicate Proposed(t: Turn, p: Provider, call: ToolCall, w: Watched, v: Watched) {
    && t.proposal(call).Some?
    && v == w.(saved := w.saved + [Saved(FinalMessage, Some(p), ProposalNotice(call.name, t.proposal(call).value), "")],
               speakers := w.speakers + {p}, proposals := w.proposals + 1, finals := w.finals + 1, yielded := w.yielded + 1)
  }

  lemma ProposalEffect(t: Turn, p: Provider, call: ToolCall, answer: Saved, w: Watched)
    requires t.proposal(call).Some?
    requires answer == Saved(FinalMessage, Some(p), ProposalNotice(call.name, t.proposal(call).value), "")
    ensures var v := Observe(Observe(Observe(w, Propose(call)), Persist(answer)), Yield(ToolStatus(answer.content), p));
      Proposed(t, p, call, w, v) && IsLast(answer, v.saved)
  {
  }

  ghost predicate ProposalEnded(t: Turn, p: Provider, call: ToolCall, w: Watched, v: Watched, end: RoundsEnd) {
    match end
    case Finished(answer) => Proposed(t, p, call, w, v) && !HasClosed(t, v.yielded) && IsLast(answer, v.saved)
    case Failed(transient, untouched) =>
      !transient && !untouched && t.proposal(call).None? && v == w.(proposals := w.proposals + 1)
    case Closed => Proposed(t, p, call, w, v) && t.closeAt == Some(v.yielded - 1)
  }

  // A write call is proposed, never executed, and ends the rounds.
  method ProposeWrite(t: Turn, p: Provider, call: ToolCall, log: seq<Entry>) returns (more: seq<Entry>, end: RoundsEnd)
    requires PhaseOf(log).Running?
    requires !HasClosed(t, Watch(log).yielded)
    ensures ProposalEnded(t, p, call, Watch(log), Watch(more), end)
    ensures PhaseOf(more) == PhaseOf(log)
  {
    more := Append(log, Propose(call));
    var status := t.proposal(call);
    if status.None? { return more, Failed(false, false); }
    var notice := ProposalNotice(call.name, status.value);
    var answer := Saved(FinalMessage, Some(p), notice, "");
    ProposalEffect(t, p, call, answer, Watch(log));
    more := Append(more, Persist(answer));
    var closed;
    more, closed := YieldChunk(t, p, ToolStatus(notice), more);
    end := if closed then Closed else Finished(answer);
  }

  ghost predicate ToolsUsed(t: Turn, p: Provider, text: string, calls: seq<ToolCall>, w: Watched, v: Watched, end: Option<RoundsEnd>) {
    var asked, write := WithAsked(w, p, text, calls), FirstWrite(calls);
    match end
    case None => write.None? && v == asked.(saved := asked.saved + ResultMessages(t, calls))
    case Some(ended) => write.Some? && ProposalEnded(t, p, write.value, asked, v, ended)
  }

  // The rest of a round whose call was heard to its end and asked for tools.
  method UseTools(t: Turn, p: Provider, text: string, calls: seq<ToolCall>, log: seq<Entry>)
    returns (more: seq<Entry>, end: Option<RoundsEnd>)
    requires PhaseOf(log).Running?
    requires calls != [] && !HasClosed(t, Watch(log).yielded)
    ensures ToolsUsed(t, p, text, calls, Watch(log), Watch(more), end)
    ensures PhaseOf(more) == PhaseOf(log)
  {
    more := PersistAsked(p, text, calls, log);
    var write := FirstWrite(calls);
    if write.None? {
      more := RunReadTools(t, calls, more);
      return more, None;
    }
    var ended;
    more, ended := ProposeWrite(t, p, write.value, more);
    end := Some(ended);
  }

  // After the call itself.
  ghost predicate Called(t: Turn, p: Provider, w: Watched, u: Watched) {
    && SameTurn(p, w, u) && u.calls == w.calls + 1
    && u.saved == w.saved && u.finals == w.finals && u.proposals == w.proposals
  }

  lemma {:induction false} YieldsGrow(events: seq<GatewayEvent>, n: nat)
    requires n <= |events|
    ensures YieldsOf(events[..n]) <= YieldsOf(events)
    decreases |events|
  {
    if n < |events| {
      var front := events[..|events| - 1];
      YieldsGrow(front, n);
      assert front[..n] == events[..n];
    } else {
      assert events[..n] == events;
    }
  }

  lemma CallKeeps(t: Turn, p: Provider, w: Watched, seen: nat)
    requires Heard(t, w) && w.proposals == 0 && seen <= |t.gateway(w.calls).events|
    ensures var events := t.gateway(w.calls).events;
      var u := AfterCall(w, p, events[..seen]);
      && Called(t, p, w, u)
      && (seen == |events| ==> Heard(t, u))
      && (seen == |events| && TextLeft(events) == "" ==> u.speakers == w.speakers)
      && u.yielded == w.yielded + YieldsOf(events[..seen]) && YieldsOf(events[..seen]) <= YieldsOf(events)
  {
    var events := t.gateway(w.calls).events;
    AfterCallTotals(w, p, events[..seen]);
    YieldsGrow(events, seen);
    if seen == |events| {
      assert events[..seen] == events;
      if TextLeft(events) == "" { EmptyTextMeansSilence(events); }
    }
  }

  lemma CallPartHeard(t: Turn, p: Provider, w: Watched, seen: nat)
    requires StopsAtText(t.gateway(w.calls).events, seen)
    ensures PartHeard(t, w, AfterCall(w, p, t.gateway(w.calls).events[..seen]), seen)
  {
    AfterCallTotals(w, p, t.gateway(w.calls).events[..seen]);
  }

  lemma Assoc(a: seq<Saved>, b: seq<Saved>, c: seq<Saved>)
    ensures a + b + c == a + (b + c)
  {
  }

  // What ToolsUsed leaves alone.
  ghost predicate OnlyTools(p: Provider, u: Watched, v: Watched) {
    && v == u.(saved := v.saved, speakers := u.speakers + {p}, proposals := v.proposals, finals := v.finals, yielded := v.yielded)
    && v.proposals <= u.proposals + 1 && v.finals <= u.finals + 1
  }

  lemma ToolsSame(t: Turn, p: Provider, w: Watched, u: Watched, v: Watched)
    requires Called(t, p, w, u) && Heard(t, u) && OnlyTools(p, u, v)
    ensures SameTurn(p, w, v) && v.calls == w.calls + 1 && Heard(t, v)
  {
  }

  lemma ToolsGoOn(t: Turn, p: Provider, w: Watched, u: Watched, v: Watched)
    requires Called(t, p, w, u) && Heard(t, v) && OnlyTools(p, u, v) && !HasClosed(t, u.yielded)
    requires u.yielded == w.yielded + YieldsOf(t.gateway(w.calls).events)
    requires var c := t.gateway(w.calls);
      c.end.Ended? && ToolsIn(c.events) != [] && ToolsUsed(t, p, TextLeft(c.events), ToolsIn(c.events), u, v, None)
    ensures RoundEnded(t, p, w, v, None)
  {
    var events := t.gateway(w.calls).events;
    Assoc(w.saved, AskedMessages(p, TextLeft(events), ToolsIn(events)), ResultMessages(t, ToolsIn(events)));
  }

  lemma ToolsPropose(t: Turn, p: Provider, w: Watched, u: Watched, v: Watched, end: RoundsEnd)
    requires Called(t, p, w, u) && Heard(t, v) && OnlyTools(p, u, v) && !HasClosed(t, u.yielded)
    requires u.yielded == w.yielded + YieldsOf(t.gateway(w.calls).events)
    requires var c := t.gateway(w.calls);
      c.end.Ended? && ToolsIn(c.events) != [] && ToolsUsed(t, p, TextLeft(c.events), ToolsIn(c.events), u, v, Some(end))
    ensures RoundEnded(t, p, w, v, Some(end))
  {
    var events := t.gateway(w.calls).events;
    if !end.Failed? { Assoc(w.saved, AskedMessages(p, TextLeft(events), ToolsIn(events)), [v.saved[|v.saved| - 1]]); }
  }

  lemma ToolsAreOnlyTools(t: Turn, p: Provider, text: string, calls: seq<ToolCall>, u: Watched, v: Watched, end: Option<RoundsEnd>)
    requires calls != [] && ToolsUsed(t, p, text, calls, u, v, end)
    ensures OnlyTools(p, u, v)
  {
  }

  lemma ToolsEnd(t: Turn, p: Provider, w: Watched, u: Watched, v: Watched, end: Option<RoundsEnd>)
    requires Called(t, p, w, u) && Heard(t, u) && !HasClosed(t, u.yielded)
    requires u.yielded == w.yielded + YieldsOf(t.gateway(w.calls).events)
    requires var c := t.gateway(w.calls);
      c.end.Ended? && ToolsIn(c.events) != [] && ToolsUsed(t, p, TextLeft(c.events), ToolsIn(c.events), u, v, end)
    ensures SameTurn(p, w, v) && v.calls == u.calls && v.usage == u.usage && RoundEnded(t, p, w, v, end)
  {
    ToolsAreOnlyTools(t, p, TextLeft(t.gateway(w.calls).events), ToolsIn(t.gateway(w.calls).events), u, v, end);
    ToolsSame(t, p, w, u, v);
    match end
    case None => ToolsGoOn(t, p, w, u, v);
    case Some(ended) => ToolsPropose(t, p, w, u, v, ended);
  }

  // A call that asked for no tools is the answer.
  lemma TextEnds(t: Turn, p: Provider, w: Watched, u: Watched, answer: Saved)
    requires Called(t, p, w, u) && Heard(t, u) && !HasClosed(t, u.yielded)
    requires u.yielded == w.yielded + YieldsOf(t.gateway(w.calls).events)
    requires t.gateway(w.calls).end.Ended? && ToolsIn(t.gateway(w.calls).events) == []
    requires answer == Saved(FinalMessage, Some(p), Words(TextLeft(t.gateway(w.calls).events)), "")
    ensures SameTurn(p, w, Observe(u, Persist(answer))) && Observe(u, Persist(answer)).calls == w.calls + 1
    ensures RoundEnded(t, p, w, Observe(u, Persist(answer)), Some(Finished(answer)))
  {
    assert Closing(t, p, w.calls) == [answer];
  }

  lemma CallFailed(t: Turn, p: Provider, w: Watched, u: Watched)
    requires Called(t, p, w, u) && Heard(t, u) && !HasClosed(t, u.yielded) && !t.gateway(w.calls).end.Ended?
    requires TextLeft(t.gateway(w.calls).events) == "" ==> u.speakers == w.speakers
    requires u.yielded == w.yielded + YieldsOf(t.gateway(w.calls).events)
    ensures RoundEnded(t, p, w, u, Some(Failed(t.gateway(w.calls).end.TransientError?, Untouched(t, w.calls))))
  {
  }

  lemma CallClosed(t: Turn, p: Provider, w: Watched, u: Watched, seen: nat)
    requires Called(t, p, w, u) && t.closeAt == Some(u.yielded - 1) && PartHeard(t, w, u, seen)
    requires u.yielded <= w.yielded + YieldsOf(t.gateway(w.calls).events)
    ensures RoundEnded(t, p, w, u, Some(Closed))
  {
  }

  method Round(t: Turn, p: Provider, k: nat, log: seq<Entry>, usage0: Usage)
    returns (more: seq<Entry>, end: Option<RoundsEnd>, usage: Usage)
    requires PhaseOf(log).Running?
    requires usage0 == Watch(log).usage
    requires Watch(log).calls == k && Heard(t, Watch(log)) && !HasClosed(t, Watch(log).yielded)
    requires Watch(log).proposals == 0
    ensures SameTurn(p, Watch(log), Watch(more)) && Watch(more).calls == k + 1
    ensures RoundEnded(t, p, Watch(log), Watch(more), end) && usage == Watch(more).usage
    ensures PhaseOf(more) == PhaseOf(log)
  {
    var call := t.gateway(k);
    var text, calls, closed, seen;
    more, text, calls, usage, closed, seen := StreamCall(t, p, call, log, usage0);
    CallKeeps(t, p, Watch(log), seen);
    if closed {
      CallPartHeard(t, p, Watch(log), seen);
      CallClosed(t, p, Watch(log), Watch(more), seen);
      return more, Some(Closed), usage;
    }
    assert call.events[..seen] == call.events;
    more, end := FinishRound(t, p, call, text, calls, log, more);
  }

  // A round whose call was heard to its end, or failed.
  method FinishRound(t: Turn, p: Provider, call: GatewayCall, text: string, calls: seq<ToolCall>,
                     ghost before: seq<Entry>, log: seq<Entry>)
    returns (more: seq<Entry>, end: Option<RoundsEnd>)
    requires PhaseOf(log).Running?
    requires call == t.gateway(Watch(before).calls) && text == TextLeft(call.events) && calls == ToolsIn(call.events)
    requires text == "" ==> Watch(log).speakers == Watch(before).speakers
    requires Watch(log).yielded == Watch(before).yielded + YieldsOf(call.events)
    requires Called(t, p, Watch(before), Watch(log)) && Heard(t, Watch(log)) && !HasClosed(t, Watch(log).yielded)
    ensures SameTurn(p, Watch(before), Watch(more)) && Watch(more).calls == Watch(log).calls
    ensures RoundEnded(t, p, Watch(before), Watch(more), end) && Watch(more).usage == Watch(log).usage
    ensures PhaseOf(more) == PhaseOf(log)
  {
    if !call.end.Ended? {
      CallFailed(t, p, Watch(before), Watch(log));
      return log, Some(Failed(call.end.TransientError?, text == "" && calls == []));
    }
    more, end := AnswerRound(t, p, text, calls, before, log);
  }

  // A round whose call was heard to its end.
  method AnswerRound(t: Turn, p: Provider, text: string, calls: seq<ToolCall>, ghost before: seq<Entry>, log: seq<Entry>)
    returns (more: seq<Entry>, end: Option<RoundsEnd>)
    requires PhaseOf(log).Running?
    requires var c := t.gateway(Watch(before).calls);
      && c.end.Ended? && text == TextLeft(c.events) && calls == ToolsIn(c.events)
      && Watch(log).yielded == Watch(before).yielded + YieldsOf(c.events)
    requires Called(t, p, Watch(before), Watch(log)) && Heard(t, Watch(log)) && !HasClosed(t, Watch(log).yielded)
    ensures SameTurn(p, Watch(before), Watch(more)) && Watch(more).calls == Watch(log).calls
    ensures RoundEnded(t, p, Watch(before), Watch(more), end) && Watch(more).usage == Watch(log).usage
    ensures PhaseOf(more) == PhaseOf(log)
  {
    if calls == [] {
      var answer := Saved(FinalMessage, Some(p), Words(text), "");
      more := Append(log, Persist(answer));
      TextEnds(t, p, Watch(before), Watch(log), answer);
      return more, Some(Finished(answer));
    }
    more, end := UseTools(t, p, text, calls, log);
    ToolsEnd(t, p, Watch(before), Watch(log), Watch(more), end);
  }

  // ---------- The rounds with one provider ----------

  // A provider starts with nothing said, saved or proposed in this turn.
  ghost predicate Fresh(t: Turn, w: Watched) {
    && w.saved == [] && w.speakers == {} && w.finals == 0 && w.proposals == 0 && !w.callAfterProposal
    && w.dones == 0 && Heard(t, w) && w.yielded == YieldsUpTo(t, w.calls) && !HasClosed(t, w.yielded)
  }

  ghost predicate AllGoOn(t: Turn, from: nat, to: int) { forall k: nat :: from <= k < to ==> GoesOn(t, k) }

  // Between two rounds, `i` of them done.
  ghost predicate Underway(t: Turn, p: Provider, w: Watched, u: Watched, i: nat) {
    && SameTurn(p, w, u) && u.calls == w.calls + i
    && Heard(t, u) && u.yielded == YieldsUpTo(t, u.calls) && !HasClosed(t, u.yielded) && u.proposals == 0 && u.finals == 0
    && AllGoOn(t, w.calls, u.calls) && u.saved == RoundMessages(t, p, w.calls, u.calls)
    && (i == 0 ==> u == w)
  }

  lemma SameTurnJoins(p: Provider, w: Watched, u: Watched, v: Watched)
    requires SameTurn(p, w, u) && SameTurn(p, u, v)
    requires w.proposals == u.proposals == 0 && w.finals == u.finals == 0
    ensures SameTurn(p, w, v)
  {
  }

  lemma RoundGoesOn(t: Turn, p: Provider, w: Watched, u: Watched, v: Watched, i: nat)
    requires Fresh(t, w) && Underway(t, p, w, u, i)
    requires SameTurn(p, u, v) && v.calls == u.calls + 1 && RoundEnded(t, p, u, v, None)
    ensures Underway(t, p, w, v, i + 1)
  {
    SameTurnJoins(p, w, u, v);
    assert RoundMessages(t, p, w.calls, v.calls) == RoundMessages(t, p, w.calls, u.calls) + Exchange(t, p, u.calls);
  }

  // What there is to see before the k-th call, if the calls from..k all went on.
  function BeforeCall(t: Turn, p: Provider, from: nat, k: nat): Watched
    requires from <= k
  {
    NOTHING.(calls := k, usage := UsedUpTo(t, k), spoken := SpokenUpTo(t, k), yielded := YieldsUpTo(t, k),
             saved := RoundMessages(t, p, from, k))
  }

  // The number of the last call.
  function LastCall(v: Watched): nat { if v.calls == 0 then 0 else v.calls - 1 }

  // The three ways rounds that began with the call `from` can have ended, told by their last call.

  ghost predicate WasAnswered(t: Turn, p: Provider, from: nat, v: Watched) {
    && from <= v.calls && Heard(t, v) && v.finals == 1 && v.saved == Conversation(t, p, from, v.calls)
    && if v.calls == from || GoesOn(t, LastCall(v)) then
         v.calls == from + t.rounds && v.proposals == 0 && v.yielded == YieldsUpTo(t, v.calls)
       else AnswerShape(t, LastCall(v), v.yielded - YieldsUpTo(t, LastCall(v)), v.proposals)
  }

  ghost predicate WasBroken(t: Turn, p: Provider, from: nat, v: Watched) {
    from < v.calls && Breaks(t, p, BeforeCall(t, p, from, LastCall(v)), v)
  }

  ghost predicate WasCut(t: Turn, p: Provider, from: nat, v: Watched) {
    && from < v.calls && t.closeAt == Some(v.yielded - 1)
    && (CutInCall(t, BeforeCall(t, p, from, LastCall(v)), v) || CutAtNotice(t, p, BeforeCall(t, p, from, LastCall(v)), v))
  }

  ghost predicate EndsAs(t: Turn, p: Provider, w: Watched, v: Watched, end: RoundsEnd)
    requires w.calls <= v.calls
  {
    match end
    case Finished(answer) => WasAnswered(t, p, w.calls, v) && !HasClosed(t, v.yielded) && IsLast(answer, v.saved)
    case Failed(transient, untouched) =>
      && WasBroken(t, p, w.calls, v) && !HasClosed(t, v.yielded)
      && transient == t.gateway(LastCall(v)).end.TransientError?
      && untouched == (v.calls == w.calls + 1 && Untouched(t, w.calls))
      && (untouched ==> Fresh(t, v))
    case Closed =>
      && WasCut(t, p, w.calls, v)
      && (v.calls > w.calls + 1 || t.gateway(w.calls).end.Ended? || HasClosed(t, w.yielded + YieldsOf(t.gateway(w.calls).events)))
  }

  // How the rounds with one provider end.
  ghost predicate RoundsEnded(t: Turn, p: Provider, w: Watched, v: Watched, end: RoundsEnd) {
    && SameTurn(p, w, v) && v.calls <= w.calls + t.rounds && AllGoOn(t, w.calls, v.calls - 1)
    && EndsAs(t, p, w, v, end)
  }

  // The last round saw what BeforeCall says.
  ghost predicate SameSight(u: Watched, b: Watched) {
    && u.calls == b.calls && u.usage == b.usage && u.spoken == b.spoken && u.yielded == b.yielded
    && u.saved == b.saved && u.finals == b.finals && u.proposals == b.proposals
  }

  lemma UnderwayIsBefore(t: Turn, p: Provider, w: Watched, u: Watched, i: nat)
    requires Underway(t, p, w, u, i)
    ensures SameSight(u, BeforeCall(t, p, w.calls, u.calls))
  {
  }

  lemma CutAsSeen(t: Turn, p: Provider, u: Watched, b: Watched, v: Watched)
    requires SameSight(u, b)
    ensures CutInCall(t, u, v) ==> CutInCall(t, b, v)
    ensures CutAtNotice(t, p, u, v) ==> CutAtNotice(t, p, b, v)
  {
    if CutInCall(t, u, v) {
      var seen :| PartHeard(t, u, v, seen);
      assert PartHeard(t, b, v, seen);
    }
  }

  lemma ClosedRound(t: Turn, p: Provider, w: Watched, u: Watched, v: Watched, i: nat)
    requires Underway(t, p, w, u, i) && v.calls == u.calls + 1 && RoundEnded(t, p, u, v, Some(Closed))
    ensures EndsAs(t, p, w, v, Closed)
  {
    UnderwayIsBefore(t, p, w, u, i);
    CutAsSeen(t, p, u, BeforeCall(t, p, w.calls, u.calls), v);
  }

  lemma AnsweredRound(t: Turn, p: Provider, from: nat, u: Watched, v: Watched)
    requires from <= u.calls && v.calls == u.calls + 1 && !GoesOn(t, u.calls)
    requires u.yielded == YieldsUpTo(t, u.calls) && u.proposals == 0 && u.finals == 0 && u.saved == RoundMessages(t, p, from, u.calls)
    requires Answers(t, p, u, v)
    ensures WasAnswered(t, p, from, v)
  {
    assert LastCall(v) == u.calls;
    assert Conversation(t, p, from, v.calls) == RoundMessages(t, p, from, u.calls) + Closing(t, p, u.calls);
  }

  lemma FinishedRound(t: Turn, p: Provider, w: Watched, u: Watched, v: Watched, i: nat, answer: Saved)
    requires Underway(t, p, w, u, i) && v.calls == u.calls + 1 && RoundEnded(t, p, u, v, Some(Finished(answer)))
    ensures EndsAs(t, p, w, v, Finished(answer))
  {
    assert !GoesOn(t, u.calls);
    AnsweredRound(t, p, w.calls, u, v);
    LastOfBoth(answer, u.saved, Closing(t, p, u.calls));
  }

  lemma BrokenAsSeen(t: Turn, p: Provider, u: Watched, b: Watched, v: Watched)
    requires SameSight(u, b) && Breaks(t, p, u, v)
    ensures Breaks(t, p, b, v)
  {
  }

  lemma LastOfBoth(m: Saved, a: seq<Saved>, b: seq<Saved>)
    requires IsLast(m, b)
    ensures IsLast(m, a + b)
  {
  }

  lemma FailedRound(t: Turn, p: Provider, w: Watched, u: Watched, v: Watched, i: nat, transient: bool, untouched: bool)
    requires Fresh(t, w) && Underway(t, p, w, u, i) && SameTurn(p, u, v) && v.calls == u.calls + 1
    requires RoundEnded(t, p, u, v, Some(Failed(transient, untouched)))
    ensures EndsAs(t, p, w, v, Failed(transient, untouched && i == 0))
  {
    UnderwayIsBefore(t, p, w, u, i);
    BrokenAsSeen(t, p, u, BeforeCall(t, p, w.calls, u.calls), v);
  }

  function AsOfRound(end: RoundsEnd, i: nat): RoundsEnd {
    if end.Failed? then Failed(end.transient, end.untouched && i == 0) else end
  }

  lemma LastRound(t: Turn, p: Provider, w: Watched, u: Watched, v: Watched, i: nat, end: RoundsEnd)
    requires Fresh(t, w) && Underway(t, p, w, u, i) && i < t.rounds
    requires SameTurn(p, u, v) && v.calls == u.calls + 1 && RoundEnded(t, p, u, v, Some(end))
    ensures RoundsEnded(t, p, w, v, AsOfRound(end, i))
  {
    SameTurnJoins(p, w, u, v);
    match end
    case Finished(answer) => FinishedRound(t, p, w, u, v, i, answer);
    case Failed(transient, untouched) => FailedRound(t, p, w, u, v, i, transient, untouched);
    case Closed => ClosedRound(t, p, w, u, v, i);
  }

  lemma RoundsExhausted(t: Turn, p: Provider, w: Watched, u: Watched, v: Watched, answer: Saved)
    requires Fresh(t, w) && Underway(t, p, w, u, t.rounds) && v == Observe(u, Persist(answer))
    requires answer == Saved(FinalMessage, Some(p), RoundsUsedUp, "")
    ensures RoundsEnded(t, p, w, v, Finished(answer))
  {
    assert Conversation(t, p, w.calls, u.calls) == RoundMessages(t, p, w.calls, u.calls) + [answer];
  }

  method RunRounds(t: Turn, p: Provider, from: nat, log: seq<Entry>, usage0: Usage)
    returns (more: seq<Entry>, end: RoundsEnd, usage: Usage)
    requires PhaseOf(log).Running?
    requires usage0 == Watch(log).usage
    requires Watch(log).calls == from && Fresh(t, Watch(log))
    ensures RoundsEnded(t, p, Watch(log), Watch(more), end) && usage == Watch(more).usage
    ensures PhaseOf(more) == PhaseOf(log)
  {
    more, usage := log, usage0;
    for i := 0 to t.rounds
      invariant PhaseOf(more) == PhaseOf(log)
      invariant Underway(t, p, Watch(log), Watch(more), i) && usage == Watch(more).usage
    {
      ghost var before := Watch(more);
      var ended;
      more, ended, usage := Round(t, p, from + i, more, usage);
      if ended.Some? {
        LastRound(t, p, Watch(log), before, Watch(more), i, ended.value);
        return more, AsOfRound(ended.value, i), usage;
      }
      RoundGoesOn(t, p, Watch(log), before, Watch(more), i);
    }
    ghost var before := Watch(more);
    var answer := Saved(FinalMessage, Some(p), RoundsUsedUp, "");
    more := Append(more, Persist(answer));
    RoundsExhausted(t, p, Watch(log), before, Watch(more), answer);
    end := Finished(answer);
  }

  // ---------- The whole turn ----------

  // Round 0 failed for the moment with nothing produced, the client is still there, and there is
  // somebody to fall back to.
  predicate FallsBack(t: Turn) {
    && t.rounds > 0 && t.gateway(0).end.TransientError? && Untouched(t, 0) && t.fallback.Some?
    && !HasClosed(t, YieldsOf(t.gateway(0).events))
  }

  // The provider and model a turn ends with.
  function LastChoice(t: Turn): (Provider, string) { if FallsBack(t) then t.fallback.value else (t.provider, t.model) }

  predicate IsNormal(o: Outcome) { o.Answered? || o == HungUp(true) }

  // What is true of every turn that reserved, whatever way it ended.
  ghost predicate SettledOnce(t: Turn, w: Watched, o: Outcome) {
    && t.Estimate().Some? && t.granted
    && w.reserved == [t.Estimate().value]
    && |w.settled| == 1
    && var s := w.settled[0];
       && s == Settlement(if IsNormal(o) then Reconciled else Refunded, s.provider, s.model, w.usage, t.Estimate().value)
       && PricingOf(s.provider, s.model).Some?
       && (w.calls > 0 ==> w.current == Some(s.provider))
       && (s.provider, s.model) == LastChoice(t)
       && w.speakers <= {s.provider}
  }

  ghost predicate Bounded(t: Turn, w: Watched) {
    && w.calls <= t.rounds + 1 && w.switches <= 1
    && w.proposals <= 1 && !w.callAfterProposal
    && w.finals <= 1 && w.dones <= 1
  }

  // The call a turn's last rounds begin with.
  function FirstCall(t: Turn): nat { if FallsBack(t) then 1 else 0 }

  // A turn whose done chunk has been taken back.
  function BeforeDone(w: Watched): Watched { w.(yielded := if w.yielded > 0 then w.yielded - 1 else 0) }

  // How a turn got where it is when it settles: answered, broken off or cut short, and told by its last
  // call.
  ghost predicate EndsLike(t: Turn, w: Watched, o: Outcome) {
    var from, p := FirstCall(t), LastChoice(t).0;
    && from <= w.calls <= from + t.rounds && AllGoOn(t, from, w.calls - 1)
    && if IsNormal(o) then w.dones == 1 && w.properDone && w.yielded > 0 && WasAnswered(t, p, from, BeforeDone(w))
       else
         && w.dones == 0
         && if o.Raised? then WasBroken(t, p, from, w)
            else if o == HungUp(false) then WasCut(t, p, from, w)
            else ((WasAnswered(t, p, from, w) || WasBroken(t, p, from, w)) && !HasClosed(t, w.yielded)) || WasCut(t, p, from, w)
  }

  // The reservation stays: estimate_cost_cents raised before anything was given back or recorded.
  ghost predicate LeftOpen(t: Turn, w: Watched) {
    && t.Estimate().Some? && w.reserved == [t.Estimate().value] && w.settled == []
    && w.speakers <= {LastChoice(t).0}
    && (t.closeAt == Some(w.yielded - 1) || !HasClosed(t, w.yielded))
  }

  // Which way a turn goes is known from its inputs, and what it leaves is what its calls add up to.
  ghost predicate TurnDone(t: Turn, w: Watched, o: Outcome) {
    && (o.Refused? <==> t.Estimate().None? || !t.granted)
    && (o.Unsettled? <==> t.Estimate().Some? && t.granted && PricingOf(LastChoice(t).0, LastChoice(t).1).None?)
    && if o.Refused? then w == NOTHING
       else if o.Unsettled? then LeftOpen(t, w) && Bounded(t, w) && EndsLike(t, w, o)
       else
         && SettledOnce(t, w, o) && Bounded(t, w) && EndsLike(t, w, o)
         && (if o.HungUp? then t.closeAt == Some(w.yielded - 1) else !HasClosed(t, w.yielded))
  }

  // Where the rounds start: with the turn's own provider, or with the fallback after one failed call.
  ghost predicate Starting(t: Turn, w: Watched, attempted: bool, p: Provider, model: string) {
    && Fresh(t, w) && t.granted && t.Estimate().Some? && w.reserved == [t.Estimate().value] && w.settled == []
    && w.switches == 0
    && (if attempted then FallsBack(t) && (p, model) == t.fallback.value && w.calls == 1
        else (p, model) == (t.provider, t.model) && w.calls == 0 && w.current == None && w.yielded == 0)
  }

  // The loop over providers does not go on: the turn is over, or the error is raised.
  ghost predicate LastTry(t: Turn, end: RoundsEnd, attempted: bool) {
    !end.Failed? || !end.transient || !end.untouched || attempted || t.fallback.None?
  }

  lemma StartsAgain(t: Turn, w: Watched, v: Watched, end: RoundsEnd)
    requires Starting(t, w, false, t.provider, t.model) && RoundsEnded(t, t.provider, w, v, end) && !LastTry(t, end, false)
    ensures Starting(t, v, true, t.fallback.value.0, t.fallback.value.1)
  {
  }

  // One provider, and then the fallback if there is one and nothing was produced.
  method RunProviders(t: Turn, log: seq<Entry>)
    returns (more: seq<Entry>, end: RoundsEnd, usage: Usage, p: Provider, model: string, fallbackAttempted: bool, ghost start: Watched)
    requires PhaseOf(log).Running?
    requires Watch(log).usage == Usage(0, 0) && Starting(t, Watch(log), false, t.provider, t.model)
    ensures Starting(t, start, fallbackAttempted, p, model) && RoundsEnded(t, p, start, Watch(more), end)
    ensures LastTry(t, end, fallbackAttempted) && usage == Watch(more).usage
    ensures PhaseOf(more) == PhaseOf(log)
  {
    more, p, model, fallbackAttempted, usage := log, t.provider, t.model, false, Usage(0, 0);
    while true
      invariant PhaseOf(more) == PhaseOf(log)
      invariant Starting(t, Watch(more), fallbackAttempted, p, model) && usage == Watch(more).usage
      decreases if fallbackAttempted then 0 else 1
    {
      start := Watch(more);
      more, end, usage := RunRounds(t, p, if fallbackAttempted then 1 else 0, more, usage);
      if !end.Failed? || !end.transient || !end.untouched || fallbackAttempted || t.fallback.None? { return; }
      StartsAgain(t, start, Watch(more), end);
      fallbackAttempted, p, model := true, t.fallback.value.0, t.fallback.value.1;
    }
  }

  function SettlementOf(t: Turn, status: UsageStatus, p: Provider, model: string, usage: Usage): Settlement
    requires t.Estimate().Some?
  {
    Settlement(status, p, model, usage, t.Estimate().value)
  }

  // Which provider the rounds ended with.
  lemma EndsWithProvider(t: Turn, w: Watched, v: Watched, end: RoundsEnd, attempted: bool, p: Provider, model: string)
    requires Starting(t, w, attempted, p, model) && RoundsEnded(t, p, w, v, end) && LastTry(t, end, attempted)
    ensures attempted == FallsBack(t) && (p, model) == LastChoice(t)
    ensures v.calls > 0 ==> v.current == Some(p)
    ensures v.speakers <= {p} && Bounded(t, v) && v.reserved == [t.Estimate().value] && v.settled == [] && v.dones == 0
    ensures w.calls == FirstCall(t)
  {
    assert v.calls > w.calls + 1 ==> GoesOn(t, w.calls);
  }

  // Settling and the done chunk change nothing the ways of ending look at.
  lemma AnsweredStays(t: Turn, p: Provider, from: nat, v: Watched, d: Watched)
    requires SameSight(v, d) && WasAnswered(t, p, from, v)
    ensures WasAnswered(t, p, from, d)
  {
  }

  lemma BrokenStays(t: Turn, p: Provider, from: nat, v: Watched, d: Watched)
    requires SameSight(v, d) && WasBroken(t, p, from, v)
    ensures WasBroken(t, p, from, d)
  {
  }

  lemma CutInCallStays(t: Turn, b: Watched, v: Watched, d: Watched)
    requires SameSight(v, d) && CutInCall(t, b, v)
    ensures CutInCall(t, b, d)
  {
    var seen :| PartHeard(t, b, v, seen);
    assert PartHeard(t, b, d, seen);
  }

  lemma CutAtNoticeStays(t: Turn, p: Provider, b: Watched, v: Watched, d: Watched)
    requires SameSight(v, d) && CutAtNotice(t, p, b, v)
    ensures CutAtNotice(t, p, b, d)
  {
  }

  lemma CutStays(t: Turn, p: Provider, from: nat, v: Watched, d: Watched)
    requires SameSight(v, d) && WasCut(t, p, from, v)
    ensures WasCut(t, p, from, d)
  {
    var b := BeforeCall(t, p, from, v.calls - 1);
    if CutInCall(t, b, v) { CutInCallStays(t, b, v, d); } else { CutAtNoticeStays(t, p, b, v, d); }
  }

  lemma SettleSight(v: Watched, s: Settlement)
    ensures var d := Observe(v, Settle(s));
      SameSight(v, d) && d.dones == v.dones && d.settled == v.settled + [s]
  {
  }

  lemma DoneSight(v: Watched, answer: Saved, p: Provider)
    requires v.settled != [] && IsLast(answer, v.saved)
    ensures var d := Observe(v, Yield(Done(Some(answer)), p));
      && SameSight(v, BeforeDone(d)) && d.calls == v.calls && d.yielded > 0
      && d.dones == v.dones + 1 && d.properDone
  {
  }

  lemma BrokenEndsLike(t: Turn, w: Watched, v: Watched, s: Settlement, end: RoundsEnd, attempted: bool, p: Provider, model: string)
    requires Starting(t, w, attempted, p, model) && RoundsEnded(t, p, w, v, end) && LastTry(t, end, attempted) && !end.Finished?
    ensures EndsLike(t, Observe(v, Settle(s)), if end.Closed? then HungUp(false) else Raised)
  {
    EndsWithProvider(t, w, v, end, attempted, p, model);
    SettleSight(v, s);
    var d := Observe(v, Settle(s));
    if end.Closed? { CutStays(t, p, w.calls, v, d); } else { BrokenStays(t, p, w.calls, v, d); }
  }

  lemma TurnBroken(t: Turn, w: Watched, v: Watched, end: RoundsEnd, attempted: bool, p: Provider, model: string)
    requires PricingOf(p, model).Some? && Starting(t, w, attempted, p, model) && RoundsEnded(t, p, w, v, end) && LastTry(t, end, attempted)
    requires !end.Finished?
    ensures TurnDone(t, Observe(v, Settle(SettlementOf(t, Refunded, p, model, v.usage))), if end.Closed? then HungUp(false) else Raised)
  {
    EndsWithProvider(t, w, v, end, attempted, p, model);
    BrokenEndsLike(t, w, v, SettlementOf(t, Refunded, p, model, v.usage), end, attempted, p, model);
  }

  lemma AnswerSettles(t: Turn, v: Watched, answer: Saved, p: Provider, model: string, o: Outcome)
    requires t.granted && t.Estimate().Some? && v.reserved == [t.Estimate().value] && v.settled == []
    requires PricingOf(p, model).Some? && (v.calls > 0 ==> v.current == Some(p)) && v.speakers <= {p} && IsNormal(o)
    requires (p, model) == LastChoice(t)
    ensures SettledOnce(t, Observe(Observe(v, Settle(SettlementOf(t, Reconciled, p, model, v.usage))), Yield(Done(Some(answer)), p)), o)
  {
  }

  lemma AnswerBounded(t: Turn, v: Watched, s: Settlement, answer: Saved, p: Provider, o: Outcome)
    requires Bounded(t, v) && v.dones == 0 && Tells(t, o.HungUp?, v.yielded + 1)
    ensures var d := Observe(Observe(v, Settle(s)), Yield(Done(Some(answer)), p));
      && Bounded(t, d)
      && (if o.HungUp? then t.closeAt == Some(d.yielded - 1) else !HasClosed(t, d.yielded))
  {
  }

  lemma AnswerEndsLike(t: Turn, w: Watched, v: Watched, s: Settlement, answer: Saved, attempted: bool, p: Provider, model: string, o: Outcome)
    requires Starting(t, w, attempted, p, model) && RoundsEnded(t, p, w, v, Finished(answer)) && IsNormal(o)
    ensures EndsLike(t, Observe(Observe(v, Settle(s)), Yield(Done(Some(answer)), p)), o)
  {
    EndsWithProvider(t, w, v, Finished(answer), attempted, p, model);
    var settled := Observe(v, Settle(s));
    SettleSight(v, s);
    AnsweredStays(t, p, w.calls, v, settled);
    DoneEndsLike(t, w.calls, settled, answer, p, o);
  }

  lemma DoneEndsLike(t: Turn, from: nat, v: Watched, answer: Saved, p: Provider, o: Outcome)
    requires from == FirstCall(t) && p == LastChoice(t).0 && v.calls <= from + t.rounds && AllGoOn(t, from, v.calls - 1)
    requires WasAnswered(t, p, from, v) && v.settled != [] && IsLast(answer, v.saved) && v.dones == 0 && IsNormal(o)
    ensures EndsLike(t, Observe(v, Yield(Done(Some(answer)), p)), o)
  {
    DoneSight(v, answer, p);
    AnsweredStays(t, p, from, v, BeforeDone(Observe(v, Yield(Done(Some(answer)), p))));
  }

  lemma TurnAnswered(t: Turn, w: Watched, v: Watched, answer: Saved, attempted: bool, p: Provider, model: string, o: Outcome)
    requires PricingOf(p, model).Some? && Starting(t, w, attempted, p, model) && RoundsEnded(t, p, w, v, Finished(answer))
    requires IsNormal(o) && Tells(t, o.HungUp?, v.yielded + 1)
    ensures TurnDone(t, Observe(Observe(v, Settle(SettlementOf(t, Reconciled, p, model, v.usage))), Yield(Done(Some(answer)), p)), o)
  {
    var s := SettlementOf(t, Reconciled, p, model, v.usage);
    EndsWithProvider(t, w, v, Finished(answer), attempted, p, model);
    AnswerEndsLike(t, w, v, s, answer, attempted, p, model, o);
    AnswerSettles(t, v, answer, p, model, o);
    AnswerBounded(t, v, s, answer, p, o);
  }

  // The log of a turn is in order, and its one settlement answers its one reservation.
  ghost predicate InOrder(t: Turn, log: seq<Entry>, o: Outcome) {
    if o.Refused? then log == []
    else if o.Unsettled? then t.Estimate().Some? && PhaseOf(log) == Running(t.Estimate().value)
    else
      var w := Watch(log);
      |w.reserved| == |w.settled| == 1 && PhaseOf(log) == Over(w.reserved[0], w.settled[0])
  }

  method SettleAndAnswer(t: Turn, log: seq<Entry>, answer: Saved, s: Settlement, p: Provider)
    returns (more: seq<Entry>, outcome: Outcome)
    requires PhaseOf(log).Running? && !HasClosed(t, Watch(log).yielded)
    ensures Watch(more) == Observe(Observe(Watch(log), Settle(s)), Yield(Done(Some(answer)), p))
    ensures PhaseOf(more) == Over(PhaseOf(log).estimate, s)
    ensures IsNormal(outcome) && Tells(t, outcome.HungUp?, Watch(log).yielded + 1)
    ensures Watch(more).reserved == Watch(log).reserved && Watch(more).settled == Watch(log).settled + [s]
  {
    more := Append(log, Settle(s));
    var closed;
    more, closed := YieldChunk(t, p, Done(Some(answer)), more);
    outcome := if closed then HungUp(true) else Answered;
  }

  // What is left to do after the rounds needs little of what is known of them.
  lemma ReadyToSettle(t: Turn, w: Watched, v: Watched, p: Provider, model: string, end: RoundsEnd, attempted: bool)
    requires Starting(t, w, attempted, p, model) && RoundsEnded(t, p, w, v, end)
    ensures t.Estimate().Some? && v.reserved == [t.Estimate().value] && v.settled == []
    ensures end.Finished? ==> !HasClosed(t, v.yielded)
  {
  }

  lemma OrderHolds(t: Turn, log: seq<Entry>, estimate: nat, s: Settlement, o: Outcome)
    requires PhaseOf(log) == Over(estimate, s) && Watch(log).reserved == [estimate] && Watch(log).settled == [s] && !o.Refused? && !o.Unsettled?
    ensures InOrder(t, log, o)
  {
  }

  lemma NothingDone(t: Turn)
    requires t.Estimate().None? || !t.granted
    ensures TurnDone(t, Watch([]), Refused) && InOrder(t, [], Refused)
  {
  }

  lemma ReadyToStart(t: Turn, w: Watched)
    requires t.granted && t.Estimate().Some? && w == Observe(NOTHING, Reserve(t.Estimate().value))
    ensures Starting(t, w, false, t.provider, t.model)
  {
  }

  method SettleAnswered(t: Turn, log: seq<Entry>, answer: Saved, s: Settlement,
                        ghost attempted: bool, ghost start: Watched)
    returns (more: seq<Entry>, outcome: Outcome)
    requires PricingOf(s.provider, s.model).Some? && Starting(t, start, attempted, s.provider, s.model)
    requires RoundsEnded(t, s.provider, start, Watch(log), Finished(answer))
    requires t.Estimate().Some? && PhaseOf(log) == Running(t.Estimate().value) && s == SettlementOf(t, Reconciled, s.provider, s.model, Watch(log).usage)
    ensures TurnDone(t, Watch(more), outcome) && InOrder(t, more, outcome)
  {
    ReadyToSettle(t, start, Watch(log), s.provider, s.model, Finished(answer), attempted);
    more, outcome := SettleAndAnswer(t, log, answer, s, s.provider);
    OrderHolds(t, more, t.Estimate().value, s, outcome);
    TurnAnswered(t, start, Watch(log), answer, attempted, s.provider, s.model, outcome);
  }

  method SettleBroken(t: Turn, log: seq<Entry>, end: RoundsEnd, s: Settlement,
                      ghost attempted: bool, ghost start: Watched)
    returns (more: seq<Entry>, outcome: Outcome)
    requires PricingOf(s.provider, s.model).Some? && Starting(t, start, attempted, s.provider, s.model)
    requires RoundsEnded(t, s.provider, start, Watch(log), end) && LastTry(t, end, attempted) && !end.Finished?
    requires t.Estimate().Some? && PhaseOf(log) == Running(t.Estimate().value) && s == SettlementOf(t, Refunded, s.provider, s.model, Watch(log).usage)
    ensures TurnDone(t, Watch(more), outcome) && InOrder(t, more, outcome)
  {
    ReadyToSettle(t, start, Watch(log), s.provider, s.model, end, attempted);
    more := Append(log, Settle(s));
    outcome := if end.Closed? then HungUp(false) else Raised;
    OrderHolds(t, more, t.Estimate().value, s, outcome);
    TurnBroken(t, start, Watch(log), end, attempted, s.provider, s.model);
  }

  lemma SettlingRaises(t: Turn, w: Watched, v: Watched, end: RoundsEnd, attempted: bool, p: Provider, model: string)
    requires Starting(t, w, attempted, p, model) && RoundsEnded(t, p, w, v, end) && LastTry(t, end, attempted)
    requires PricingOf(p, model).None?
    ensures TurnDone(t, v, Unsettled)
  {
    EndsWithProvider(t, w, v, end, attempted, p, model);
  }

  method StreamMessage(t: Turn) returns (log: seq<Entry>, outcome: Outcome)
    ensures TurnDone(t, Watch(log), outcome) && InOrder(t, log, outcome)
  {
    var estimate := t.Estimate();
    if estimate.None? || !t.granted {
      NothingDone(t);
      return [], Refused;
    }
    log := Append([], Reserve(estimate.value));
    ReadyToStart(t, Watch(log));
    var end, usage, p, model, attempted;
    ghost var start;
    log, end, usage, p, model, attempted, start := RunProviders(t, log);
    if PricingOf(p, model).None? {
      SettlingRaises(t, start, Watch(log), end, attempted, p, model);
      return log, Unsettled;
    }
    if end.Finished? {
      log, outcome := SettleAnswered(t, log, end.answer, SettlementOf(t, Reconciled, p, model, usage), attempted, start);
    } else {
      log, outcome := SettleBroken(t, log, end, SettlementOf(t, Refunded, p, model, usage), attempted, start);
    }
  }
}
