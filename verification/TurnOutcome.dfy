/**
  What a chat turn does is determined by its inputs: the contract of stream_message admits one way to end
  and one result.
*/
module TurnOutcome {
  import opened Wrappers
  import opened Pricing
  import opened Budget
  import opened ChatTurn

  datatype Way = ByAnswer | ByError | ByHangUp

  // How the rounds that began with the call `from` ended.
  ghost predicate EndedBy(t: Turn, p: Provider, from: nat, v: Watched, way: Way) {
    && from <= v.calls <= from + t.rounds && AllGoOn(t, from, v.calls - 1)
    && match way
       case ByAnswer => WasAnswered(t, p, from, v) && !HasClosed(t, v.yielded)
       case ByError => WasBroken(t, p, from, v) && !HasClosed(t, v.yielded)
       case ByHangUp => WasCut(t, p, from, v)
  }

  lemma {:induction false} YieldsUpToGrows(t: Turn, m: nat, n: nat)
    requires m <= n
    ensures YieldsUpTo(t, m) <= YieldsUpTo(t, n)
  {
    if m < n { YieldsUpToGrows(t, m, n - 1); }
  }

  // A piece of text counts.
  lemma YieldsAtText(events: seq<GatewayEvent>, seen: nat)
    requires StopsAtText(events, seen)
    ensures YieldsOf(events[..seen]) == YieldsOf(events[..seen - 1]) + 1
  {
    assert events[..seen][..seen - 1] == events[..seen - 1];
  }

  // So the yields so far tell at which piece of text the client hung up.
  lemma SeenUnique(events: seq<GatewayEvent>, a: nat, b: nat)
    requires StopsAtText(events, a) && StopsAtText(events, b) && YieldsOf(events[..a]) == YieldsOf(events[..b])
    ensures a == b
  {
    YieldsAtText(events, a);
    YieldsAtText(events, b);
    if a < b { FewerYields(events, a, b - 1); }
    if b < a { FewerYields(events, b, a - 1); }
  }

  lemma FewerYields(events: seq<GatewayEvent>, a: nat, b: nat)
    requires a <= b <= |events|
    ensures YieldsOf(events[..a]) <= YieldsOf(events[..b])
  {
    YieldsGrow(events[..b], a);
    assert events[..b][..a] == events[..a];
  }

  lemma InCallYields(t: Turn, b: Watched, v: Watched)
    requires CutInCall(t, b, v)
    ensures b.yielded < v.yielded <= b.yielded + YieldsOf(t.gateway(b.calls).events)
  {
    var events := t.gateway(b.calls).events;
    var seen :| PartHeard(t, b, v, seen);
    YieldsAtText(events, seen);
    YieldsGrow(events, seen);
  }

  // How many yields there have been when rounds end with the k-th call.
  lemma CutYields(t: Turn, p: Provider, from: nat, v: Watched)
    requires WasCut(t, p, from, v)
    ensures var k, b := v.calls - 1, BeforeCall(t, p, from, v.calls - 1);
      && YieldsUpTo(t, k) < v.yielded
      && (CutInCall(t, b, v) ==> v.yielded <= YieldsUpTo(t, k + 1))
      && (CutAtNotice(t, p, b, v) ==> v.yielded == YieldsUpTo(t, k + 1) + 1)
  {
    var b := BeforeCall(t, p, from, v.calls - 1);
    if CutInCall(t, b, v) { InCallYields(t, b, v); }
  }

  lemma AtLeastYields(t: Turn, p: Provider, from: nat, v: Watched, way: Way)
    requires EndedBy(t, p, from, v, way) && !way.ByHangUp?
    ensures YieldsUpTo(t, v.calls) <= v.yielded
  {
    if way.ByAnswer? { AnswerCounts(t, p, from, v); }
  }

  // What an ending tells about the client and about its last call.
  ghost predicate Tell(t: Turn, from: nat, calls: nat, hungUp: bool) {
    && from <= calls <= from + t.rounds && AllGoOn(t, from, calls - 1)
    && (if hungUp then calls > from && t.closeAt.Some? && YieldsUpTo(t, calls - 1) <= t.closeAt.value
        else !HasClosed(t, YieldsUpTo(t, calls)))
    && (calls < from + t.rounds ==>
          calls > from && (!GoesOn(t, calls - 1) || (hungUp && HasClosed(t, YieldsUpTo(t, calls)))))
  }

  lemma AnswerTells(t: Turn, p: Provider, from: nat, v: Watched)
    requires EndedBy(t, p, from, v, ByAnswer)
    ensures Tell(t, from, v.calls, false)
  {
  }

  lemma ErrorTells(t: Turn, p: Provider, from: nat, v: Watched)
    requires EndedBy(t, p, from, v, ByError)
    ensures Tell(t, from, v.calls, false)
  {
  }

  lemma HangUpTells(t: Turn, p: Provider, from: nat, v: Watched)
    requires EndedBy(t, p, from, v, ByHangUp)
    ensures Tell(t, from, v.calls, true)
  {
    CutYields(t, p, from, v);
  }

  lemma EndTells(t: Turn, p: Provider, from: nat, v: Watched, way: Way)
    requires EndedBy(t, p, from, v, way)
    ensures Tell(t, from, v.calls, way.ByHangUp?)
  {
    match way
    case ByAnswer => AnswerTells(t, p, from, v);
    case ByError => ErrorTells(t, p, from, v);
    case ByHangUp => HangUpTells(t, p, from, v);
  }

  // No ending goes past the last call of another.
  lemma NotLater(t: Turn, from: nat, m: nat, n: nat, x: bool, y: bool)
    requires Tell(t, from, m, x) && Tell(t, from, n, y)
    ensures n <= m
  {
    GoesOnBefore(t, from, m, n);
    if m < n {
      YieldsUpToGrows(t, m, n - 1);
      YieldsUpToGrows(t, m, n);
    }
  }

  lemma GoesOnBefore(t: Turn, from: nat, m: nat, n: nat)
    requires AllGoOn(t, from, n - 1)
    ensures from < m < n ==> GoesOn(t, m - 1)
  {
  }

  // Whether the last call of an answered turn proposed an action.
  predicate LastProposes(t: Turn, from: nat, calls: nat) {
    calls > from && !GoesOn(t, calls - 1) && ToolsIn(t.gateway(calls - 1).events) != []
  }

  lemma AnswerLast(t: Turn, p: Provider, from: nat, v: Watched)
    requires WasAnswered(t, p, from, v)
    ensures from <= v.calls
    ensures if v.calls == from || GoesOn(t, v.calls - 1) then v.proposals == 0 && v.yielded == YieldsUpTo(t, v.calls)
      else AnswerShape(t, v.calls - 1, v.yielded - YieldsUpTo(t, v.calls - 1), v.proposals)
  {
  }

  lemma AnswerSums(t: Turn, p: Provider, from: nat, v: Watched)
    requires WasAnswered(t, p, from, v)
    ensures v.usage == UsedUpTo(t, v.calls) && v.spoken == SpokenUpTo(t, v.calls)
    ensures v.saved == Conversation(t, p, from, v.calls) && v.finals == 1
  {
  }

  lemma AnswerCounts(t: Turn, p: Provider, from: nat, v: Watched)
    requires WasAnswered(t, p, from, v)
    ensures var proposed := if LastProposes(t, from, v.calls) then 1 else 0;
      v.proposals == proposed && v.yielded == YieldsUpTo(t, v.calls) + proposed
  {
    AnswerLast(t, p, from, v);
  }

  lemma NoticeIsProposed(t: Turn, p: Provider, from: nat, v: Watched)
    requires from < v.calls && CutAtNotice(t, p, BeforeCall(t, p, from, v.calls - 1), v)
    ensures LastProposes(t, from, v.calls)
  {
  }

  // A client that hung up during the last call did not see it through, and one that hung up at the notice
  // of a proposed action got the notice.
  lemma HangUpIsNotAnswer(t: Turn, p: Provider, from: nat, a: Watched, b: Watched)
    requires WasCut(t, p, from, a) && WasAnswered(t, p, from, b) && a.calls == b.calls
    ensures HasClosed(t, b.yielded)
  {
    CutYields(t, p, from, a);
    AnswerCounts(t, p, from, b);
    if CutAtNotice(t, p, BeforeCall(t, p, from, a.calls - 1), a) { NoticeIsProposed(t, p, from, a); }
  }

  lemma HangUpIsNotError(t: Turn, p: Provider, from: nat, a: Watched, b: Watched)
    requires WasCut(t, p, from, a) && WasBroken(t, p, from, b) && a.calls == b.calls
    ensures HasClosed(t, b.yielded)
  {
    CutYields(t, p, from, a);
  }

  // Whether a call is one that breaks a turn.
  predicate IsBreaking(t: Turn, k: nat) {
    var c := t.gateway(k);
    !c.end.Ended? || (FirstWrite(ToolsIn(c.events)).Some? && t.proposal(FirstWrite(ToolsIn(c.events)).value).None?)
  }

  lemma AnswerIsNotBreaking(t: Turn, p: Provider, from: nat, v: Watched)
    requires WasAnswered(t, p, from, v) && from < v.calls
    ensures !IsBreaking(t, v.calls - 1)
  {
    AnswerLast(t, p, from, v);
  }

  lemma ErrorIsBreaking(t: Turn, p: Provider, from: nat, v: Watched)
    requires WasBroken(t, p, from, v)
    ensures from < v.calls && IsBreaking(t, v.calls - 1)
  {
  }

  lemma AnswerIsNotError(t: Turn, p: Provider, from: nat, a: Watched, b: Watched)
    requires WasAnswered(t, p, from, a) && a.calls == b.calls
    ensures !WasBroken(t, p, from, b)
  {
    if WasBroken(t, p, from, b) {
      ErrorIsBreaking(t, p, from, b);
      AnswerIsNotBreaking(t, p, from, a);
    }
  }

  lemma SameWay(t: Turn, p: Provider, from: nat, a: Watched, x: Way, b: Watched, y: Way)
    requires EndedBy(t, p, from, a, x) && EndedBy(t, p, from, b, y) && a.calls == b.calls
    ensures x == y || x.ByHangUp? || y.ByHangUp?
    ensures x.ByHangUp? ==> y.ByHangUp?
  {
    match (x, y)
    case (ByHangUp, ByAnswer) => HangUpIsNotAnswer(t, p, from, a, b);
    case (ByHangUp, ByError) => HangUpIsNotError(t, p, from, a, b);
    case (ByAnswer, ByError) => AnswerIsNotError(t, p, from, a, b);
    case (ByError, ByAnswer) => AnswerIsNotError(t, p, from, b, a);
    case _ =>
  }

  lemma BothInCall(t: Turn, b: Watched, v: Watched, w: Watched)
    requires CutInCall(t, b, v) && CutInCall(t, b, w) && v.yielded == w.yielded && v.calls == w.calls
    ensures SameSight(v, w)
  {
    var m :| PartHeard(t, b, v, m);
    var n :| PartHeard(t, b, w, n);
    SeenUnique(t.gateway(b.calls).events, m, n);
  }

  lemma BothAtNotice(t: Turn, p: Provider, b: Watched, v: Watched, w: Watched)
    requires CutAtNotice(t, p, b, v) && CutAtNotice(t, p, b, w) && v.calls == w.calls
    ensures SameSight(v, w)
  {
  }

  // Which of the two it was is told by the yields.
  lemma CutKind(t: Turn, p: Provider, from: nat, v: Watched)
    requires WasCut(t, p, from, v)
    ensures var b := BeforeCall(t, p, from, v.calls - 1);
      if v.yielded <= YieldsUpTo(t, v.calls) then CutInCall(t, b, v) else CutAtNotice(t, p, b, v)
  {
    CutYields(t, p, from, v);
  }

  lemma SameCut(t: Turn, p: Provider, from: nat, a: Watched, b: Watched)
    requires WasCut(t, p, from, a) && WasCut(t, p, from, b) && a.calls == b.calls
    ensures SameSight(a, b)
  {
    CutKind(t, p, from, a);
    CutKind(t, p, from, b);
    assert a.yielded == b.yielded;
    SameCutKind(t, p, BeforeCall(t, p, from, a.calls - 1), a, b);
  }

  lemma SameCutKind(t: Turn, p: Provider, b: Watched, v: Watched, w: Watched)
    requires v.yielded == w.yielded && v.calls == w.calls
    requires (CutInCall(t, b, v) && CutInCall(t, b, w)) || (CutAtNotice(t, p, b, v) && CutAtNotice(t, p, b, w))
    ensures SameSight(v, w)
  {
    if CutInCall(t, b, v) && CutInCall(t, b, w) { BothInCall(t, b, v, w); } else { BothAtNotice(t, p, b, v, w); }
  }

  lemma SameAnswer(t: Turn, p: Provider, from: nat, a: Watched, b: Watched)
    requires WasAnswered(t, p, from, a) && WasAnswered(t, p, from, b) && a.calls == b.calls
    ensures SameSight(a, b)
  {
    AnswerSums(t, p, from, a);
    AnswerSums(t, p, from, b);
    AnswerCounts(t, p, from, a);
    AnswerCounts(t, p, from, b);
  }

  lemma SameError(t: Turn, p: Provider, from: nat, a: Watched, b: Watched)
    requires WasBroken(t, p, from, a) && WasBroken(t, p, from, b) && a.calls == b.calls
    ensures SameSight(a, b)
  {
  }

  lemma SameEnd(t: Turn, p: Provider, from: nat, a: Watched, x: Way, b: Watched, y: Way)
    requires EndedBy(t, p, from, a, x) && EndedBy(t, p, from, b, y)
    ensures x == y && SameSight(a, b)
  {
    EndTells(t, p, from, a, x);
    EndTells(t, p, from, b, y);
    NotLater(t, from, a.calls, b.calls, x.ByHangUp?, y.ByHangUp?);
    NotLater(t, from, b.calls, a.calls, y.ByHangUp?, x.ByHangUp?);
    SameWay(t, p, from, a, x, b, y);
    SameWay(t, p, from, b, y, a, x);
    match x
    case ByAnswer => SameAnswer(t, p, from, a, b);
    case ByError => SameError(t, p, from, a, b);
    case ByHangUp => SameCut(t, p, from, a, b);
  }

  // ---------- Whole turns ----------

  // How the rounds of a turn ended, whatever its outcome.
  lemma WayOf(t: Turn, w: Watched, o: Outcome) returns (v: Watched, way: Way)
    requires TurnDone(t, w, o) && !o.Refused?
    ensures EndedBy(t, LastChoice(t).0, FirstCall(t), v, way)
    ensures v == if IsNormal(o) then BeforeDone(w) else w
    ensures !o.Unsettled? ==> (way.ByAnswer? <==> IsNormal(o)) && (way.ByError? <==> o.Raised?)
  {
    v := if IsNormal(o) then BeforeDone(w) else w;
    var from, p := FirstCall(t), LastChoice(t).0;
    way := if WasAnswered(t, p, from, v) && !HasClosed(t, v.yielded) then ByAnswer
           else if WasBroken(t, p, from, v) && !HasClosed(t, v.yielded) then ByError
           else ByHangUp;
  }

  // Any two logs the contract of stream_message admits for the same inputs end in the same way, make the
  // same calls, bill and say the same, leave the same conversation, and settle alike.
  lemma TurnDetermined(t: Turn, w1: Watched, o1: Outcome, w2: Watched, o2: Outcome)
    requires TurnDone(t, w1, o1) && TurnDone(t, w2, o2)
    ensures o1 == o2
    ensures SameSight(w1, w2) && w1.reserved == w2.reserved && w1.settled == w2.settled && w1.dones == w2.dones
  {
    if !o1.Refused? {
      var v1, x := WayOf(t, w1, o1);
      var v2, y := WayOf(t, w2, o2);
      SameEnd(t, LastChoice(t).0, FirstCall(t), v1, x, v2, y);
      SameOutcome(t, w1, o1, w2, o2, v1, v2, x);
    }
  }

  lemma SameOutcome(t: Turn, w1: Watched, o1: Outcome, w2: Watched, o2: Outcome, v1: Watched, v2: Watched, x: Way)
    requires TurnDone(t, w1, o1) && TurnDone(t, w2, o2) && !o1.Refused? && SameSight(v1, v2)
    requires v1 == (if IsNormal(o1) then BeforeDone(w1) else w1) && v2 == (if IsNormal(o2) then BeforeDone(w2) else w2)
    requires !o1.Unsettled? ==> (x.ByAnswer? <==> IsNormal(o1)) && (x.ByError? <==> o1.Raised?)
    requires !o2.Unsettled? ==> (x.ByAnswer? <==> IsNormal(o2)) && (x.ByError? <==> o2.Raised?)
    ensures o1 == o2
    ensures SameSight(w1, w2) && w1.reserved == w2.reserved && w1.settled == w2.settled && w1.dones == w2.dones
  {
    TurnShape(t, w1, o1);
    TurnShape(t, w2, o2);
  }

  // What a turn has besides the way it ended.
  lemma TurnShape(t: Turn, w: Watched, o: Outcome)
    requires TurnDone(t, w, o) && !o.Refused?
    ensures t.Estimate().Some? && w.reserved == [t.Estimate().value]
    ensures w.dones == (if IsNormal(o) then 1 else 0) && (IsNormal(o) ==> w.yielded > 0)
    ensures w.settled == if o.Unsettled? then []
      else [Settlement(if IsNormal(o) then Reconciled else Refunded, LastChoice(t).0, LastChoice(t).1, w.usage, t.Estimate().value)]
    ensures IsNormal(o) ==> (o.HungUp? <==> t.closeAt == Some(w.yielded - 1))
  {
  }
}
