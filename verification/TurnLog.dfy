/**
  What the watched counts of a turn mean, told of the log's entries themselves, and what a settlement
  bills, told of the gateway's events themselves.
*/
module TurnLog {
  import opened Wrappers
  import opened Pricing
  import opened ChatTurn

  // ---------- The tokens of a list of events ----------

  function InputOf(events: seq<GatewayEvent>): nat {
    if events == [] then 0
    else InputOf(events[..|events| - 1]) + if events[|events| - 1].Completed? then events[|events| - 1].usage.input else 0
  }

  function OutputOf(events: seq<GatewayEvent>): nat {
    if events == [] then 0
    else OutputOf(events[..|events| - 1]) + if events[|events| - 1].Completed? then events[|events| - 1].usage.output else 0
  }

  function InputUpTo(t: Turn, n: nat): nat { if n == 0 then 0 else InputUpTo(t, n - 1) + InputOf(t.gateway(n - 1).events) }

  function OutputUpTo(t: Turn, n: nat): nat { if n == 0 then 0 else OutputUpTo(t, n - 1) + OutputOf(t.gateway(n - 1).events) }

  lemma {:induction false} UsedIsCompleted(events: seq<GatewayEvent>)
    ensures UsedBy(events) == Usage(InputOf(events), OutputOf(events))
  {
    if events != [] { UsedIsCompleted(events[..|events| - 1]); }
  }

  lemma {:induction false} UsedUpToIsCompleted(t: Turn, n: nat)
    ensures UsedUpTo(t, n) == Usage(InputUpTo(t, n), OutputUpTo(t, n))
  {
    if n > 0 {
      UsedUpToIsCompleted(t, n - 1);
      UsedIsCompleted(t.gateway(n - 1).events);
    }
  }

  // The n-th call was heard up to `seen`, and the calls before it to their end.
  predicate IsUsageOf(t: Turn, n: nat, seen: nat, u: Usage)
    requires n > 0 && seen <= |t.gateway(n - 1).events|
  {
    var heard := t.gateway(n - 1).events[..seen];
    u.input == InputUpTo(t, n - 1) + InputOf(heard) && u.output == OutputUpTo(t, n - 1) + OutputOf(heard)
  }

  // The chunk at which the client hung up is the last of those yielded.
  predicate HungUpAt(t: Turn, n: nat, seen: nat)
    requires n > 0 && seen <= |t.gateway(n - 1).events|
  {
    t.closeAt == Some(YieldsUpTo(t, n - 1) + YieldsOf(t.gateway(n - 1).events[..seen]) - 1)
  }

  ghost predicate IsSettledUsage(t: Turn, n: nat, o: Outcome, seen: nat, u: Usage) {
    && n > 0 && seen <= |t.gateway(n - 1).events| && IsUsageOf(t, n, seen, u)
    && (seen == |t.gateway(n - 1).events| || (o == HungUp(false) && HungUpAt(t, n, seen)))
  }

  // A turn settles the input and the output tokens its calls report: all of them, but for what the last
  // call reports after the chunk at which the client hung up.
  lemma SettledTokens(t: Turn, w: Watched, o: Outcome)
    requires TurnDone(t, w, o) && !o.Refused? && !o.Unsettled?
    ensures |w.settled| == 1
    ensures var u := w.settled[0].usage;
      if w.calls == 0 then u == Usage(0, 0) else exists seen :: IsSettledUsage(t, w.calls, o, seen, u)
  {
    if w.calls > 0 { SettledOfLastCall(t, w, o); } else { assert Heard(t, w); }
  }

  lemma AllHeard(t: Turn, n: nat, o: Outcome, u: Usage)
    requires n > 0 && u == UsedUpTo(t, n)
    ensures IsSettledUsage(t, n, o, |t.gateway(n - 1).events|, u)
  {
    var events := t.gateway(n - 1).events;
    UsedUpToIsCompleted(t, n);
    assert events[..|events|] == events;
  }

  lemma HeardOrCut(t: Turn, w: Watched, o: Outcome)
    requires EndsLike(t, w, o) && !o.Refused? && !o.Unsettled?
    ensures Heard(t, w) || (o == HungUp(false) && WasCut(t, LastChoice(t).0, FirstCall(t), w))
  {
    if IsNormal(o) { assert Heard(t, BeforeDone(w)); }
  }

  lemma PartIsSettled(t: Turn, b: Watched, w: Watched, seen: nat)
    requires PartHeard(t, b, w, seen) && t.closeAt == Some(w.yielded - 1)
    requires b.usage == UsedUpTo(t, b.calls) && b.yielded == YieldsUpTo(t, b.calls)
    ensures IsSettledUsage(t, b.calls + 1, HungUp(false), seen, w.usage)
  {
    UsedUpToIsCompleted(t, b.calls);
    UsedIsCompleted(t.gateway(b.calls).events[..seen]);
  }

  lemma PartOfLastCall(t: Turn, p: Provider, from: nat, w: Watched)
    requires WasCut(t, p, from, w) && !Heard(t, w)
    ensures exists seen :: IsSettledUsage(t, w.calls, HungUp(false), seen, w.usage)
  {
    var b := BeforeCall(t, p, from, w.calls - 1);
    var seen: nat :| PartHeard(t, b, w, seen);
    PartIsSettled(t, b, w, seen);
  }

  lemma SettledOfLastCall(t: Turn, w: Watched, o: Outcome)
    requires EndsLike(t, w, o) && !o.Refused? && !o.Unsettled? && w.calls > 0
    ensures exists seen :: IsSettledUsage(t, w.calls, o, seen, w.usage)
  {
    if Heard(t, w) {
      AllHeard(t, w.calls, o, w.usage);
    } else {
      HeardOrCut(t, w, o);
      PartOfLastCall(t, LastChoice(t).0, FirstCall(t), w);
    }
  }

  // ---------- What the counts count ----------

  function Where(log: seq<Entry>, p: Entry -> bool): set<nat> { set i: nat | i < |log| && p(log[i]) }

  lemma WhereSnoc(log: seq<Entry>, p: Entry -> bool)
    requires log != []
    ensures |Where(log, p)| == |Where(log[..|log| - 1], p)| + if p(log[|log| - 1]) then 1 else 0
  {
    var n := |log| - 1;
    assert Where(log, p) == Where(log[..n], p) + if p(log[n]) then {n} else {};
  }

  const IsCall: Entry -> bool := (e: Entry) => e.Call?
  const IsProposal: Entry -> bool := (e: Entry) => e.Propose?
  const IsFinal: Entry -> bool := (e: Entry) => e.Persist? && e.message.kind.FinalMessage?
  const IsDone: Entry -> bool := (e: Entry) => e.Yield? && e.chunk.Done?
  const IsYield: Entry -> bool := (e: Entry) => e.Yield?

  lemma Counted(w: Watched, e: Entry)
    ensures var v := Observe(w, e);
      && v.calls == w.calls + (if IsCall(e) then 1 else 0) && v.proposals == w.proposals + (if IsProposal(e) then 1 else 0)
      && v.finals == w.finals + (if IsFinal(e) then 1 else 0) && v.dones == w.dones + (if IsDone(e) then 1 else 0)
      && v.yielded == w.yielded + (if IsYield(e) then 1 else 0)
  {
  }

  lemma {:induction false} CountsAreCounts(log: seq<Entry>)
    ensures var w := Watch(log);
      && w.calls == |Where(log, IsCall)| && w.proposals == |Where(log, IsProposal)| && w.finals == |Where(log, IsFinal)|
      && w.dones == |Where(log, IsDone)| && w.yielded == |Where(log, IsYield)|
  {
    if log != [] {
      CountsAreCounts(log[..|log| - 1]);
      Counted(Watch(log[..|log| - 1]), log[|log| - 1]);
      WhereSnoc(log, IsCall);
      WhereSnoc(log, IsProposal);
      WhereSnoc(log, IsFinal);
      WhereSnoc(log, IsDone);
      WhereSnoc(log, IsYield);
    }
  }

  // Text that is not empty, a notice, or a saved message of the assistant.
  predicate Speaks(e: Entry, p: Provider) {
    || (e.Yield? && e.provider == p && (e.chunk.ToolStatus? || (e.chunk.Text? && e.chunk.text != "")))
    || (e.Persist? && e.message.provider == Some(p))
  }

  lemma {:induction false} SpeakersSpeak(log: seq<Entry>, p: Provider)
    ensures p in Watch(log).speakers <==> exists i :: 0 <= i < |log| && Speaks(log[i], p)
  {
    if log != [] {
      var n := |log| - 1;
      SpeakersSpeak(log[..n], p);
      assert log == log[..n] + [log[n]];
    }
  }

  predicate CalledAfterProposal(log: seq<Entry>) {
    exists i, j :: 0 <= i < j < |log| && log[i].Propose? && log[j].Call?
  }

  lemma {:induction false} ProposalsSeen(log: seq<Entry>)
    ensures Watch(log).proposals > 0 <==> exists i :: 0 <= i < |log| && log[i].Propose?
    ensures Watch(log).callAfterProposal <==> CalledAfterProposal(log)
  {
    if log != [] {
      var n := |log| - 1;
      ProposalsSeen(log[..n]);
      assert log == log[..n] + [log[n]];
    }
  }

  // A call to another provider than the call before it.
  predicate SwitchesAt(log: seq<Entry>, i: nat) {
    && i < |log| && log[i].Call?
    && exists j :: 0 <= j < i && LastCallBefore(log, i, j) && log[j].provider != log[i].provider
  }

  predicate LastCallBefore(log: seq<Entry>, i: nat, j: nat) {
    j < i <= |log| && log[j].Call? && forall k :: j < k < i ==> !log[k].Call?
  }

  function SwitchesIn(log: seq<Entry>): set<nat> { set i: nat | i < |log| && SwitchesAt(log, i) }

  lemma LastCallKept(log: seq<Entry>, j: nat)
    requires log != [] && !log[|log| - 1].Call?
    ensures LastCallBefore(log, |log|, j) <==> LastCallBefore(log[..|log| - 1], |log| - 1, j)
  {
  }

  lemma LastCallNow(log: seq<Entry>, j: nat)
    requires log != [] && log[|log| - 1].Call?
    ensures LastCallBefore(log, |log|, j) <==> j == |log| - 1
  {
  }

  // The provider of the call before, if there was one.
  ghost predicate IsCurrent(log: seq<Entry>, current: Option<Provider>) {
    && (current.Some? <==> exists j: nat :: LastCallBefore(log, |log|, j))
    && forall j: nat :: LastCallBefore(log, |log|, j) ==> current == Some(log[j].provider)
  }

  lemma {:induction false} CurrentIsLast(log: seq<Entry>)
    ensures IsCurrent(log, Watch(log).current)
  {
    if log != [] {
      var n := |log| - 1;
      CurrentIsLast(log[..n]);
      if log[n].Call? {
        forall j: nat ensures LastCallBefore(log, |log|, j) <==> j == n { LastCallNow(log, j); }
        assert LastCallBefore(log, |log|, n);
      } else {
        forall j: nat ensures LastCallBefore(log, |log|, j) <==> LastCallBefore(log[..n], n, j) { LastCallKept(log, j); }
      }
    }
  }

  lemma SwitchSnoc(log: seq<Entry>)
    requires log != []
    ensures var n := |log| - 1;
      var w := Watch(log[..n]);
      SwitchesAt(log, n) <==> log[n].Call? && w.current.Some? && w.current != Some(log[n].provider)
  {
    var n := |log| - 1;
    CurrentIsLast(log[..n]);
    assert forall j: nat :: LastCallBefore(log, n, j) <==> LastCallBefore(log[..n], n, j);
  }

  lemma SwitchesKept(log: seq<Entry>, n: nat, i: nat)
    requires i < n <= |log|
    ensures SwitchesAt(log, i) <==> SwitchesAt(log[..n], i)
  {
    assert forall j: nat :: LastCallBefore(log, i, j) <==> LastCallBefore(log[..n], i, j);
  }

  lemma SwitchesGrow(log: seq<Entry>)
    requires log != []
    ensures var n := |log| - 1;
      |SwitchesIn(log)| == |SwitchesIn(log[..n])| + if SwitchesAt(log, n) then 1 else 0
  {
    var n := |log| - 1;
    forall i: nat | i < n ensures SwitchesAt(log, i) <==> SwitchesAt(log[..n], i) { SwitchesKept(log, n, i); }
    assert SwitchesIn(log) == SwitchesIn(log[..n]) + if SwitchesAt(log, n) then {n} else {};
  }

  lemma {:induction false} SwitchesCounted(log: seq<Entry>)
    ensures Watch(log).switches == |SwitchesIn(log)|
  {
    if log == [] {
      assert SwitchesIn(log) == {};
    } else {
      SwitchesCounted(log[..|log| - 1]);
      SwitchSnoc(log);
      SwitchesGrow(log);
    }
  }

  // ---------- The order of a turn ----------

  predicate IsPlain(e: Entry) { !e.Reserve? && !e.Settle? && !IsDone(e) }

  predicate Opened(log: seq<Entry>, estimate: nat) {
    log != [] && log[0] == Reserve(estimate) && forall i :: 0 < i < |log| ==> IsPlain(log[i])
  }

  predicate SettledAt(log: seq<Entry>, estimate: nat, s: Settlement, m: nat) {
    && m < |log| && log[m] == Settle(s) && Opened(log[..m], estimate)
    && forall i :: m < i < |log| ==> IsDone(log[i])
  }

  lemma {:induction false} PhaseTells(log: seq<Entry>)
    ensures PhaseOf(log).Idle? <==> log == []
    ensures PhaseOf(log).Running? ==> Opened(log, PhaseOf(log).estimate)
    ensures PhaseOf(log).Over? ==> exists m: nat :: SettledAt(log, PhaseOf(log).estimate, PhaseOf(log).settlement, m)
  {
    if log != [] {
      var n := |log| - 1;
      PhaseTells(log[..n]);
      if PhaseOf(log[..n]).Running? && PhaseOf(log).Over? {
        assert SettledAt(log, PhaseOf(log).estimate, PhaseOf(log).settlement, n);
      } else if PhaseOf(log[..n]).Over? && PhaseOf(log).Over? {
        var m: nat :| SettledAt(log[..n], PhaseOf(log).estimate, PhaseOf(log).settlement, m);
        assert log[..n][..m] == log[..m];
        assert SettledAt(log, PhaseOf(log).estimate, PhaseOf(log).settlement, m);
      }
    }
  }

  predicate LastPersisted(log: seq<Entry>, n: nat, j: nat) {
    j < n <= |log| && log[j].Persist? && forall k :: j < k < n ==> !log[k].Persist?
  }

  predicate SavedLast(log: seq<Entry>, saved: seq<Saved>, j: nat) { LastPersisted(log, |log|, j) && IsLast(log[j].message, saved) }

  lemma {:induction false} SavedAreLogged(log: seq<Entry>)
    requires Watch(log).saved != []
    ensures exists j: nat :: SavedLast(log, Watch(log).saved, j)
  {
    var n := |log| - 1;
    if log[n].Persist? {
      assert SavedLast(log, Watch(log).saved, n);
    } else {
      SavedAreLogged(log[..n]);
      var j: nat :| SavedLast(log[..n], Watch(log[..n]).saved, j);
      assert SavedLast(log, Watch(log).saved, j);
    }
  }

  predicate SettlesAt(log: seq<Entry>, k: nat) { k < |log| && log[k].Settle? }

  lemma {:induction false} SettledAreLogged(log: seq<Entry>)
    requires Watch(log).settled != []
    ensures exists k: nat :: SettlesAt(log, k)
  {
    var n := |log| - 1;
    if log[n].Settle? {
      assert SettlesAt(log, n);
    } else {
      SettledAreLogged(log[..n]);
      var k: nat :| SettlesAt(log[..n], k);
      assert SettlesAt(log, k);
    }
  }

  // A done chunk with the message saved last, after the settlement.
  predicate DoneProperly(log: seq<Entry>, i: nat, j: nat, k: nat) {
    && i < |log| && LastPersisted(log, i, j) && k < i && log[k].Settle?
    && log[i].Yield? && log[i].chunk == Done(Some(log[j].message))
  }

  lemma DoneAtEnd(log: seq<Entry>, w: Watched)
    requires log != [] && IsDone(log[|log| - 1]) && w == Watch(log[..|log| - 1]) && Observe(w, log[|log| - 1]).properDone
    ensures exists i: nat, j: nat, k: nat :: DoneProperly(log, i, j, k)
  {
    var n := |log| - 1;
    SavedAreLogged(log[..n]);
    SettledAreLogged(log[..n]);
    var j: nat :| SavedLast(log[..n], w.saved, j);
    var k: nat :| SettlesAt(log[..n], k);
    assert LastPersisted(log, n, j);
    assert DoneProperly(log, n, j, k);
  }

  lemma DoneBefore(log: seq<Entry>, n: nat, i: nat, j: nat, k: nat)
    requires n <= |log| && DoneProperly(log[..n], i, j, k)
    ensures DoneProperly(log, i, j, k)
  {
    assert LastPersisted(log, i, j);
  }

  lemma {:induction false} DoneIsProper(log: seq<Entry>)
    requires Watch(log).properDone && Watch(log).dones > 0
    ensures exists i: nat, j: nat, k: nat :: DoneProperly(log, i, j, k)
  {
    var n := |log| - 1;
    if IsDone(log[n]) {
      DoneAtEnd(log, Watch(log[..n]));
    } else {
      DoneIsProper(log[..n]);
      var i: nat, j: nat, k: nat :| DoneProperly(log[..n], i, j, k);
      DoneBefore(log, n, i, j, k);
    }
  }

  // ---------- A turn, told of its log ----------

  // No more calls than rounds and one more, no two proposals, no call once there is one, no second switch
  // of provider, and one provider that speaks.
  ghost predicate KeepsBounds(t: Turn, log: seq<Entry>) {
    && |Where(log, IsCall)| <= t.rounds + 1 && |Where(log, IsProposal)| <= 1 && |Where(log, IsFinal)| <= 1
    && !CalledAfterProposal(log) && |SwitchesIn(log)| <= 1
    && forall i, p :: 0 <= i < |log| && Speaks(log[i], p) ==> p == LastChoice(t).0
  }

  lemma TurnKeepsBounds(t: Turn, log: seq<Entry>, o: Outcome)
    requires Bounded(t, Watch(log)) && Watch(log).speakers <= {LastChoice(t).0}
    ensures KeepsBounds(t, log)
  {
    CountsAreCounts(log);
    ProposalsSeen(log);
    SwitchesCounted(log);
    forall i, p | 0 <= i < |log| && Speaks(log[i], p)
      ensures p == LastChoice(t).0
    {
      SpeakersSpeak(log, p);
    }
  }

  // What a turn's log looks like: its reservation, its calls, its settlement, and after that only the done
  // chunk of a turn that ended normally, with the last message saved.
  lemma TurnReads(t: Turn, log: seq<Entry>, o: Outcome)
    requires TurnDone(t, Watch(log), o) && InOrder(t, log, o) && !o.Refused? && !o.Unsettled?
    ensures KeepsBounds(t, log) && t.Estimate().Some?
    ensures exists m: nat :: SettledAt(log, t.Estimate().value, Watch(log).settled[0], m)
    ensures |Where(log, IsDone)| == if IsNormal(o) then 1 else 0
    ensures IsNormal(o) ==> exists i: nat, j: nat, k: nat :: DoneProperly(log, i, j, k)
  {
    TurnKeepsBounds(t, log, o);
    PhaseTells(log);
    CountsAreCounts(log);
    if IsNormal(o) { DoneIsProper(log); }
  }
}
