/**
  Chat turns and the budget ledger together: what the turns of one customer do to the ledger, in any
  interleaving.
*/
module TurnLedger {
  import opened Wrappers
  import opened Pricing
  import opened Budget
  import C = ChatTurn
  import TurnOutcome

  // The usage event a settlement records; the turns here settle at a priced model.
  function EventOf(workspace: string, s: C.Settlement): UsageEvent {
    var cost := EstimateCostCents(s.provider, s.model, s.usage.input, s.usage.output);
    UsageEvent(workspace, s.provider, s.model, s.estimate, if cost.Some? then cost.value else 0, s.status)
  }

  // What the ledger sees of a turn.
  function LedgerSteps(turn: nat, workspace: string, log: seq<C.Entry>): seq<Step> {
    if log == [] then []
    else
      var last, before := log[|log| - 1], LedgerSteps(turn, workspace, log[..|log| - 1]);
      if last.Reserve? then before + [Open(turn, last.estimate)]
      else if last.Settle? then before + [Close(turn, EventOf(workspace, last.settlement))]
      else before
  }

  lemma {:induction false} PhaseTellsSteps(turn: nat, workspace: string, log: seq<C.Entry>)
    ensures match C.PhaseOf(log)
      case Idle => LedgerSteps(turn, workspace, log) == []
      case Running(estimate) => LedgerSteps(turn, workspace, log) == [Open(turn, estimate)]
      case Over(estimate, s) => LedgerSteps(turn, workspace, log) == [Open(turn, estimate), Close(turn, EventOf(workspace, s))]
      case Disordered => true
  {
    if log != [] { PhaseTellsSteps(turn, workspace, log[..|log| - 1]); }
  }

  // A usage event for these tokens at this provider and model, at the price nearest to the exact one.
  predicate IsBilled(e: UsageEvent, workspace: string, provider: Provider, model: string, usage: C.Usage) {
    && e.workspace == workspace && e.provider == provider && e.model == model
    && PricingOf(provider, model).Some?
    && var p := PricingOf(provider, model).value;
       IsNearestCents(usage.input * p.input + usage.output * p.output, e.actual)
  }

  lemma EventIsBilled(workspace: string, s: C.Settlement)
    requires PricingOf(s.provider, s.model).Some?
    ensures IsBilled(EventOf(workspace, s), workspace, s.provider, s.model, s.usage)
  {
    CostCentsIff(PricingOf(s.provider, s.model).value, s.usage.input, s.usage.output, EventOf(workspace, s).actual);
  }

  // A turn that reserves opens once and closes once, with the same estimate, whatever way it ends, for the
  // tokens it used at the provider and model it ended with, and as REFUNDED exactly when it did not end
  // normally.  The exception is a turn whose settling raises,
  // because the model it fell back to has no price: it never closes.
  lemma TurnOpensAndCloses(turn: nat, workspace: string, t: C.Turn, log: seq<C.Entry>, o: C.Outcome)
    requires C.TurnDone(t, C.Watch(log), o) && C.InOrder(t, log, o) && !o.Refused?
    ensures t.Estimate().Some?
    ensures var e := t.Estimate().value;
      var steps := LedgerSteps(turn, workspace, log);
      && |steps| == (if o.Unsettled? then 1 else 2) && steps[0] == Open(turn, e)
      && (!o.Unsettled? ==>
            && steps[1].Close? && steps[1].turn == turn && steps[1].event.estimated == e
            && (steps[1].event.status == Refunded <==> !C.IsNormal(o))
            && IsBilled(steps[1].event, workspace, C.LastChoice(t).0, C.LastChoice(t).1, C.Watch(log).usage))
  {
    PhaseTellsSteps(turn, workspace, log);
    if !o.Unsettled? { EventIsBilled(workspace, C.Watch(log).settled[0]); }
  }

  // The least positive number of three-character tokens that cover the history.
  predicate IsInputEstimate(chars: nat, tokens: nat) {
    tokens >= 1 && 3 * tokens >= chars && (tokens == 1 || 3 * (tokens - 1) < chars)
  }

  predicate IsRoundPrice(t: C.Turn, one: nat, tokens: nat) {
    && PricingOf(t.provider, t.model).Some? && IsInputEstimate(t.historyChars, tokens)
    && var p := PricingOf(t.provider, t.model).value;
       IsNearestCents(tokens * p.input + t.maxOutputTokens * p.output, one)
  }

  // What a turn reserves: the price of one round, for every round it may take, unless that is above the
  // ceiling of a DEEP request.
  lemma EstimateIff(t: C.Turn, estimate: nat)
    ensures t.Estimate() == Some(estimate) <==>
        && (exists one: nat, tokens: nat :: IsRoundPrice(t, one, tokens) && estimate == one * t.rounds)
        && (t.deepCeiling.Some? ==> estimate <= t.deepCeiling.value)
  {
    var tokens := EstimateInputTokensFromChars(t.historyChars);
    InputTokensIff(t.historyChars, tokens);
    if t.RoundCents().Some? {
      var one := t.RoundCents().value;
      CostCentsIff(PricingOf(t.provider, t.model).value, tokens, t.maxOutputTokens, one);
      assert IsRoundPrice(t, one, tokens);
      forall other, more | IsRoundPrice(t, other, more)
        ensures other == one
      {
        InputTokensIff(t.historyChars, more);
        CostCentsIff(PricingOf(t.provider, t.model).value, tokens, t.maxOutputTokens, other);
      }
    }
  }

  // The hypothesis on real usage: the turn's own provider, and no more tokens than its rounds were
  // estimated at.
  ghost predicate AsEstimated(t: C.Turn, s: C.Settlement) {
    && (s.provider, s.model) == (t.provider, t.model)
    && s.usage.input <= t.rounds * EstimateInputTokensFromChars(t.historyChars)
    && s.usage.output <= t.rounds * t.maxOutputTokens
  }

  lemma SettlementWithinEstimate(workspace: string, t: C.Turn, s: C.Settlement)
    requires t.Estimate() == Some(s.estimate) && AsEstimated(t, s)
    ensures WithinEstimate(t.rounds, EventOf(workspace, s))
  {
    var p := PricingOf(t.provider, t.model).value;
    var input := EstimateInputTokensFromChars(t.historyChars);
    TurnOvershoot(p, input, t.maxOutputTokens, t.rounds, s.usage.input, s.usage.output);
    assert EventOf(workspace, s).actual == CostCents(p, s.usage.input, s.usage.output);
    assert s.estimate == CostCents(p, input, t.maxOutputTokens) * t.rounds;
  }

  // Such a turn costs at most (rounds + 1) / 2 cents above what it reserved.
  lemma TurnWithinEstimate(turn: nat, workspace: string, t: C.Turn, log: seq<C.Entry>, o: C.Outcome)
    requires C.TurnDone(t, C.Watch(log), o) && C.InOrder(t, log, o) && !o.Refused? && !o.Unsettled?
    requires AsEstimated(t, C.Watch(log).settled[0])
    ensures var steps := LedgerSteps(turn, workspace, log);
      |steps| == 2 && steps[1].Close? && WithinEstimate(t.rounds, steps[1].event)
  {
    PhaseTellsSteps(turn, workspace, log);
    SettlementWithinEstimate(workspace, t, C.Watch(log).settled[0]);
  }

  // ---------- Interleaved turns ----------

  function StepsOf(turn: nat, steps: seq<Step>): seq<Step> {
    if steps == [] then []
    else (if steps[0].turn == turn then [steps[0]] else []) + StepsOf(turn, steps[1..])
  }

  // Every step took effect: reservations that were refused are not steps of a turn.
  ghost predicate Effective(cap: nat, s: State, steps: seq<Step>)
    decreases |steps|
  {
    steps == [] || (Next(cap, s, steps[0]) != s && Effective(cap, Next(cap, s, steps[0]), steps[1..]))
  }

  predicate IsOpen(open: seq<OpenTurn>, turn: nat) { IndexOf(open, turn) < |open| }

  ghost predicate Distinct(open: seq<OpenTurn>) {
    forall i, j :: 0 <= i < j < |open| ==> open[i].turn != open[j].turn
  }

  lemma {:induction false} IndexOfFirst(open: seq<OpenTurn>, turn: nat)
    ensures forall i :: 0 <= i < IndexOf(open, turn) ==> open[i].turn != turn
  {
    if open != [] && open[0].turn != turn {
      IndexOfFirst(open[1..], turn);
      assert forall i :: 0 < i < |open| ==> open[i] == open[1..][i - 1];
    }
  }

  lemma IsOpenIff(open: seq<OpenTurn>, turn: nat)
    ensures IsOpen(open, turn) <==> exists i :: 0 <= i < |open| && open[i].turn == turn
  {
    IndexOfFirst(open, turn);
  }

  lemma StepOpensOrCloses(cap: nat, s: State, step: Step, turn: nat)
    requires Distinct(s.open) && Next(cap, s, step) != s
    ensures Distinct(Next(cap, s, step).open)
    ensures IsOpen(Next(cap, s, step).open, turn) == if step.turn == turn then step.Open? else IsOpen(s.open, turn)
  {
    var s' := Next(cap, s, step);
    IsOpenIff(s.open, turn);
    IsOpenIff(s.open, step.turn);
    IsOpenIff(s'.open, turn);
    var i := IndexOf(s.open, step.turn);
    if step.Open? {
      assert s'.open[|s.open|] == OpenTurn(step.turn, step.estimate);
      assert forall k :: 0 <= k < |s.open| ==> s'.open[k] == s.open[k];
    } else {
      assert forall k :: 0 <= k < i ==> s'.open[k] == s.open[k];
      assert forall k :: i <= k < |s'.open| ==> s'.open[k] == s.open[k + 1];
      assert forall k :: i < k < |s.open| ==> s'.open[k - 1] == s.open[k];
    }
  }

  lemma {:induction false} OpenAfter(cap: nat, s: State, steps: seq<Step>, turn: nat)
    requires Distinct(s.open) && Effective(cap, s, steps)
    ensures var mine := StepsOf(turn, steps);
      IsOpen(Run(cap, s, steps).open, turn) == if mine == [] then IsOpen(s.open, turn) else mine[|mine| - 1].Open?
    decreases |steps|
  {
    if steps != [] {
      StepOpensOrCloses(cap, s, steps[0], turn);
      OpenAfter(cap, Next(cap, s, steps[0]), steps[1..], turn);
    }
  }

  // A turn is over for the ledger when it closed after it opened.
  ghost predicate Completed(steps: seq<Step>, turn: nat) {
    var mine := StepsOf(turn, steps);
    mine == [] || mine[|mine| - 1].Close?
  }

  // Once every turn has settled nothing stays reserved: reserved_cents is exactly zero, and what the
  // month cost is exactly what the usage events say, in any interleaving.
  lemma NothingStaysReserved(cap: nat, steps: seq<Step>)
    requires Effective(cap, Init(), steps) && forall turn: nat :: Completed(steps, turn)
    ensures var s := Run(cap, Init(), steps);
      s.open == [] && s.books.reserved == 0 && s.books.actual == SumActual(s.books.events)
  {
    var s := Run(cap, Init(), steps);
    LedgerMatchesTurns(cap, steps);
    forall turn: nat
      ensures !IsOpen(s.open, turn)
    {
      OpenAfter(cap, Init(), steps, turn);
      assert Completed(steps, turn);
    }
    assert s.open != [] ==> IsOpen(s.open, s.open[0].turn);
  }

  // ---------- The turns of stream_message together ----------

  // A turn of stream_message: what it was given, what it did and how it ended.
  datatype Played = Played(workspace: string, t: C.Turn, log: seq<C.Entry>, o: C.Outcome)

  ghost predicate IsPlayed(x: Played) {
    C.TurnDone(x.t, C.Watch(x.log), x.o) && C.InOrder(x.t, x.log, x.o)
  }

  // A turn that raises before its first chunk fails the request, and the request's transaction with it.
  predicate RolledBack(x: Played) { (x.o.Raised? || x.o.Unsettled?) && C.Watch(x.log).yielded == 0 }

  // A reservation that is never given back.
  predicate StaysOpen(x: Played) { x.o.Unsettled? && !RolledBack(x) }

  // What a turn asks of the ledger, as committed: a turn the budget refused has asked to reserve, in vain.
  function Asked(turn: nat, x: Played): seq<Step> {
    if RolledBack(x) then []
    else if x.o.Refused? && x.t.Estimate().Some? then [Open(turn, x.t.Estimate().value)]
    else LedgerSteps(turn, x.workspace, x.log)
  }

  function AskedBy(turns: map<nat, Played>, turn: nat): seq<Step> {
    if turn in turns then Asked(turn, turns[turn]) else []
  }

  // Every turn was told what the ledger said: granted exactly when the estimate fitted the cap.
  ghost predicate GrantsAgree(cap: nat, turns: map<nat, Played>, s: State, steps: seq<Step>)
    decreases |steps|
  {
    steps == [] ||
    (&& (steps[0].Open? && steps[0].turn in turns ==> turns[steps[0].turn].t.granted == MayReserve(s.books, steps[0].estimate, cap))
     && GrantsAgree(cap, turns, Next(cap, s, steps[0]), steps[1..]))
  }

  // The steps are the turns' own, interleaved in any way.
  ghost predicate Interleaves(turns: map<nat, Played>, steps: seq<Step>) {
    && (forall turn :: turn in turns ==> IsPlayed(turns[turn]))
    && (forall turn: nat :: StepsOf(turn, steps) == AskedBy(turns, turn))
  }

  predicate Holds(open: seq<OpenTurn>, turn: nat, estimate: nat) {
    IsOpen(open, turn) && open[IndexOf(open, turn)].estimate == estimate
  }

  // What a turn still has to ask, given whether it is open.
  ghost predicate Ahead(x: Played, turn: nat, open: seq<OpenTurn>, mine: seq<Step>) {
    if RolledBack(x) then !IsOpen(open, turn) && mine == []
    else if x.o.Refused? then
      !IsOpen(open, turn) && (mine == [] || (!x.t.granted && |mine| == 1 && mine[0].Open? && mine[0].turn == turn))
    else if x.o.Unsettled? then
      if IsOpen(open, turn) then mine == [] else x.t.granted && |mine| == 1 && mine[0].Open? && mine[0].turn == turn
    else if IsOpen(open, turn) then
      |mine| == 1 && mine[0].Close? && mine[0].turn == turn && Holds(open, turn, mine[0].event.estimated)
    else
      mine == [] ||
      (x.t.granted && |mine| == 2 && mine[0].Open? && mine[0].turn == turn
       && mine[1].Close? && mine[1].turn == turn && mine[1].event.estimated == mine[0].estimate)
  }

  ghost predicate AheadOf(turns: map<nat, Played>, turn: nat, open: seq<OpenTurn>, mine: seq<Step>) {
    if turn in turns then Ahead(turns[turn], turn, open, mine) else !IsOpen(open, turn) && mine == []
  }

  lemma HoldsIff(open: seq<OpenTurn>, turn: nat, estimate: nat)
    requires Distinct(open)
    ensures Holds(open, turn, estimate) <==> OpenTurn(turn, estimate) in open
  {
    IsOpenIff(open, turn);
    if OpenTurn(turn, estimate) in open {
      var i :| 0 <= i < |open| && open[i] == OpenTurn(turn, estimate);
      assert open[IndexOf(open, turn)].turn == turn;
    }
  }

  lemma OthersHold(cap: nat, s: State, step: Step, turn: nat, estimate: nat)
    requires Distinct(s.open) && Next(cap, s, step) != s && step.turn != turn
    ensures Holds(Next(cap, s, step).open, turn, estimate) <==> Holds(s.open, turn, estimate)
  {
    var s' := Next(cap, s, step);
    StepOpensOrCloses(cap, s, step, turn);
    HoldsIff(s.open, turn, estimate);
    HoldsIff(s'.open, turn, estimate);
    if step.Close? {
      var i := IndexOf(s.open, step.turn);
      assert s.open == s.open[..i] + [s.open[i]] + s.open[i + 1..];
    }
  }

  // A step of another turn.
  lemma OthersAhead(cap: nat, s: State, step: Step, turn: nat, x: Played, mine: seq<Step>)
    requires Distinct(s.open) && Next(cap, s, step) != s && step.turn != turn
    requires Ahead(x, turn, s.open, mine)
    ensures Ahead(x, turn, Next(cap, s, step).open, mine)
  {
    StepOpensOrCloses(cap, s, step, turn);
    if |mine| == 1 && mine[0].Close? { OthersHold(cap, s, step, turn, mine[0].event.estimated); }
  }

  // A turn's own next step: it opens if it was granted, and then closes what it opened.
  lemma OwnAhead(cap: nat, s: State, turn: nat, x: Played, mine: seq<Step>)
    requires Distinct(s.open) && mine != [] && Ahead(x, turn, s.open, mine)
    requires mine[0].Open? ==> x.t.granted == MayReserve(s.books, mine[0].estimate, cap)
    ensures Distinct(Next(cap, s, mine[0]).open) && Ahead(x, turn, Next(cap, s, mine[0]).open, mine[1..])
  {
    var s' := Next(cap, s, mine[0]);
    Progresses(cap, s, turn, x, mine);
    if s' != s {
      StepOpensOrCloses(cap, s, mine[0], turn);
      if mine[0].Open? {
        assert s'.open[|s.open|] == OpenTurn(turn, mine[0].estimate);
        HoldsIff(s'.open, turn, mine[0].estimate);
      }
    }
  }

  lemma Progresses(cap: nat, s: State, turn: nat, x: Played, mine: seq<Step>)
    requires mine != [] && Ahead(x, turn, s.open, mine)
    requires mine[0].Open? ==> x.t.granted == MayReserve(s.books, mine[0].estimate, cap)
    ensures Next(cap, s, mine[0]) == s <==> x.o.Refused?
  {
    if mine[0].Open? && !x.o.Refused? { assert Next(cap, s, mine[0]).open != s.open; }
    if mine[0].Close? { assert |Next(cap, s, mine[0]).open| < |s.open|; }
  }

  lemma StepKeepsAhead(cap: nat, turns: map<nat, Played>, s: State, steps: seq<Step>, turn: nat)
    requires steps != [] && Distinct(s.open)
    requires AheadOf(turns, turn, s.open, StepsOf(turn, steps))
    requires AheadOf(turns, steps[0].turn, s.open, StepsOf(steps[0].turn, steps))
    requires steps[0].Open? && steps[0].turn in turns ==>
      turns[steps[0].turn].t.granted == MayReserve(s.books, steps[0].estimate, cap)
    ensures Distinct(Next(cap, s, steps[0]).open)
    ensures AheadOf(turns, turn, Next(cap, s, steps[0]).open, StepsOf(turn, steps[1..]))
  {
    var u := steps[0].turn;
    var mine := StepsOf(u, steps);
    assert mine[0] == steps[0] && mine[1..] == StepsOf(u, steps[1..]);
    OwnAhead(cap, s, u, turns[u], mine);
    if turn != u && Next(cap, s, steps[0]) != s {
      StepOpensOrCloses(cap, s, steps[0], turn);
      if turn in turns { OthersAhead(cap, s, steps[0], turn, turns[turn], StepsOf(turn, steps)); }
    }
  }

  lemma {:induction false} TurnsProgress(cap: nat, turns: map<nat, Played>, s: State, steps: seq<Step>)
    requires Distinct(s.open) && GrantsAgree(cap, turns, s, steps)
    requires forall turn: nat :: AheadOf(turns, turn, s.open, StepsOf(turn, steps))
    ensures forall turn: nat :: AheadOf(turns, turn, Run(cap, s, steps).open, [])
    decreases |steps|
  {
    if steps != [] {
      var s' := Next(cap, s, steps[0]);
      assert AheadOf(turns, steps[0].turn, s.open, StepsOf(steps[0].turn, steps));
      forall turn: nat
        ensures Distinct(s'.open) && AheadOf(turns, turn, s'.open, StepsOf(turn, steps[1..]))
      {
        assert AheadOf(turns, turn, s.open, StepsOf(turn, steps));
        StepKeepsAhead(cap, turns, s, steps, turn);
      }
      assert Distinct(s'.open) by { StepKeepsAhead(cap, turns, s, steps, steps[0].turn); }
      TurnsProgress(cap, turns, s', steps[1..]);
    } else {
      forall turn: nat
        ensures AheadOf(turns, turn, s.open, [])
      {
        assert AheadOf(turns, turn, s.open, StepsOf(turn, steps));
      }
    }
  }

  lemma AheadAtFirst(turn: nat, x: Played)
    requires IsPlayed(x)
    ensures Ahead(x, turn, [], Asked(turn, x))
  {
    if x.o.Refused? {
      assert LedgerSteps(turn, x.workspace, []) == [];
    } else if !RolledBack(x) {
      TurnOpensAndCloses(turn, x.workspace, x.t, x.log, x.o);
    }
  }

  // However the turns of a customer interleave: when all have ended, the only reservations left are those
  // of turns whose settling raised after they had begun, and what the month cost is what its usage events
  // say.
  lemma TurnsLeaveNothingReserved(cap: nat, turns: map<nat, Played>, steps: seq<Step>)
    requires Interleaves(turns, steps) && GrantsAgree(cap, turns, Init(), steps)
    ensures var s := Run(cap, Init(), steps);
      && (forall turn: nat :: IsOpen(s.open, turn) <==> turn in turns && StaysOpen(turns[turn]))
      && s.books.actual == SumActual(s.books.events)
      && ((forall turn :: turn in turns ==> !StaysOpen(turns[turn])) ==> s.open == [] && s.books.reserved == 0)
  {
    var s := Run(cap, Init(), steps);
    forall turn: nat
      ensures AheadOf(turns, turn, Init().open, StepsOf(turn, steps))
    {
      if turn in turns { AheadAtFirst(turn, turns[turn]); }
    }
    TurnsProgress(cap, turns, Init(), steps);
    LedgerMatchesTurns(cap, steps);
    forall turn: nat
      ensures IsOpen(s.open, turn) <==> turn in turns && StaysOpen(turns[turn])
    {
      assert AheadOf(turns, turn, s.open, []);
    }
    assert s.open != [] ==> IsOpen(s.open, s.open[0].turn);
  }

  lemma {:induction false} OwnSteps(steps: seq<Step>, i: nat)
    requires i < |steps|
    ensures steps[i] in StepsOf(steps[i].turn, steps)
  {
    if i > 0 { OwnSteps(steps[1..], i - 1); }
  }

  // And at every moment of it the spending is within the bound, if the turns that settle keep to the
  // tokens their rounds were estimated at.
  lemma TurnsStayNearCap(cap: nat, rounds: nat, turns: map<nat, Played>, steps: seq<Step>, k: nat)
    requires Interleaves(turns, steps) && k <= |steps|
    requires forall turn :: turn in turns ==>
      var x := turns[turn];
      x.t.rounds == rounds && (x.o.Refused? || x.o.Unsettled? || (|C.Watch(x.log).settled| == 1 && AsEstimated(x.t, C.Watch(x.log).settled[0])))
    ensures var s := Run(cap, Init(), steps[..k]);
      2 * (s.books.reserved + s.books.actual) <= 2 * cap + s.width * (rounds + 1)
  {
    forall i | 0 <= i < k && steps[i].Close?
      ensures WithinEstimate(rounds, steps[i].event)
    {
      var turn := steps[i].turn;
      OwnSteps(steps, i);
      assert StepsOf(turn, steps) == AskedBy(turns, turn);
      SettledWithin(turn, turns[turn], steps[i]);
    }
    OvershootBounded(cap, rounds, steps[..k]);
  }

  lemma SettledWithin(turn: nat, x: Played, step: Step)
    requires IsPlayed(x) && step in Asked(turn, x) && step.Close?
    requires x.o.Refused? || x.o.Unsettled? || (|C.Watch(x.log).settled| == 1 && AsEstimated(x.t, C.Watch(x.log).settled[0]))
    ensures WithinEstimate(x.t.rounds, step.event)
  {
    if !x.o.Refused? && !RolledBack(x) {
      var mine := LedgerSteps(turn, x.workspace, x.log);
      TurnOpensAndCloses(turn, x.workspace, x.t, x.log, x.o);
      OneClose(mine, step);
      TurnWithinEstimate(turn, x.workspace, x.t, x.log, x.o);
    }
  }

  lemma OneClose(mine: seq<Step>, step: Step)
    requires step in mine && step.Close? && 1 <= |mine| <= 2 && mine[0].Open?
    ensures |mine| == 2 && step == mine[1]
  {
  }

  // ---------- Turns that are refused ----------

  lemma {:induction false} GrantAt(cap: nat, turns: map<nat, Played>, s: State, steps: seq<Step>, i: nat)
    requires GrantsAgree(cap, turns, s, steps) && i < |steps| && steps[i].Open? && steps[i].turn in turns
    ensures var books := Run(cap, s, steps[..i]).books;
      turns[steps[i].turn].t.granted <==> books.reserved + books.actual + steps[i].estimate <= cap
    decreases |steps|
  {
    if i == 0 {
      assert steps[..0] == [];
    } else {
      GrantAt(cap, turns, Next(cap, s, steps[0]), steps[1..], i - 1);
      assert steps[..i] == [steps[0]] + steps[1..][..i - 1] && steps[..i][1..] == steps[1..][..i - 1];
    }
  }

  lemma {:induction false} FoundAt(turn: nat, steps: seq<Step>, step: Step) returns (i: nat)
    requires step in StepsOf(turn, steps)
    ensures i < |steps| && steps[i] == step
  {
    if steps[0].turn == turn && step == steps[0] { return 0; }
    i := FoundAt(turn, steps[1..], step);
    i := i + 1;
  }

  ghost predicate NoRoomAt(cap: nat, steps: seq<Step>, i: nat, turn: nat, estimate: nat) {
    && i < |steps| && steps[i] == Open(turn, estimate)
    && var books := Run(cap, Init(), steps[..i]).books;
       books.reserved + books.actual + estimate > cap
  }

  // A turn that has an estimate is refused only when, at the moment it asked, what was reserved and spent left
  // no room for its estimate.
  lemma RefusedForLackOfRoom(cap: nat, turns: map<nat, Played>, steps: seq<Step>, turn: nat)
    requires Interleaves(turns, steps) && GrantsAgree(cap, turns, Init(), steps)
    requires turn in turns && turns[turn].o.Refused? && turns[turn].t.Estimate().Some?
    ensures exists i: nat :: NoRoomAt(cap, steps, i, turn, turns[turn].t.Estimate().value)
  {
    var estimate := turns[turn].t.Estimate().value;
    assert StepsOf(turn, steps) == AskedBy(turns, turn) == [Open(turn, estimate)];
    var i := FoundAt(turn, steps, Open(turn, estimate));
    GrantAt(cap, turns, Init(), steps, i);
    assert NoRoomAt(cap, steps, i, turn, estimate);
  }

  // ---------- One turn at a time ----------

  // reserve_budget keeps the ledger row locked until the request's transaction ends, so the turns of one
  // customer that reserve do so one after the other: their steps follow each other turn by turn.
  function InTurn(turns: map<nat, Played>, order: seq<nat>): seq<Step> {
    if order == [] then [] else AskedBy(turns, order[0]) + InTurn(turns, order[1..])
  }

  // Nothing, a reservation, or a reservation and its settlement.
  ghost predicate IsBlock(steps: seq<Step>) {
    || steps == []
    || (|steps| == 1 && steps[0].Open?)
    || (|steps| == 2 && steps[0].Open? && steps[1].Close?)
  }

  lemma AskedIsBlock(turn: nat, x: Played)
    requires IsPlayed(x)
    ensures IsBlock(Asked(turn, x))
  {
    if x.o.Refused? {
      assert LedgerSteps(turn, x.workspace, []) == [];
    } else {
      TurnOpensAndCloses(turn, x.workspace, x.t, x.log, x.o);
    }
  }

  // At most one settlement since the last reservation that was granted.
  ghost predicate Prompt(s: State) { s.settled <= 1 }

  // A settlement in a block answers a reservation that took effect.
  ghost predicate ClosesIfOpened(cap: nat, s: State, block: seq<Step>) {
    |block| == 2 ==> Next(cap, s, block[0]) != s
  }

  // A new turn, told what the ledger said when it asked.
  ghost predicate Told(cap: nat, turns: map<nat, Played>, s: State, turn: nat) {
    && !IsOpen(s.open, turn)
    && (turn in turns && turns[turn].t.Estimate().Some? ==>
          turns[turn].t.granted == MayReserve(s.books, turns[turn].t.Estimate().value, cap))
  }

  lemma ToldOpens(cap: nat, turns: map<nat, Played>, s: State, turn: nat)
    requires turn in turns ==> IsPlayed(turns[turn])
    requires Told(cap, turns, s, turn)
    ensures IsBlock(AskedBy(turns, turn)) && ClosesIfOpened(cap, s, AskedBy(turns, turn))
  {
    if turn in turns {
      var x := turns[turn];
      AskedIsBlock(turn, x);
      if |Asked(turn, x)| == 2 {
        TurnOpensAndCloses(turn, x.workspace, x.t, x.log, x.o);
        assert |Next(cap, s, Asked(turn, x)[0]).open| == |s.open| + 1;
      }
    }
  }

  lemma BlockKeepsPrompt(cap: nat, s: State, block: seq<Step>, k: nat)
    requires Prompt(s) && IsBlock(block) && ClosesIfOpened(cap, s, block) && k <= |block|
    ensures Prompt(Run(cap, s, block[..k]))
  {
    if k == 1 {
      assert block[..1][1..] == [] && block[..1][0] == block[0];
    } else if k == 2 {
      var s1 := Next(cap, s, block[0]);
      assert block[..2][1..] == [block[1]] && block[..2][0] == block[0] && [block[1]][1..] == [];
      assert Run(cap, s, block[..2]) == Run(cap, s1, [block[1]]) == Next(cap, s1, block[1]);
    }
  }

  lemma {:induction false} RunSplits(cap: nat, s: State, a: seq<Step>, b: seq<Step>)
    ensures Run(cap, s, a + b) == Run(cap, Run(cap, s, a), b)
    decreases |a|
  {
    if a == [] {
      assert a + b == b;
    } else {
      assert (a + b)[1..] == a[1..] + b;
      RunSplits(cap, Next(cap, s, a[0]), a[1..], b);
    }
  }

  ghost predicate Served(cap: nat, turns: map<nat, Played>, s: State, order: seq<nat>)
    decreases |order|
  {
    order == [] ||
    (Told(cap, turns, s, order[0]) && Served(cap, turns, Run(cap, s, AskedBy(turns, order[0])), order[1..]))
  }

  lemma PrefixOfTwo(cap: nat, s: State, block: seq<Step>, rest: seq<Step>, k: nat)
    requires k <= |block + rest|
    ensures k <= |block| ==> (block + rest)[..k] == block[..k]
    ensures k > |block| ==> Run(cap, s, (block + rest)[..k]) == Run(cap, Run(cap, s, block), rest[..k - |block|])
  {
    if k > |block| {
      assert (block + rest)[..k] == block + rest[..k - |block|];
      RunSplits(cap, s, block, rest[..k - |block|]);
    }
  }

  ghost predicate AllPlayed(turns: map<nat, Played>) { forall turn :: turn in turns ==> IsPlayed(turns[turn]) }

  // Turn after turn, each a block whose settlement answers a reservation that took effect.
  ghost predicate InBlocks(cap: nat, turns: map<nat, Played>, s: State, order: seq<nat>)
    decreases |order|
  {
    order == [] ||
    (&& IsBlock(AskedBy(turns, order[0])) && ClosesIfOpened(cap, s, AskedBy(turns, order[0]))
     && InBlocks(cap, turns, Run(cap, s, AskedBy(turns, order[0])), order[1..]))
  }

  lemma {:induction false} ServedInBlocks(cap: nat, turns: map<nat, Played>, s: State, order: seq<nat>)
    requires AllPlayed(turns) && Served(cap, turns, s, order)
    ensures InBlocks(cap, turns, s, order)
    decreases |order|
  {
    if order != [] {
      ToldOpens(cap, turns, s, order[0]);
      ServedInBlocks(cap, turns, Run(cap, s, AskedBy(turns, order[0])), order[1..]);
    }
  }

  lemma {:induction false} InTurnKeepsPrompt(cap: nat, turns: map<nat, Played>, s: State, order: seq<nat>, k: nat)
    requires Prompt(s) && InBlocks(cap, turns, s, order) && k <= |InTurn(turns, order)|
    ensures Prompt(Run(cap, s, InTurn(turns, order)[..k]))
    decreases |order|
  {
    if order == [] {
      assert InTurn(turns, order)[..k] == [];
    } else {
      var block, rest := AskedBy(turns, order[0]), InTurn(turns, order[1..]);
      PrefixOfTwo(cap, s, block, rest, k);
      BlockKeepsPrompt(cap, s, block, if k <= |block| then k else |block|);
      assert block[..|block|] == block;
      if k > |block| { InTurnKeepsPrompt(cap, turns, Run(cap, s, block), order[1..], k - |block|); }
    }
  }

  // So spending passes the cap by at most (rounds + 1) / 2 cents, however many turns there are.
  lemma SerialTurnsStayNearCap(cap: nat, rounds: nat, turns: map<nat, Played>, order: seq<nat>, k: nat)
    requires AllPlayed(turns) && Served(cap, turns, Init(), order) && k <= |InTurn(turns, order)|
    requires AllWithinEstimate(rounds, InTurn(turns, order))
    ensures var s := Run(cap, Init(), InTurn(turns, order)[..k]);
      2 * (s.books.reserved + s.books.actual) <= 2 * cap + rounds + 1
  {
    var steps := InTurn(turns, order)[..k];
    ServedInBlocks(cap, turns, Init(), order);
    InTurnKeepsPrompt(cap, turns, Init(), order, k);
    assert AllWithinEstimate(rounds, steps);
    RunKeepsNearCap(cap, rounds, Init(), steps);
    var s := Run(cap, Init(), steps);
    MulMonotone(rounds + 1, s.settled, 1);
  }

  // ---------- A turn that does not settle ----------

  ghost predicate NeverSettles(t: C.Turn) {
    forall w, o :: C.TurnDone(t, w, o) ==> o.Unsettled? && w.yielded > 0
  }

  // One that has begun does exist: every call fails after an empty piece of text, and the fallback's model
  // has no price.
  lemma SettlingCanRaise()
    ensures exists t: C.Turn :: NeverSettles(t)
  {
    var call := C.GatewayCall([C.TextDelta("")], C.TransientError);
    var t := C.Turn(1, OpenAI, "gpt-5-mini", 0, 0, None, true, k => call, Some((Gemini, "unpriced")),
                    c => None, c => "", None);
    EmptyTextOnly(call.events);
    Unpriced();
    assert C.FallsBack(t);
    forall w, o | C.TurnDone(t, w, o)
      ensures o.Unsettled? && w.yielded > 0
    {
      BegunYields(t, w, o);
    }
    assert NeverSettles(t);
  }

  lemma Unpriced()
    ensures PricingOf(Gemini, "unpriced").None?
  {
    assert "unpriced"[0] == 'u' && "gemini-3.1-flash-lite"[0] == 'g';
  }

  lemma EmptyTextOnly(events: seq<C.GatewayEvent>)
    requires events == [C.TextDelta("")]
    ensures C.TextLeft(events) == "" && C.ToolsIn(events) == [] && C.YieldsOf(events) == 1
  {
    assert events[..0] == [];
  }

  // A turn that fell back has yielded what its first call did.
  lemma BegunYields(t: C.Turn, w: C.Watched, o: C.Outcome)
    requires C.TurnDone(t, w, o) && !o.Refused? && C.FallsBack(t) && C.YieldsOf(t.gateway(0).events) > 0
    ensures w.yielded > 0
  {
    var v, way := TurnOutcome.WayOf(t, w, o);
    assert C.YieldsUpTo(t, 1) == C.YieldsUpTo(t, 0) + C.YieldsOf(t.gateway(0).events);
    TurnOutcome.YieldsUpToGrows(t, 1, v.calls);
    if way.ByHangUp? {
      TurnOutcome.CutYields(t, C.LastChoice(t).0, 1, v);
    } else {
      TurnOutcome.AtLeastYields(t, C.LastChoice(t).0, 1, v, way);
    }
  }
}
