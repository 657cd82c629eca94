/**
  The monthly AI budget of one customer (backend/src/doda/application/ai_budget_service.py): reserve an
  estimate before a turn, settle it afterwards, and report what was spent.
*/
module Budget {
  import opened Pricing

  datatype UsageStatus = Reconciled | Refunded

  datatype UsageEvent = UsageEvent(workspace: string, provider: Provider, model: string,
                                   estimated: nat, actual: nat, status: UsageStatus)

  // The ledger row of the month, and the usage events of the month.
  datatype Books = Books(reserved: nat, actual: nat, events: seq<UsageEvent>)

  function MayReserve(b: Books, estimate: nat, cap: nat): bool { b.reserved + b.actual + estimate <= cap }

  function Minus(a: nat, b: nat): nat { if a >= b then a - b else 0 }

  function Settled(b: Books, e: UsageEvent): Books {
    Books(Minus(b.reserved, e.estimated), b.actual + e.actual, b.events + [e])
  }

  class Ledger {
    var reservedCents: nat
    var actualCents: nat
    var events: seq<UsageEvent>

    function View(): Books
      reads this
    {
      Books(reservedCents, actualCents, events)
    }

    constructor ()
      ensures View() == Books(0, 0, [])
    {
      reservedCents, actualCents, events := 0, 0, [];
    }

    method ReserveBudget(estimatedCostCents: nat, hardCapCents: nat) returns (granted: bool)
      modifies this`reservedCents
      ensures granted <==> old(reservedCents) + old(actualCents) + estimatedCostCents <= hardCapCents
      ensures granted == MayReserve(old(View()), estimatedCostCents, hardCapCents)
      ensures View() == old(View()).(reserved := old(reservedCents) + if granted then estimatedCostCents else 0)
      ensures granted ==> reservedCents + actualCents <= hardCapCents
    {
      var projectedCents := reservedCents + actualCents + estimatedCostCents;
      if projectedCents > hardCapCents { return false; }
      reservedCents := reservedCents + estimatedCostCents;
      return true;
    }

    method ReconcileBudget(estimatedCostCents: nat, actualCostCents: nat)
      modifies this`reservedCents, this`actualCents
      ensures View() == Books(Minus(old(reservedCents), estimatedCostCents), old(actualCents) + actualCostCents, old(events))
    {
      reservedCents := if reservedCents - estimatedCostCents > 0 then reservedCents - estimatedCostCents else 0;
      actualCents := actualCents + actualCostCents;
    }

    method RecordUsageEvent(e: UsageEvent)
      modifies this`events
      ensures View() == old(View()).(events := old(events) + [e])
    {
      events := events + [e];
    }

    // The two calls every exit of a turn makes.
    method ReconcileAndRecord(e: UsageEvent)
      modifies this
      ensures View() == Settled(old(View()), e)
      ensures reservedCents == if e.estimated <= old(reservedCents) then old(reservedCents) - e.estimated else 0
      ensures actualCents == old(actualCents) + e.actual && events == old(events) + [e]
    {
      ReconcileBudget(e.estimated, e.actual);
      RecordUsageEvent(e);
    }
  }

  // ---------- Turns of one customer, interleaved ----------

  // A turn that has reserved and not settled yet.
  datatype OpenTurn = OpenTurn(turn: nat, estimate: nat)

  // `width` counts the turns open right after the last successful reservation, `settled` the
  // settlements since. History variables.
  datatype State = State(books: Books, open: seq<OpenTurn>, width: nat, settled: nat)

  datatype Step =
    | Open(turn: nat, estimate: nat)
    | Close(turn: nat, event: UsageEvent)

  function Init(): State { State(Books(0, 0, []), [], 0, 0) }

  function IndexOf(open: seq<OpenTurn>, turn: nat): (i: nat)
    ensures i <= |open| && (i < |open| ==> open[i].turn == turn)
  {
    if open == [] then 0 else if open[0].turn == turn then 0 else 1 + IndexOf(open[1..], turn)
  }

  // A turn settles with the estimate it reserved; a turn that is not open cannot settle.
  function Next(cap: nat, s: State, step: Step): State {
    match step
    case Open(turn, estimate) =>
      if IndexOf(s.open, turn) < |s.open| || !MayReserve(s.books, estimate, cap) then s
      else State(s.books.(reserved := s.books.reserved + estimate), s.open + [OpenTurn(turn, estimate)], |s.open| + 1, 0)
    case Close(turn, event) =>
      var i := IndexOf(s.open, turn);
      if i == |s.open| || event.estimated != s.open[i].estimate then s
      else State(Settled(s.books, event), s.open[..i] + s.open[i + 1..], s.width, s.settled + 1)
  }

  function Run(cap: nat, s: State, steps: seq<Step>): State
    decreases |steps|
  {
    if steps == [] then s else Run(cap, Next(cap, s, steps[0]), steps[1..])
  }

  function SumEstimates(open: seq<OpenTurn>): nat {
    if open == [] then 0 else open[0].estimate + SumEstimates(open[1..])
  }

  function SumActual(events: seq<UsageEvent>): nat {
    if events == [] then 0 else SumActual(events[..|events| - 1]) + events[|events| - 1].actual
  }

  lemma {:induction false} SumEstimatesConcat(a: seq<OpenTurn>, b: seq<OpenTurn>)
    ensures SumEstimates(a + b) == SumEstimates(a) + SumEstimates(b)
  {
    if a == [] {
      assert a + b == b;
    } else {
      assert (a + b)[1..] == a[1..] + b;
      SumEstimatesConcat(a[1..], b);
    }
  }

  lemma SumAround(a: seq<OpenTurn>, x: OpenTurn, b: seq<OpenTurn>)
    ensures SumEstimates(a + ([x] + b)) == SumEstimates(a + b) + x.estimate
  {
    SumEstimatesConcat(a, [x] + b);
    SumEstimatesConcat(a, b);
    assert ([x] + b)[1..] == b;
  }

  lemma SumEstimatesWithout(open: seq<OpenTurn>, i: nat)
    requires i < |open|
    ensures SumEstimates(open) == SumEstimates(open[..i] + open[i + 1..]) + open[i].estimate
  {
    assert open == open[..i] + ([open[i]] + open[i + 1..]);
    SumAround(open[..i], open[i], open[i + 1..]);
  }

  // What every interleaving of reservations and settlements keeps.
  ghost predicate Balanced(s: State) {
    && s.books.reserved == SumEstimates(s.open)
    && s.books.actual == SumActual(s.books.events)
    && |s.open| + s.settled == s.width
  }

  lemma SettleIsExact(s: State, turn: nat, event: UsageEvent)
    requires Balanced(s) && IndexOf(s.open, turn) < |s.open|
    requires event.estimated == s.open[IndexOf(s.open, turn)].estimate
    ensures s.books.reserved >= event.estimated  // so the max(0, ...) clamp does not bite
    ensures SumActual(s.books.events + [event]) == SumActual(s.books.events) + event.actual
    ensures var i := IndexOf(s.open, turn);
      SumEstimates(s.open[..i] + s.open[i + 1..]) == s.books.reserved - event.estimated
  {
    SumEstimatesWithout(s.open, IndexOf(s.open, turn));
    assert (s.books.events + [event])[..|s.books.events|] == s.books.events;
  }

  lemma NextKeepsBalanced(cap: nat, s: State, step: Step)
    requires Balanced(s)
    ensures Balanced(Next(cap, s, step))
  {
    match step
    case Open(turn, estimate) =>
      SumEstimatesConcat(s.open, [OpenTurn(turn, estimate)]);
      assert SumEstimates([OpenTurn(turn, estimate)]) == estimate;
    case Close(turn, event) =>
      if Next(cap, s, step) != s { SettleIsExact(s, turn, event); }
  }

  lemma {:induction false} RunKeepsBalanced(cap: nat, s: State, steps: seq<Step>)
    requires Balanced(s)
    ensures Balanced(Run(cap, s, steps))
    decreases |steps|
  {
    if steps != [] {
      NextKeepsBalanced(cap, s, steps[0]);
      RunKeepsBalanced(cap, Next(cap, s, steps[0]), steps[1..]);
    }
  }

  // reserved_cents is what the open turns reserved, actual_cents what the recorded events cost, and the
  // clamp at zero is never needed.
  lemma LedgerMatchesTurns(cap: nat, steps: seq<Step>)
    ensures var s := Run(cap, Init(), steps);
      && s.books.reserved == SumEstimates(s.open)
      && s.books.actual == SumActual(s.books.events)
      && forall turn, event :: Next(cap, s, Close(turn, event)) != s ==> s.books.reserved >= event.estimated
  {
    RunKeepsBalanced(cap, Init(), steps);
    var s := Run(cap, Init(), steps);
    forall turn, event | Next(cap, s, Close(turn, event)) != s
      ensures s.books.reserved >= event.estimated
    {
      SettleIsExact(s, turn, event);
    }
  }

  // ---------- How far the cap can be overshot ----------

  // The hypothesis on real usage: no turn costs more than (rounds + 1) / 2 cents above its estimate
  // (Pricing.TurnOvershoot says when that is so).
  ghost predicate WithinEstimate(rounds: nat, e: UsageEvent) {
    2 * e.actual <= 2 * e.estimated + rounds + 1
  }

  ghost predicate AllWithinEstimate(rounds: nat, steps: seq<Step>) {
    forall i :: 0 <= i < |steps| && steps[i].Close? ==> WithinEstimate(rounds, steps[i].event)
  }

  ghost predicate NearCap(cap: nat, rounds: nat, s: State) {
    2 * (s.books.reserved + s.books.actual) <= 2 * cap + s.settled * (rounds + 1)
  }

  lemma MulSucc(a: nat, b: nat)
    ensures (a + 1) * b == a * b + b
  {
  }

  lemma CloseTotals(cap: nat, s: State, turn: nat, event: UsageEvent)
    requires Balanced(s) && Next(cap, s, Close(turn, event)) != s
    ensures var s' := Next(cap, s, Close(turn, event));
      && s'.books.reserved + s'.books.actual + event.estimated == s.books.reserved + s.books.actual + event.actual
      && s'.settled == s.settled + 1
  {
    SettleIsExact(s, turn, event);
  }

  lemma CloseKeepsNearCap(cap: nat, rounds: nat, s: State, turn: nat, event: UsageEvent)
    requires Balanced(s) && NearCap(cap, rounds, s) && WithinEstimate(rounds, event)
    requires Next(cap, s, Close(turn, event)) != s
    ensures NearCap(cap, rounds, Next(cap, s, Close(turn, event)))
  {
    CloseTotals(cap, s, turn, event);
    MulSucc(s.settled, rounds + 1);
  }

  lemma NextKeepsNearCap(cap: nat, rounds: nat, s: State, step: Step)
    requires Balanced(s) && NearCap(cap, rounds, s)
    requires step.Close? ==> WithinEstimate(rounds, step.event)
    ensures NearCap(cap, rounds, Next(cap, s, step))
  {
    if step.Close? {
      if Next(cap, s, step) != s { CloseKeepsNearCap(cap, rounds, s, step.turn, step.event); }
    } else if Next(cap, s, step) != s {
      assert Next(cap, s, step).settled * (rounds + 1) == 0;
    }
  }

  lemma {:induction false} RunKeepsNearCap(cap: nat, rounds: nat, s: State, steps: seq<Step>)
    requires Balanced(s) && NearCap(cap, rounds, s) && AllWithinEstimate(rounds, steps)
    ensures NearCap(cap, rounds, Run(cap, s, steps))
    decreases |steps|
  {
    if steps != [] {
      NextKeepsBalanced(cap, s, steps[0]);
      NextKeepsNearCap(cap, rounds, s, steps[0]);
      assert forall i :: 0 <= i < |steps[1..]| ==> steps[1..][i] == steps[i + 1];
      RunKeepsNearCap(cap, rounds, Next(cap, s, steps[0]), steps[1..]);
    }
  }

  // Spending never passes the hard cap by more than (rounds + 1) / 2 cents for each of the k turns that
  // were open at the last successful reservation; right after a reservation it is within the cap.
  lemma OvershootBounded(cap: nat, rounds: nat, steps: seq<Step>)
    requires AllWithinEstimate(rounds, steps)
    ensures var s := Run(cap, Init(), steps);
      && 2 * (s.books.reserved + s.books.actual) <= 2 * cap + s.width * (rounds + 1)
      && (s.settled == 0 ==> s.books.reserved + s.books.actual <= cap)
  {
    RunKeepsBalanced(cap, Init(), steps);
    RunKeepsNearCap(cap, rounds, Init(), steps);
    var s := Run(cap, Init(), steps);
    MulMonotone(rounds + 1, s.settled, s.width);
  }

  // ---------- The usage report ----------

  datatype ReportKey = ReportKey(workspace: string, provider: Provider, model: string)

  datatype ReportRow = ReportRow(key: ReportKey, cost: nat, count: nat)

  function KeyOf(e: UsageEvent): ReportKey { ReportKey(e.workspace, e.provider, e.model) }

  // A group is one workspace's use of one model of one provider.
  lemma KeyTellsGroup(e: UsageEvent, k: ReportKey)
    ensures KeyOf(e) == k <==> e.workspace == k.workspace && e.provider == k.provider && e.model == k.model
  {
  }

  // GROUP BY: the event joins its group's row, or starts one.
  function AddToReport(report: seq<ReportRow>, e: UsageEvent): seq<ReportRow> {
    if report == [] then [ReportRow(KeyOf(e), e.actual, 1)]
    else if report[0].key == KeyOf(e) then [ReportRow(report[0].key, report[0].cost + e.actual, report[0].count + 1)] + report[1..]
    else [report[0]] + AddToReport(report[1..], e)
  }

  // get_usage_report: RECONCILED events only, whatever its docstring says about REFUNDED ones.
  function UsageReport(events: seq<UsageEvent>): seq<ReportRow> {
    if events == [] then []
    else
      var last, before := events[|events| - 1], UsageReport(events[..|events| - 1]);
      if last.status == Reconciled then AddToReport(before, last) else before
  }

  function ReportTotal(report: seq<ReportRow>): nat {
    if report == [] then 0 else report[0].cost + ReportTotal(report[1..])
  }

  function SumOf(events: seq<UsageEvent>, status: UsageStatus): nat {
    if events == [] then 0
    else
      var last := events[|events| - 1];
      SumOf(events[..|events| - 1], status) + if last.status == status then last.actual else 0
  }

  // Cost and number of the RECONCILED events of one group.
  function GroupSum(events: seq<UsageEvent>, k: ReportKey): (nat, nat) {
    if events == [] then (0, 0)
    else
      var last, before := events[|events| - 1], GroupSum(events[..|events| - 1], k);
      if last.status == Reconciled && KeyOf(last) == k then (before.0 + last.actual, before.1 + 1) else before
  }

  function RowFor(report: seq<ReportRow>, k: ReportKey): (nat, nat) {
    if report == [] then (0, 0)
    else if report[0].key == k then (report[0].cost, report[0].count)
    else RowFor(report[1..], k)
  }

  lemma {:induction false} AddToReportEffect(report: seq<ReportRow>, e: UsageEvent, k: ReportKey)
    ensures ReportTotal(AddToReport(report, e)) == ReportTotal(report) + e.actual
    ensures RowFor(AddToReport(report, e), k) ==
        if k == KeyOf(e) then (RowFor(report, k).0 + e.actual, RowFor(report, k).1 + 1) else RowFor(report, k)
  {
    if report != [] && report[0].key != KeyOf(e) { AddToReportEffect(report[1..], e, k); }
  }

  ghost predicate KeysDistinct(report: seq<ReportRow>) {
    forall i, j :: 0 <= i < j < |report| ==> report[i].key != report[j].key
  }

  predicate HasKey(report: seq<ReportRow>, k: ReportKey) { exists i :: 0 <= i < |report| && report[i].key == k }

  lemma {:induction false} AddKeepsKeysDistinct(report: seq<ReportRow>, e: UsageEvent)
    requires KeysDistinct(report)
    ensures KeysDistinct(AddToReport(report, e))
    ensures forall k :: HasKey(AddToReport(report, e), k) <==> HasKey(report, k) || k == KeyOf(e)
  {
    var after := AddToReport(report, e);
    if report == [] || report[0].key == KeyOf(e) {
      assert forall i :: 0 < i < |after| ==> after[i] == report[i];
      assert after[0].key == KeyOf(e);
      assert forall i :: 0 <= i < |report| ==> after[i].key == report[i].key;
    } else {
      AddKeepsKeysDistinct(report[1..], e);
      var rest := AddToReport(report[1..], e);
      assert after == [report[0]] + rest;
      assert !HasKey(report[1..], report[0].key);
      assert forall k :: HasKey(report, k) <==> k == report[0].key || HasKey(report[1..], k) by { HasKeyCons(report); }
      assert forall k :: HasKey(after, k) <==> k == after[0].key || HasKey(after[1..], k) by { HasKeyCons(after); }
      assert after[1..] == rest;
    }
  }

  lemma HasKeyCons(report: seq<ReportRow>)
    requires report != []
    ensures forall k :: HasKey(report, k) <==> k == report[0].key || HasKey(report[1..], k)
  {
    forall k
      ensures HasKey(report, k) <==> k == report[0].key || HasKey(report[1..], k)
    {
      if HasKey(report[1..], k) {
        var i :| 0 <= i < |report[1..]| && report[1..][i].key == k;
        assert report[i + 1].key == k;
      }
      if HasKey(report, k) && k != report[0].key {
        var i :| 0 <= i < |report| && report[i].key == k;
        assert report[1..][i - 1].key == k;
      }
    }
  }

  lemma {:induction false} ReportKeys(events: seq<UsageEvent>)
    ensures KeysDistinct(UsageReport(events))
    ensures forall k :: HasKey(UsageReport(events), k) <==> GroupSum(events, k).1 > 0
  {
    if events != [] {
      var n := |events| - 1;
      ReportKeys(events[..n]);
      AddKeepsKeysDistinct(UsageReport(events[..n]), events[n]);
    }
  }

  lemma {:induction false} ReportSums(events: seq<UsageEvent>, k: ReportKey)
    ensures RowFor(UsageReport(events), k) == GroupSum(events, k)
  {
    if events != [] {
      var n := |events| - 1;
      ReportSums(events[..n], k);
      AddToReportEffect(UsageReport(events[..n]), events[n], k);
    }
  }

  // One row for each group with a RECONCILED event and no other, and it holds exactly the group's sum
  // and count.
  lemma ReportRowsExact(events: seq<UsageEvent>, i: nat)
    requires i < |UsageReport(events)|
    ensures var report := UsageReport(events);
      && KeysDistinct(report)
      && (report[i].cost, report[i].count) == GroupSum(events, report[i].key)
      && forall k :: HasKey(report, k) <==> GroupSum(events, k).1 > 0
  {
    ReportKeys(events);
    ReportSums(events, UsageReport(events)[i].key);
    RowForReads(UsageReport(events), i);
  }

  // RowFor reads the row at whatever place it stands.
  lemma {:induction false} RowForReads(report: seq<ReportRow>, i: nat)
    requires KeysDistinct(report) && i < |report|
    ensures RowFor(report, report[i].key) == (report[i].cost, report[i].count)
  {
    if i > 0 {
      assert forall j, l :: 0 <= j < l < |report[1..]| ==> report[1..][j] == report[j + 1] && report[1..][l] == report[l + 1];
      RowForReads(report[1..], i - 1);
    }
  }

  lemma {:induction false} ReportTotalIsReconciled(events: seq<UsageEvent>)
    ensures ReportTotal(UsageReport(events)) == SumOf(events, Reconciled)
    ensures SumActual(events) == SumOf(events, Reconciled) + SumOf(events, Refunded)
  {
    if events != [] {
      var n := |events| - 1;
      ReportTotalIsReconciled(events[..n]);
      AddToReportEffect(UsageReport(events[..n]), events[n], KeyOf(events[n]));
    }
  }

  // The report adds up to the ledger exactly when no failed or cancelled turn cost anything.
  lemma ReportMatchesLedgerIff(cap: nat, steps: seq<Step>)
    ensures var b := Run(cap, Init(), steps).books;
      && ReportTotal(UsageReport(b.events)) + SumOf(b.events, Refunded) == b.actual
      && (ReportTotal(UsageReport(b.events)) == b.actual <==>
            forall i :: 0 <= i < |b.events| && b.events[i].status == Refunded ==> b.events[i].actual == 0)
  {
    RunKeepsBalanced(cap, Init(), steps);
    var b := Run(cap, Init(), steps).books;
    ReportTotalIsReconciled(b.events);
    RefundsFree(b.events);
  }

  // And it does happen: a turn that billed something and then failed.
  lemma ReportCanFallShort()
    ensures exists steps :: FallsShort(Run(100, Init(), steps).books)
  {
    var refund := UsageEvent("w", OpenAI, "gpt-5-mini", 5, 3, Refunded);
    var steps := [Open(1, 5), Close(1, refund)];
    assert steps[1..] == [Close(1, refund)] && steps[1..][1..] == [];
    var s1 := Next(100, Init(), Open(1, 5));
    var s2 := Next(100, s1, Close(1, refund));
    assert s1.open == [OpenTurn(1, 5)];
    assert Run(100, Init(), steps) == Run(100, s1, [Close(1, refund)]) == Run(100, s2, []) == s2;
    assert s2.books.events == [refund] && s2.books.actual == 3;
    assert [refund][..0] == [];
    assert FallsShort(Run(100, Init(), steps).books);
  }

  predicate FallsShort(b: Books) { ReportTotal(UsageReport(b.events)) < b.actual }

  lemma {:induction false} RefundsFree(events: seq<UsageEvent>)
    ensures SumOf(events, Refunded) == 0 <==>
        forall i :: 0 <= i < |events| && events[i].status == Refunded ==> events[i].actual == 0
  {
    if events != [] {
      var n := |events| - 1;
      RefundsFree(events[..n]);
      assert forall i :: 0 <= i < n ==> events[..n][i] == events[i];
    }
  }
}
