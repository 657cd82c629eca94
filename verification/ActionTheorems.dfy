// What holds of one action after any run of the protocol.
module ActionTheorems {
  import opened Wrappers
  import opened JsonCanonical
  import opened AuditChain
  import opened ActionStates
  import opened ActionService
  import opened TelegramRelay
  import opened ActionProtocol
  import opened ActionSafety

  // ---------- Runs ----------

  lemma PathOfNewCell(a: Action, s: Status, actor: string)
    requires s == Ready || s == AwaitingApproval
    ensures PathTo(
        [Note(a.id, a.trace, a.actor, Proposed), Note(a.id, a.trace, actor, Entered(Draft, Validating, None)),
         Note(a.id, a.trace, actor, Entered(Validating, s, None))], a, s)
  {
    var p := [Note(a.id, a.trace, a.actor, Proposed)];
    PathSnoc(p, a, Note(a.id, a.trace, actor, Entered(Draft, Validating, None)), Draft);
    PathSnoc(p + [Note(a.id, a.trace, actor, Entered(Draft, Validating, None))], a,
             Note(a.id, a.trace, actor, Entered(Validating, s, None)), Validating);
  }

  // A submitted draft: what the first transaction commits.
  lemma FirstRowsOk(a: Action, approval: Option<Approval>, outbox: seq<OutboxRow>, notes: seq<Note>)
    requires a.status == (if AutoApproved(a.risk) then Ready else AwaitingApproval)
    requires a.tool == TELEGRAM_TOOL_NAME ==> !AutoApproved(a.risk)
    requires if AutoApproved(a.risk) then approval.None? && outbox == [OutboxRow(ReadyMessage(a), false, 0)]
      else outbox == [] && approval.Some? && approval.value.status == Pending
           && approval.value.actionId == a.id && approval.value.payloadHash == a.payloadHash
    requires PathTo(notes, a, a.status)
    ensures Inv(Cell(a, approval, outbox, notes, None, map[], [], 0, map[], 0, None))
  {
  }

  lemma NewCellOk(h: Hasher, request: Action, nonce: string, now: int)
    ensures Inv(NewCell(h, request, nonce, now))
    ensures SameRow(NewCell(h, request, nonce, now).action, Draft0(h, request))
  {
    var d := Draft0(h, request);
    var c := NewCell(h, request, nonce, now);
    SubmittedDraft(d, d.actor, nonce, now, [Note(d.id, d.trace, d.actor, Proposed)]);
    PathOfNewCell(d, c.action.status, d.actor);
    PathSameRow(c.notes, d, c.action, c.action.status);
    FirstRowsOk(c.action, c.approval, c.outbox, c.notes);
  }

  lemma NextKeepsRow(c: Cell, step: Step)
    requires Inv(c)
    ensures SameRow(Next(c, step).action, c.action)
  {
    if step.Commit? && step.t in c.tasks && c.tasks[step.t].Holding? { HeldOk(c, step.t); }
  }

  lemma {:induction false} RunOk(c: Cell, steps: seq<Step>)
    requires Inv(c)
    ensures Inv(Run(c, steps)) && SameRow(Run(c, steps).action, c.action)
    decreases |steps|
  {
    if steps != [] {
      NextKeepsInv(c, steps[0]);
      NextKeepsRow(c, steps[0]);
      RunOk(Next(c, steps[0]), steps[1..]);
    }
  }

  // The states this file talks about.
  ghost predicate Reached(h: Hasher, request: Action, c: Cell) {
    exists nonce, now, steps :: c == Run(NewCell(h, request, nonce, now), steps)
  }

  lemma ReachedOk(h: Hasher, request: Action, c: Cell)
    requires Reached(h, request, c)
    ensures Inv(c) && SameRow(c.action, Draft0(h, request))
  {
    var nonce, now, steps :| c == Run(NewCell(h, request, nonce, now), steps);
    NewCellOk(h, request, nonce, now);
    RunOk(NewCell(h, request, nonce, now), steps);
  }

  // ---------- Each status is entered at most once ----------

  // How far along its life a status is.
  function Rank(s: Status): nat {
    match s
    case Draft => 0 case Validating => 1 case AwaitingApproval => 2 case Ready => 3
    case Running => 4 case Compensating => 5 case _ => 6
  }

  function Entries(notes: seq<Note>, s: Status): nat {
    if notes == [] then 0
    else
      var last := notes[|notes| - 1].what;
      Entries(notes[..|notes| - 1], s) + if last.Entered? && last.to == s then 1 else 0
  }

  lemma RankGrows(from: Status, to: Status)
    requires Driven(from, to)
    ensures from == Retrying || Rank(from) < Rank(to)
  {
  }

  lemma {:induction false} PathEntersOnce(notes: seq<Note>, a: Action, status: Status, s: Status)
    requires PathTo(notes, a, status)
    ensures Entries(notes, s) <= 1
    ensures Rank(s) >= Rank(status) && s != status ==> Entries(notes, s) == 0
    ensures status == s && s != Draft ==> Entries(notes, s) == 1
  {
    if |notes| > 1 {
      var from := notes[|notes| - 1].what.from;
      RankGrows(from, status);
      PathEntersOnce(notes[..|notes| - 1], a, from, s);
    } else {
      assert notes[..0] == [];
    }
  }

  lemma {:induction false} PathVisits(notes: seq<Note>, a: Action, status: Status)
    requires PathTo(notes, a, status)
    ensures Entries(notes, Ready) == (if status in {Draft, Validating, AwaitingApproval} then 0 else 1)
    ensures Entries(notes, Running) == (if status in {Draft, Validating, AwaitingApproval, Ready, Cancelled} then 0 else 1)
  {
    if |notes| > 1 {
      var from := notes[|notes| - 1].what.from;
      RankGrows(from, status);
      PathVisits(notes[..|notes| - 1], a, from);
    } else {
      assert notes[..0] == [];
    }
  }

  // No status, RUNNING and READY included, is entered twice; and the outbox row exists from READY on,
  // exactly one of it, whatever nonces were consumed twice or cancellations raced.
  lemma OutboxRowIffEverReady(h: Hasher, request: Action, c: Cell)
    requires Reached(h, request, c)
    ensures forall s :: Entries(c.notes, s) <= 1
    ensures |c.outbox| == Entries(c.notes, Ready)
    ensures forall i :: 0 <= i < |c.outbox| ==> c.outbox[i].message == OutboxMessage(c.action.id, c.action.tool)
  {
    ReachedOk(h, request, c);
    forall s ensures Entries(c.notes, s) <= 1 { PathEntersOnce(c.notes, c.action, c.action.status, s); }
    PathVisits(c.notes, c.action, c.action.status);
  }

  // ---------- At most one delivery ----------

  function Deliveries(sends: seq<Attempt>): nat {
    if sends == [] then 0
    else Deliveries(sends[..|sends| - 1]) + if PossiblyDelivered(sends[|sends| - 1].outcome) then 1 else 0
  }

  lemma {:induction false} TransientNeverDelivers(sends: seq<Attempt>)
    requires AllTransient(sends)
    ensures Deliveries(sends) == 0
  {
    if sends != [] { TransientNeverDelivers(sends[..|sends| - 1]); }
  }

  lemma SendsDeliverOnce(a: Action, sends: seq<Attempt>)
    requires SendsOk(a, sends)
    ensures Deliveries(sends) <= 1
    ensures Deliveries(sends) == 1 <==> sends != [] && PossiblyDelivered(sends[|sends| - 1].outcome)
  {
    if sends != [] { TransientNeverDelivers(sends[..|sends| - 1]); }
  }

  lemma ReachedRows(h: Hasher, request: Action, c: Cell)
    requires Reached(h, request, c)
    ensures c.action.status in COMMITTED && PathTo(c.notes, c.action, c.action.status)
    ensures SendsOk(c.action, c.sends) && ReceiptOk(c.action, c.sends, c.notes)
  {
    ReachedOk(h, request, c);
  }

  lemma RowsDeliverOnce(a: Action, notes: seq<Note>, sends: seq<Attempt>)
    requires a.status in COMMITTED && PathTo(notes, a, a.status) && SendsOk(a, sends)
    ensures Deliveries(sends) <= 1
    ensures sends != [] ==> Entries(notes, Running) == 1
  {
    PathVisits(notes, a, a.status);
    SendsDeliverOnce(a, sends);
  }

  // At most one call to Telegram can have reached anyone, and none before RUNNING was entered, once.
  lemma AtMostOneDelivery(h: Hasher, request: Action, c: Cell)
    requires Reached(h, request, c)
    ensures Deliveries(c.sends) <= 1 && |c.sends| <= TELEGRAM_SEND_ATTEMPTS
    ensures c.sends != [] ==> Entries(c.notes, Running) == 1
    ensures c.action.status in {AwaitingApproval, Ready, Cancelled} ==> c.sends == []
  {
    ReachedRows(h, request, c);
    RowsDeliverOnce(c.action, c.notes, c.sends);
  }

  // SUCCEEDED means that the last attempt, and only that one, was delivered, with the audited receipt.
  lemma SucceededWasDelivered(h: Hasher, request: Action, c: Cell)
    requires Reached(h, request, c) && c.action.status == Succeeded
    ensures c.notes != [] && c.notes[|c.notes| - 1].what.Entered? && c.notes[|c.notes| - 1].what.receipt.Some?
    ensures c.sends != [] && c.sends[|c.sends| - 1].outcome == Delivered(c.notes[|c.notes| - 1].what.receipt.value)
    ensures Deliveries(c.sends) == 1
  {
    ReachedRows(h, request, c);
    SendsDeliverOnce(c.action, c.sends);
  }

  // Once RUNNING is over, the action is SUCCEEDED if and only if its message was delivered and the
  // connector had the last word.  So a delivered message of a FAILED action, which is possible because
  // complete_compensation does not look for COMPENSATING, is always a person's doing.
  lemma SucceededIffDelivered(h: Hasher, request: Action, c: Cell)
    requires Reached(h, request, c) && c.action.status != Running
    ensures c.notes != []
    ensures c.action.status == Succeeded <==>
        c.sends != [] && c.sends[|c.sends| - 1].outcome.Delivered? && c.notes[|c.notes| - 1].actor == ACTOR_ID
  {
    ReachedRows(h, request, c);
    assert ACTOR_ID[0] == 's';
  }

  // And it is possible: any running action whose message was delivered can be completed as FAILED.
  lemma DeliveredCanBeFailed(h: Hasher, request: Action, c: Cell, t: TaskId, user: string)
    requires Reached(h, request, c) && c.action.status == Running && t !in c.tasks && c.lock.None?
    ensures var steps := [Load(t, Compensate(user, Failed)), Lock(t, 0), Commit(t)];
      Run(c, steps).action.status == Failed && Run(c, steps).sends == c.sends
  {
    var op := Compensate(user, Failed);
    var c1 := Next(c, Load(t, op));
    var c2 := Next(c1, Lock(t, 0));
    CompensationCompletedIff(Work(c.action, c.approval, [], []), c.action, Failed, UserActor(user));
    var c3 := Next(c2, Commit(t));
    assert c3.action.status == Failed && c3.sends == c.sends;
    RunThree(c, Load(t, op), Lock(t, 0), Commit(t));
  }

  lemma RunThree(c: Cell, x: Step, y: Step, z: Step)
    ensures Run(c, [x, y, z]) == Next(Next(Next(c, x), y), z)
  {
    assert [x, y, z][1..] == [y, z] && [y, z][1..] == [z] && [z][1..] == [];
    var last := Next(Next(c, x), y);
    assert Run(last, [z]) == Run(Next(last, z), []);
  }

  // consume_approval promises that a failed check leaves the action EXPIRED or REJECTED and a trace of
  // the attempt. It raises right after, so that never commits: no run reaches those statuses.
  lemma FailedChecksLeaveNoTrace(h: Hasher, request: Action, c: Cell)
    requires Reached(h, request, c)
    ensures c.action.status in COMMITTED && Expired !in COMMITTED && Rejected !in COMMITTED
    ensures c.approval.Some? ==> c.approval.value.status in {Pending, Approved}
    ensures forall i :: 0 <= i < |c.notes| ==> !c.notes[i].what.TransitionRejected?
  {
    ReachedOk(h, request, c);
    PathNotes(c.notes, c.action, c.action.status);
  }

  // A consume that fails any of its checks, expiry included, is rolled back whole: the task is gone and
  // nothing else has changed.
  lemma ConsumeHoldsIff(c: Cell, t: TaskId, now: int)
    requires Inv(c) && t in c.tasks && c.tasks[t].Loaded? && c.tasks[t].op.Consume? && c.lock.None?
    ensures var w := c.tasks[t].work;
      && w.approval.Some?
      && (Next(c, Lock(t, now)).lock == Some(t) <==>
            && w.approval.value.status == Pending && w.approval.value.nonce == c.tasks[t].op.nonce
            && now <= w.approval.value.expiresAt && w.approval.value.payloadHash == w.action.payloadHash
            && c.action.status == AwaitingApproval)
      && (Next(c, Lock(t, now)).lock == Some(t) || Next(c, Lock(t, now)) == c.(tasks := c.tasks - {t}))
  {
    assert TaskOk(c.action, c.approval, c.sends, c.tasks[t]);
    var op, w := c.tasks[t].op, c.tasks[t].work;
    ConsumedIff(w, c.action, UserActor(op.user), op.nonce, now);
  }

  // Nobody is about to commit, and no time is left to consume the approval.
  ghost predicate Lapsed(c: Cell) {
    && Inv(c) && c.action.status == AwaitingApproval && c.approval.Some?
    && forall t :: t in c.tasks ==> !c.tasks[t].Holding?
  }

  ghost predicate AllLate(steps: seq<Step>, expiresAt: int) {
    forall i :: 0 <= i < |steps| && steps[i].Lock? ==> steps[i].now > expiresAt
  }

  // A transaction that gets past its lock while the action awaits approval consumes it in time.
  lemma LateLockFails(c: Cell, t: TaskId, now: int)
    requires Lapsed(c) && t in c.tasks && c.tasks[t].Loaded? && c.lock.None? && now > c.approval.value.expiresAt
    ensures Next(c, Lock(t, now)) == c.(tasks := c.tasks - {t})
  {
    assert TaskOk(c.action, c.approval, c.sends, c.tasks[t]);
    var op, w := c.tasks[t].op, c.tasks[t].work;
    if Execute(op, w, c.action, now).error.None? {
      ExecuteOk(c, op, w, now);
      assert false;
    }
  }

  lemma LapsedStep(c: Cell, step: Step)
    requires Lapsed(c) && (step.Lock? ==> step.now > c.approval.value.expiresAt)
    ensures var c' := Next(c, step);
      Lapsed(c') && c'.action == c.action && c'.approval == c.approval && c'.notes == c.notes
  {
    NextKeepsInv(c, step);
    if step.Lock? && Next(c, step) != c { LateLockFails(c, step.t, step.now); }
  }

  // The consequence: once the time to approve has passed and no consume that read the clock in time is
  // still on its way to the row lock, the action awaits approval for ever, with the same pending approval
  // and nothing in its trail, whatever is tried.
  lemma {:induction false} ExpiredStaysPending(c: Cell, steps: seq<Step>)
    requires Lapsed(c) && AllLate(steps, c.approval.value.expiresAt)
    ensures var c' := Run(c, steps);
      && Lapsed(c') && c'.action == c.action && c'.approval == c.approval && c'.notes == c.notes
      && c'.approval.value.status == Pending && c'.sends == []
    decreases |steps|
  {
    if steps != [] {
      LapsedStep(c, steps[0]);
      assert forall i :: 0 <= i < |steps[1..]| ==> steps[1..][i] == steps[i + 1];
      ExpiredStaysPending(Next(c, steps[0]), steps[1..]);
    }
  }

  // In particular an action that was proposed and never approved in time.
  lemma NeverApprovedStaysPending(h: Hasher, request: Action, nonce: string, now: int, steps: seq<Step>)
    requires !AutoApproved(Draft0(h, request).risk) && AllLate(steps, now + DEFAULT_APPROVAL_TTL)
    ensures var c := Run(NewCell(h, request, nonce, now), steps);
      && c.action.status == AwaitingApproval && c.sends == [] && c.outbox == []
      && c.approval.Some? && c.approval.value.status == Pending && c.approval.value.nonce == nonce
  {
    var c := NewCell(h, request, nonce, now);
    var d := Draft0(h, request);
    NewCellOk(h, request, nonce, now);
    SubmittedDraft(d, d.actor, nonce, now, [Note(d.id, d.trace, d.actor, Proposed)]);
    assert c.approval == Some(FreshApproval(d, nonce, now));
    ExpiredStaysPending(c, steps);
  }

  lemma {:induction false} PathNotes(notes: seq<Note>, a: Action, status: Status)
    requires PathTo(notes, a, status)
    ensures forall i :: 0 <= i < |notes| ==>
        notes[i].actionId == a.id && notes[i].trace == a.trace && !notes[i].what.TransitionRejected?
  {
    if |notes| > 1 { PathNotes(notes[..|notes| - 1], a, notes[|notes| - 1].what.from); }
  }

  // ---------- No send without a bound approval ----------

  // Any call to Telegram, whatever risk level the request declared, was approved once: with the nonce, in
  // time, by the proposer or a workspace admin at AAL2, for the hash of the very payload sent.
  lemma SendsAreApproved(h: Hasher, request: Action, c: Cell)
    requires CollisionFree(h) && Reached(h, request, c) && c.sends != []
    ensures c.action.tool == TELEGRAM_TOOL_NAME && c.approval.Some? && c.consumed.Some?
    ensures var ap, x := c.approval.value, c.consumed.value;
      && ap.status == Approved && ap.actionId == c.action.id
      && x.nonce == ap.nonce && x.now <= ap.expiresAt && x.aal2
      && (c.action.actor == UserActor(x.user) || x.role.WorkspaceAdmin?)
      && ap.approver == Some(UserActor(x.user))
    ensures forall p: NativeJson :: HashPayload(h, p) == c.approval.value.payloadHash ==>
        forall i :: 0 <= i < |c.sends| ==> Some(c.sends[i].message) == TelegramOf(p)
  {
    ReachedOk(h, request, c);
    assert c.approval.value.payloadHash == HashPayload(h, c.action.payload);
    forall p: NativeJson | HashPayload(h, p) == c.approval.value.payloadHash
      ensures TelegramOf(p) == TelegramOf(c.action.payload)
    {
      HashBindsPayload(h, p, c.action.payload);
      SentMessageDeterminedByPayload(p, c.action.payload);
    }
  }

  // A replayed request hands the nonce of the pending approval to the proposer alone.  The approval may
  // have expired meanwhile, since nothing ever marks it: the nonce handed out is of use exactly until then.
  lemma ReplayHandsOutPendingNonces(h: Hasher, request: Action, c: Cell, actor: string, approver: string, now: int)
    requires Reached(h, request, c)
    ensures var handed := ReplayApproval(c.action, c.approval, actor);
      && (handed.Some? <==> c.action.status == AwaitingApproval && c.action.actor == actor)
      && (handed.Some? ==>
            && handed == c.approval && handed.value.status == Pending && c.consumed.None? && c.sends == []
            && (Consumed(Work(c.action, c.approval, [], []), c.action, approver, handed.value.nonce, now).error.None? <==>
                  now <= handed.value.expiresAt))
  {
    ReachedOk(h, request, c);
    if c.approval.Some? {
      ConsumedIff(Work(c.action, c.approval, [], []), c.action, approver, c.approval.value.nonce, now);
    }
  }

  // ---------- The stream ----------

  // A published row has a copy on the stream, and every further copy is due to a relay that crashed
  // between publishing and committing.
  lemma CopiesComeFromCrashes(h: Hasher, request: Action, c: Cell)
    requires Reached(h, request, c)
    ensures IsPublished(c.outbox) ==> c.stream == 1 + c.relayCrashes
    ensures !IsPublished(c.outbox) ==> c.relayCrashes <= c.stream <= c.relayCrashes + 1
    ensures c.stream > 0 ==> Entries(c.notes, Ready) == 1
  {
    ReachedOk(h, request, c);
    PathVisits(c.notes, c.action, c.action.status);
    if IsPublished(c.outbox) { assert c.claims == map[]; }
  }

  // ---------- Cancellation ----------

  // A request to cancel that commits while the action is READY stops the send for good.
  lemma CancelledStaysUnsent(h: Hasher, request: Action, c: Cell, steps: seq<Step>)
    requires Reached(h, request, c) && c.action.status == Cancelled
    ensures Run(c, steps).action.status == Cancelled && Run(c, steps).sends == []
    decreases |steps|
  {
    ReachedOk(h, request, c);
    TerminalStays(c, steps);
    RunOk(c, steps);
  }

  // No transaction can be about to commit a move out of a terminal status: the table has none, but for
  // FAILED to RETRYING, which nothing drives.
  lemma TerminalStep(c: Cell, step: Step)
    requires Inv(c) && c.action.status in TERMINAL
    ensures Next(c, step).action == c.action
  {
    if step.Commit? && step.t in c.tasks && c.tasks[step.t].Holding? { NothingHeld(c, step.t); }
  }

  lemma NoMoveOut(a: Action, ap: Option<Approval>, sends: seq<Attempt>, op: Op, w: Work, now: int)
    requires a.status in TERMINAL && a.status in COMMITTED
    ensures !HoldingOk(a, ap, sends, op, w, now)
  {
    if HoldingOk(a, ap, sends, op, w, now) { HeldMove(a, ap, sends, op, w, now); }
  }

  lemma NothingHeld(c: Cell, t: TaskId)
    requires TasksOk(c.action, c.approval, c.sends, c.tasks)
    requires c.action.status in TERMINAL && c.action.status in COMMITTED && t in c.tasks
    ensures !c.tasks[t].Holding?
  {
    var task := c.tasks[t];
    assert TaskOk(c.action, c.approval, c.sends, task);
    if task.Holding? { NoMoveOut(c.action, c.approval, c.sends, task.op, task.work, task.now); }
  }

  lemma {:induction false} TerminalStays(c: Cell, steps: seq<Step>)
    requires Inv(c) && c.action.status in TERMINAL
    ensures Run(c, steps).action.status == c.action.status
    decreases |steps|
  {
    if steps != [] {
      NextKeepsInv(c, steps[0]);
      TerminalStep(c, steps[0]);
      TerminalStays(Next(c, steps[0]), steps[1..]);
    }
  }
}
