/**
  What single transactions of the action protocol achieve when nothing gets in their way: which approvals,
  cancellations and outcomes go through, and what the connector's sends come to.
*/
module ActionTransactions {
  import opened Wrappers
  import opened Json
  import opened JsonCanonical
  import opened ActionStates
  import opened Roles
  import opened ActionService
  import opened TelegramRelay
  import opened ActionProtocol
  import opened ActionSafety
  import opened ActionTheorems

  // Load, take the lock at time n, commit.
  function Transact(c: Cell, t: TaskId, op: Op, n: int): Cell { Run(c, [Load(t, op), Lock(t, n), Commit(t)]) }

  function Read(c: Cell): Work { Work(c.action, c.approval, [], []) }

  // No such task, nobody holding the lock.
  predicate Free(c: Cell, t: TaskId) { t !in c.tasks && c.lock.None? }

  // A transaction commits what its operation leaves in the session, or nothing.
  lemma TransactionCommits(c: Cell, t: TaskId, op: Op, n: int)
    requires c.lock.None? && MayLoad(c, t, op)
    ensures var o := Execute(op, Read(c), c.action, n);
      Transact(c, t, op, n) ==
        if o.error.Some? then c.(tasks := c.tasks - {t})
        else AfterCommit(c.(tasks := c.tasks[t := Holding(op, o.work, n)], lock := Some(t)), t)
  {
    var c1 := Next(c, Load(t, op));
    assert c1.tasks - {t} == c.tasks - {t};
    var c2 := Next(c1, Lock(t, n));
    assert c1.tasks[t := Holding(op, Execute(op, Read(c), c.action, n).work, n)]
      == c.tasks[t := Holding(op, Execute(op, Read(c), c.action, n).work, n)];
    RunThree(c, Load(t, op), Lock(t, n), Commit(t));
  }

  lemma NotAllowed(c: Cell, t: TaskId, op: Op, n: int)
    requires Free(c, t) && !MayLoad(c, t, op)
    ensures Transact(c, t, op, n) == c
  {
    RunThree(c, Load(t, op), Lock(t, n), Commit(t));
  }

  // ---------- Who acts ----------

  // An actor is one user, and never the connector.
  lemma ActorTellsUser(user: string, other: string)
    ensures UserActor(user) == UserActor(other) <==> user == other
    ensures UserActor(user) != ACTOR_ID
  {
    assert UserActor(user)[0] == 'u' && ACTOR_ID[0] == 's';
    assert UserActor(user)[5..] == user && UserActor(other)[5..] == other;
  }

  // So without being a workspace admin, only the very user who proposed an action may approve or cancel
  // it, or is handed its nonce again.
  lemma OnlyTheProposer(a: Action, approval: Option<Approval>, proposer: string, user: string, aal2: bool)
    requires a.actor == UserActor(proposer)
    ensures MayConsume(a, user, WorkspaceMember, aal2) <==> user == proposer && aal2
    ensures MayCancel(a, user, WorkspaceMember) <==> user == proposer
    ensures ReplayApproval(a, approval, UserActor(user)).Some? ==> user == proposer
  {
    ActorTellsUser(user, proposer);
  }

  // ---------- Approving ----------

  // An action that needs an approval, just proposed.
  lemma Proposed(h: Hasher, request: Action, nonce: string, now: int)
    requires !AutoApproved(Draft0(h, request).risk)
    ensures var d, c := Draft0(h, request), NewCell(h, request, nonce, now);
      && c.action == d.(status := AwaitingApproval)
      && c.approval == Some(Approval(d.id, d.payloadHash, nonce, Pending, None, now + DEFAULT_APPROVAL_TTL))
      && c.outbox == [] && c.tasks == map[] && c.lock.None? && c.sends == [] && c.consumed.None?
  {
    var d := Draft0(h, request);
    SubmittedDraft(d, d.actor, nonce, now, [Note(d.id, d.trace, d.actor, ActionService.Proposed)]);
  }

  // Its approval works for exactly ten minutes, for its nonce, for the proposer or a workspace admin with
  // fresh MFA: then the action is READY, with one outbox row, and otherwise nothing has happened.
  lemma ApprovedIff(h: Hasher, request: Action, nonce: string, now: int, t: TaskId,
                    user: string, role: WorkspaceRole, aal2: bool, given: string, n: int)
    requires !AutoApproved(Draft0(h, request).risk)
    ensures var c := NewCell(h, request, nonce, now);
      var c' := Transact(c, t, Consume(user, role, aal2, given), n);
      if given == nonce && n <= now + 600 && aal2 && (request.actor == UserActor(user) || role == WorkspaceAdmin) then
        && c'.action == c.action.(status := Ready)
        && c'.approval == Some(c.approval.value.(status := Approved, approver := Some(UserActor(user))))
        && c'.outbox == [OutboxRow(OutboxMessage(request.id, request.tool), false, 0)]
        && c'.consumed == Some(Consumption(user, role, aal2, given, n))
        && c'.tasks == map[] && c'.lock.None?
      else c' == c
  {
    Proposed(h, request, nonce, now);
    var c, op := NewCell(h, request, nonce, now), Consume(user, role, aal2, given);
    if MayLoad(c, t, op) {
      TransactionCommits(c, t, op, n);
      ConsumedIff(Read(c), c.action, UserActor(user), given, n);
      assert c.tasks - {t} == c.tasks;
    } else {
      NotAllowed(c, t, op, n);
    }
  }

  // ---------- Cancelling and resolving ----------

  // The proposer or a workspace admin may cancel a READY action, and compensate a RUNNING one; nobody else,
  // and no other action.
  lemma CancelledIff(c: Cell, t: TaskId, user: string, role: WorkspaceRole, n: int)
    requires Free(c, t)
    ensures var c' := Transact(c, t, Cancel(user, role), n);
      if (c.action.actor == UserActor(user) || role == WorkspaceAdmin) && c.action.status in {Ready, Running} then
        && c'.action == c.action.(status := if c.action.status == Ready then Cancelled else Compensating)
        && c'.notes == c.notes + [Note(c.action.id, c.action.trace, UserActor(user), Entered(c.action.status, c'.action.status, None))]
        && c'.approval == c.approval && c'.outbox == c.outbox && c'.sends == c.sends && c'.tasks == c.tasks && c'.lock.None?
      else c' == c
  {
    var op := Cancel(user, role);
    if MayLoad(c, t, op) {
      TransactionCommits(c, t, op, n);
      CancellationRequestedIff(Read(c), c.action, UserActor(user));
      assert c.tasks - {t} == c.tasks;
    } else {
      NotAllowed(c, t, op, n);
    }
  }

  // A person may complete a compensation as COMPENSATED or FAILED, and fail a RUNNING action; nothing else.
  lemma CompensatedIff(c: Cell, t: TaskId, user: string, outcome: Status, n: int)
    requires Free(c, t)
    ensures var c' := Transact(c, t, Compensate(user, outcome), n);
      if (c.action.status == Compensating && outcome in {Compensated, Failed}) || (c.action.status == Running && outcome == Failed) then
        && c'.action == c.action.(status := outcome)
        && c'.notes == c.notes + [Note(c.action.id, c.action.trace, UserActor(user), Entered(c.action.status, outcome, None))]
        && c'.approval == c.approval && c'.outbox == c.outbox && c'.sends == c.sends && c'.tasks == c.tasks && c'.lock.None?
      else c' == c
  {
    TransactionCommits(c, t, Compensate(user, outcome), n);
    CompensationCompletedIff(Read(c), c.action, outcome, UserActor(user));
    assert c.tasks - {t} == c.tasks;
  }

  // The connector takes up a READY Telegram action of which there is a copy on the stream, and no other.
  lemma DrivenIff(c: Cell, t: TaskId, n: int)
    requires Free(c, t)
    ensures var c' := Transact(c, t, Drive, n);
      if c.stream > 0 && c.action.tool == TELEGRAM_TOOL_NAME && c.action.status == Ready then
        && c'.action == c.action.(status := Running)
        && c'.notes == c.notes + [Note(c.action.id, c.action.trace, ACTOR_ID, Entered(Ready, Running, None))]
        && c'.approval == c.approval && c'.outbox == c.outbox && c'.sends == c.sends
        && c'.tasks == c.tasks[t := Started(c'.action)] && c'.lock.None?
      else c' == c
  {
    if c.stream > 0 {
      TransactionCommits(c, t, Drive, n);
      TransitionedIff(Read(c), c.action, Running, ACTOR_ID, None);
      assert c.tasks - {t} == c.tasks;
    } else {
      NotAllowed(c, t, Drive, n);
    }
  }

  // What the connector decided is entered with its receipt, unless a person has compensated the action
  // meanwhile: then SUCCEEDED is refused, and the decision is lost.
  lemma ResolvedIff(c: Cell, t: TaskId, n: int)
    requires t in c.tasks && c.tasks[t].Decided? && c.lock.None? && DecisionOk(c.sends, c.tasks[t].target, c.tasks[t].receipt)
    ensures var target, receipt := c.tasks[t].target, c.tasks[t].receipt;
      var c' := Transact(c, t, Resolve(target, receipt), n);
      if c.action.status == Running || (c.action.status == Compensating && target == Failed) then
        && c'.action == c.action.(status := target)
        && c'.notes == c.notes + [Note(c.action.id, c.action.trace, ACTOR_ID, Entered(c.action.status, target, receipt))]
        && c'.approval == c.approval && c'.outbox == c.outbox && c'.sends == c.sends && c'.tasks == c.tasks - {t} && c'.lock.None?
      else c' == c.(tasks := c.tasks - {t})
  {
    var target, receipt := c.tasks[t].target, c.tasks[t].receipt;
    TransactionCommits(c, t, Resolve(target, receipt), n);
    TransitionedIff(Read(c), c.action, target, ACTOR_ID, receipt);
  }

  // ---------- Sending ----------

  // A started action goes on to be sent exactly if there is a token and its payload's logical value names
  // the message; otherwise it is decided to have failed, with nothing sent.
  lemma DispatchedIff(c: Cell, t: TaskId, hasToken: bool, m: Telegram)
    requires t in c.tasks && c.tasks[t].Started? && c.tasks[t].action.payload.Obj?
    ensures var a, c' := c.tasks[t].action, Next(c, Dispatch(t, hasToken));
      var value := DenoteFields(a.payload.fields);
      && c'.sends == c.sends && t in c'.tasks && c' == c.(tasks := c.tasks[t := c'.tasks[t]])
      && (c'.tasks[t] == Sending(a, 0) || c'.tasks[t] == Decided(Failed, None))
      && (hasToken && "chat_id" in value && value["chat_id"] == VStr(m.chatId) && "text" in value && value["text"] == VStr(m.text) ==>
            c'.tasks[t] == Sending(a, 0) && TelegramOf(a.payload) == Some(m))
      && (c'.tasks[t] == Sending(a, 0) ==> hasToken && TelegramOf(a.payload).Some?)
  {
    TelegramOfIff(c.tasks[t].action.payload, m);
  }

  function SendSteps(t: TaskId, tries: seq<SendOutcome>): seq<Step> {
    if tries == [] then [] else [Send(t, tries[0])] + SendSteps(t, tries[1..])
  }

  function Attempts(message: Telegram, tries: seq<SendOutcome>): (r: seq<Attempt>)
    ensures |r| == |tries| && forall i :: 0 <= i < |r| ==> r[i] == Attempt(message, tries[i])
  {
    seq(|tries|, i requires 0 <= i < |tries| => Attempt(message, tries[i]))
  }

  // Where the result of the last attempt leaves the connector's task.
  function TaskAfter(tasks: map<TaskId, Task>, t: TaskId, result: SendOutcome): map<TaskId, Task> {
    match result
    case Delivered(id) => tasks[t := Decided(Succeeded, Some(id))]
    case Transient => tasks[t := Decided(Failed, None)]
    case Terminal => tasks[t := Decided(Failed, None)]
    case Unexpected => tasks - {t}
  }

  // One attempt: the next one is due after a transient result, as long as there are any left.
  lemma SentOnce(c: Cell, t: TaskId, done: nat, outcome: SendOutcome, last: bool)
    requires t in c.tasks && c.tasks[t].Sending? && c.tasks[t].tries == done && TelegramOf(c.tasks[t].action.payload).Some?
    requires last <==> !outcome.Transient? || done + 1 == TELEGRAM_SEND_ATTEMPTS
    requires done < TELEGRAM_SEND_ATTEMPTS
    ensures var a := c.tasks[t].action;
      Next(c, Send(t, outcome)) == c.(
        sends := c.sends + [Attempt(TelegramOf(a.payload).value, outcome)],
        tasks := if last then TaskAfter(c.tasks, t, outcome) else c.tasks[t := Sending(a, done + 1)])
  {
  }

  lemma TaskAfterUpdate(tasks: map<TaskId, Task>, t: TaskId, task: Task, result: SendOutcome)
    requires t in tasks
    ensures TaskAfter(tasks[t := task], t, result) == TaskAfter(tasks, t, result)
  {
    assert tasks[t := task] - {t} == tasks - {t};
  }

  lemma AttemptsCons(message: Telegram, tries: seq<SendOutcome>)
    requires tries != []
    ensures Attempts(message, tries) == [Attempt(message, tries[0])] + Attempts(message, tries[1..])
  {
  }

  lemma SendStepsCons(c: Cell, t: TaskId, tries: seq<SendOutcome>)
    requires tries != []
    ensures Run(c, SendSteps(t, tries)) == Run(Next(c, Send(t, tries[0])), SendSteps(t, tries[1..]))
  {
    assert SendSteps(t, tries)[1..] == SendSteps(t, tries[1..]);
  }

  // The attempts SendWithRetries makes are those the protocol goes on with, no fewer and no more: after
  // them the outcome is decided, or the task is gone.
  lemma {:induction false} SendsAreRetries(c: Cell, t: TaskId, done: nat, tries: seq<SendOutcome>)
    requires t in c.tasks && c.tasks[t].Sending? && c.tasks[t].tries == done
    requires TelegramOf(c.tasks[t].action.payload).Some? && IsTries(done, tries)
    ensures var message := TelegramOf(c.tasks[t].action.payload).value;
      Run(c, SendSteps(t, tries)) ==
        c.(sends := c.sends + Attempts(message, tries), tasks := TaskAfter(c.tasks, t, tries[|tries| - 1]))
    decreases |tries|
  {
    var a := c.tasks[t].action;
    var message := TelegramOf(a.payload).value;
    SentOnce(c, t, done, tries[0], |tries| == 1);
    AttemptsCons(message, tries);
    SendStepsCons(c, t, tries);
    if |tries| > 1 {
      var c1 := c.(sends := c.sends + [Attempt(message, tries[0])], tasks := c.tasks[t := Sending(a, done + 1)]);
      SendsAreRetries(c1, t, done + 1, tries[1..]);
      assert c1.sends + Attempts(message, tries[1..]) == c.sends + Attempts(message, tries);
      TaskAfterUpdate(c.tasks, t, Sending(a, done + 1), tries[|tries| - 1]);
    } else {
      assert Attempts(message, tries[1..]) == [];
    }
  }

  // ---------- Publishing ----------

  // A relay that gets through puts one copy on the stream and marks the row, which is then not claimed
  // again; one that crashes after publishing leaves the copy, and the row to be claimed again.
  lemma RelayedIff(c: Cell, r: TaskId)
    requires c.claims == map[] && c.outbox != []
    ensures var row := c.outbox[0];
      var done := Run(c, [ClaimRow(r), Publish(r), MarkPublished(r)]);
      var crashed := Run(c, [ClaimRow(r), Publish(r), RelayCrash(r)]);
      if row.published then done == c && crashed == c
      else
        && done == c.(outbox := c.outbox[0 := OutboxRow(row.message, true, row.attempts + 1)], stream := c.stream + 1)
        && crashed == c.(stream := c.stream + 1, relayCrashes := c.relayCrashes + 1)
  {
    RunThree(c, ClaimRow(r), Publish(r), MarkPublished(r));
    RunThree(c, ClaimRow(r), Publish(r), RelayCrash(r));
    assert map[r := Claim(true)] - {r} == map[];
  }

  // ---------- Locks and attempts ----------

  // The lock belongs to a transaction that is about to commit.
  predicate LockHeld(tasks: map<TaskId, Task>, lock: Option<TaskId>) {
    lock.Some? ==> lock.value in tasks && tasks[lock.value].Holding?
  }

  // A row is counted as attempted once it is published.
  predicate Counted(outbox: seq<OutboxRow>) {
    forall i :: 0 <= i < |outbox| ==> outbox[i].attempts == if outbox[i].published then 1 else 0
  }

  lemma NextKeepsLockHeld(c: Cell, step: Step)
    requires LockHeld(c.tasks, c.lock)
    ensures LockHeld(Next(c, step).tasks, Next(c, step).lock)
  {
  }

  lemma NextKeepsCounted(c: Cell, step: Step)
    requires Counted(c.outbox) && RelayOk(c.outbox, c.claims, c.stream, c.relayCrashes)
    ensures Counted(Next(c, step).outbox)
  {
  }

  lemma {:induction false} RunKeepsTidy(c: Cell, steps: seq<Step>)
    requires Inv(c) && LockHeld(c.tasks, c.lock) && Counted(c.outbox)
    ensures LockHeld(Run(c, steps).tasks, Run(c, steps).lock) && Counted(Run(c, steps).outbox)
    decreases |steps|
  {
    if steps != [] {
      NextKeepsInv(c, steps[0]);
      NextKeepsLockHeld(c, steps[0]);
      NextKeepsCounted(c, steps[0]);
      RunKeepsTidy(Next(c, steps[0]), steps[1..]);
    }
  }

  lemma GivenBack(c: Cell)
    requires c.lock.Some? && LockHeld(c.tasks, c.lock)
    ensures Next(c, Commit(c.lock.value)).lock.None? && Next(c, Crash(c.lock.value)).lock.None?
  {
  }

  // So no lock is ever lost: whoever holds it gives it back by committing, and by crashing.
  lemma LocksAreGivenBack(h: Hasher, request: Action, c: Cell)
    requires Reached(h, request, c)
    ensures LockHeld(c.tasks, c.lock) && Counted(c.outbox)
    ensures c.lock.Some? ==> Next(c, Commit(c.lock.value)).lock.None? && Next(c, Crash(c.lock.value)).lock.None?
  {
    var nonce, now, steps :| c == Run(NewCell(h, request, nonce, now), steps);
    NewCellOk(h, request, nonce, now);
    RunKeepsTidy(NewCell(h, request, nonce, now), steps);
    if c.lock.Some? { GivenBack(c); }
  }
}
