// What every step of the action protocol keeps, and what follows for every run.
module ActionSafety {
  import opened Wrappers
  import opened ActionStates
  import opened ActionService
  import opened TelegramRelay
  import opened ActionProtocol

  // ---------- The invariant ----------

  // Nothing but the status of an action ever changes.
  predicate SameRow(a: Action, b: Action) { a == b.(status := a.status) }

  // The statuses a committed action can have.
  const COMMITTED: set<Status> :=
    {AwaitingApproval, Ready, Running, Succeeded, Failed, Compensating, Compensated, Cancelled}

  // The moves the code makes: nothing retries, denies, or cancels a draft, and the moves to EXPIRED and
  // REJECTED are always rolled back.
  predicate Driven(from: Status, to: Status) {
    to in AllowedFrom(from) && (to == Validating || to in COMMITTED) && !(from == Draft && to == Cancelled)
  }

  // The audit trail: one proposal, then contiguous legal moves ending in `status`.
  ghost predicate PathTo(notes: seq<Note>, a: Action, status: Status) {
    && notes != []
    && var last := notes[|notes| - 1];
    && last.actionId == a.id && last.trace == a.trace
    && if |notes| == 1 then last.what.Proposed? && status == Draft
       else
         && last.what.Entered? && last.what.to == status
         && Driven(last.what.from, status)
         && PathTo(notes[..|notes| - 1], a, last.what.from)
  }

  ghost predicate ConsumptionOk(a: Action, ap: Approval, x: Consumption) {
    && x.nonce == ap.nonce && x.now <= ap.expiresAt
    && MayConsume(a, x.user, x.role, x.aal2)
    && ap.approver == Some(UserActor(x.user))
  }

  // An approval exists from R3 up; it is pending until the action is READY and approved from then on.
  ghost predicate ApprovalOk(a: Action, ap: Option<Approval>, consumed: Option<Consumption>) {
    && (ap.None? <==> AutoApproved(a.risk))
    && (a.tool == TELEGRAM_TOOL_NAME ==> ap.Some?)
    && (ap.None? ==> a.status != AwaitingApproval && consumed.None?)
    && (ap.Some? ==>
          && ap.value.actionId == a.id && ap.value.payloadHash == a.payloadHash
          && if a.status == AwaitingApproval then ap.value.status == Pending && consumed.None?
             else ap.value.status == Approved && consumed.Some? && ConsumptionOk(a, ap.value, consumed.value))
  }

  ghost predicate OutboxOk(a: Action, outbox: seq<OutboxRow>) {
    && |outbox| == (if a.status == AwaitingApproval then 0 else 1)
    && forall i :: 0 <= i < |outbox| ==> outbox[i].message == ReadyMessage(a)
  }

  function CountIf(b: bool): nat { if b then 1 else 0 }

  predicate InFlight(claims: map<TaskId, Claim>) { exists r :: r in claims && claims[r].sent }

  predicate IsPublished(outbox: seq<OutboxRow>) { outbox != [] && outbox[0].published }

  // Copies on the stream: one for the published row, one per relay that published and crashed, one in flight.
  ghost predicate RelayOk(outbox: seq<OutboxRow>, claims: map<TaskId, Claim>, stream: nat, crashes: nat) {
    && (forall r, u :: r in claims && u in claims ==> r == u)
    && (claims != map[] ==> outbox != [] && !outbox[0].published)
    && stream == CountIf(IsPublished(outbox)) + crashes + CountIf(InFlight(claims))
    && (outbox == [] ==> crashes == 0)
  }

  ghost predicate AllTransient(sends: seq<Attempt>) { forall i :: 0 <= i < |sends| ==> sends[i].outcome.Transient? }

  // All calls but the last were transient; every call carried the action's own payload.
  ghost predicate SendsOk(a: Action, sends: seq<Attempt>) {
    && |sends| <= TELEGRAM_SEND_ATTEMPTS
    && (sends != [] ==> AllTransient(sends[..|sends| - 1]) && a.tool == TELEGRAM_TOOL_NAME)
    && (forall i :: 0 <= i < |sends| ==> Some(sends[i].message) == TelegramOf(a.payload))
    && (a.status in {AwaitingApproval, Ready, Cancelled} ==> sends == [])
  }

  ghost predicate LastDelivered(sends: seq<Attempt>, id: int) {
    sends != [] && sends[|sends| - 1].outcome == Delivered(id)
  }

  predicate WasDelivered(sends: seq<Attempt>) { sends != [] && sends[|sends| - 1].outcome.Delivered? }

  // SUCCEEDED was entered with the receipt of the call that was delivered.  The connector enters no
  // status but RUNNING, SUCCEEDED and FAILED, and FAILED only for a message that was not delivered.
  ghost predicate ReceiptOk(a: Action, sends: seq<Attempt>, notes: seq<Note>) {
    && (a.status == Succeeded ==>
          && notes != [] && notes[|notes| - 1].what.Entered? && notes[|notes| - 1].what.receipt.Some?
          && LastDelivered(sends, notes[|notes| - 1].what.receipt.value)
          && notes[|notes| - 1].actor == ACTOR_ID)
    && (notes != [] && notes[|notes| - 1].actor == ACTOR_ID && WasDelivered(sends) ==> a.status in {Running, Succeeded})
  }

  // The connector task that committed RUNNING and has not finished.
  predicate Owns(task: Task) {
    task.Started? || task.Sending? || task.Decided? || ((task.Loaded? || task.Holding?) && task.op.Resolve?)
  }

  ghost predicate OwnerOk(a: Action, tasks: map<TaskId, Task>) {
    && (forall t, u :: t in tasks && u in tasks && Owns(tasks[t]) && Owns(tasks[u]) ==> t == u)
    && (forall t :: t in tasks && Owns(tasks[t]) ==>
          a.status in {Running, Compensating, Compensated, Failed} && a.tool == TELEGRAM_TOOL_NAME)
  }

  // While a connector task is at work, the connector's last word is RUNNING.
  ghost predicate LastWordOk(a: Action, notes: seq<Note>, tasks: map<TaskId, Task>) {
    notes != [] && notes[|notes| - 1].actor == ACTOR_ID && (exists t :: t in tasks && Owns(tasks[t])) ==> a.status == Running
  }

  ghost predicate DecisionOk(sends: seq<Attempt>, target: Status, receipt: Option<int>) {
    && target in {Succeeded, Failed}
    && (target == Succeeded ==> receipt.Some? && LastDelivered(sends, receipt.value))
    && (target == Failed ==> !WasDelivered(sends))
  }

  function ActorOf(op: Op): string {
    match op
    case Consume(user, _, _, _) => UserActor(user)
    case Cancel(user, _) => UserActor(user)
    case Compensate(user, _) => UserActor(user)
    case _ => ACTOR_ID
  }

  function Reopened(ap: Approval): Approval { ap.(status := Pending, approver := None) }

  ghost predicate LoadedOk(a: Action, ap: Option<Approval>, sends: seq<Attempt>, op: Op, w: Work) {
    && SameRow(w.action, a) && w.outbox == [] && w.notes == []
    && (op.Consume? ==>
          && ap.Some? && w.approval.Some? && MayConsume(a, op.user, op.role, op.aal2)
          && Reopened(w.approval.value) == Reopened(ap.value))
    && (op.Resolve? ==> DecisionOk(sends, op.target, op.receipt))
  }

  // What a transaction that got past its lock is about to commit.
  ghost predicate HoldingOk(a: Action, ap: Option<Approval>, sends: seq<Attempt>, op: Op, w: Work, now: int) {
    && SameRow(w.action, a)
    && w.action.status in AllowedFrom(a.status)
    && |w.notes| == 1 && w.notes[0].actionId == a.id && w.notes[0].trace == a.trace
    && w.notes[0].actor == ActorOf(op)
    && w.notes[0].what.Entered? && w.notes[0].what.from == a.status && w.notes[0].what.to == w.action.status
    && w.outbox == (if op.Consume? then [ReadyMessage(a)] else [])
    && match op
       case Consume(user, role, aal2, nonce) =>
         && ap.Some? && w.action.status == Ready && a.status == AwaitingApproval
         && MayConsume(a, user, role, aal2) && nonce == ap.value.nonce && now <= ap.value.expiresAt
         && w.approval == Some(ap.value.(status := Approved, approver := Some(UserActor(user))))
       case Cancel(user, role) => w.action.status in {Cancelled, Compensating}
       case Compensate(user, outcome) => w.action.status in {Compensated, Failed}
       case Drive => w.action.status == Running && a.tool == TELEGRAM_TOOL_NAME
       case Resolve(target, receipt) =>
         w.action.status == target && w.notes[0].what.receipt == receipt && DecisionOk(sends, target, receipt)
  }

  ghost predicate TaskOk(a: Action, ap: Option<Approval>, sends: seq<Attempt>, task: Task) {
    match task
    case Loaded(op, w) => LoadedOk(a, ap, sends, op, w)
    case Holding(op, w, now) => HoldingOk(a, ap, sends, op, w, now)
    case Started(b) => SameRow(b, a) && sends == []
    case Sending(b, n) => SameRow(b, a) && n == |sends| < TELEGRAM_SEND_ATTEMPTS && AllTransient(sends)
    case Decided(target, receipt) => DecisionOk(sends, target, receipt)
  }

  ghost predicate TasksOk(a: Action, ap: Option<Approval>, sends: seq<Attempt>, tasks: map<TaskId, Task>) {
    forall t :: t in tasks ==> TaskOk(a, ap, sends, tasks[t])
  }

  // At most the task in `lock` has uncommitted changes.
  ghost predicate LockOk(tasks: map<TaskId, Task>, lock: Option<TaskId>) {
    forall t :: t in tasks && tasks[t].Holding? ==> lock == Some(t)
  }

  ghost predicate RowsInv(c: Cell) {
    && c.action.status in COMMITTED
    && PathTo(c.notes, c.action, c.action.status)
    && ApprovalOk(c.action, c.approval, c.consumed)
    && OutboxOk(c.action, c.outbox)
    && RelayOk(c.outbox, c.claims, c.stream, c.relayCrashes)
    && SendsOk(c.action, c.sends)
    && ReceiptOk(c.action, c.sends, c.notes)
  }

  ghost predicate TasksInv(c: Cell) {
    && OwnerOk(c.action, c.tasks)
    && TasksOk(c.action, c.approval, c.sends, c.tasks)
    && LockOk(c.tasks, c.lock)
    && LastWordOk(c.action, c.notes, c.tasks)
  }

  ghost predicate Inv(c: Cell) { RowsInv(c) && TasksInv(c) }

  // ---------- Every step keeps it ----------

  lemma PathSnoc(notes: seq<Note>, a: Action, n: Note, status: Status)
    requires PathTo(notes, a, status)
    requires n.actionId == a.id && n.trace == a.trace && n.what.Entered? && n.what.from == status
    requires Driven(status, n.what.to)
    ensures PathTo(notes + [n], a, n.what.to)
  {
    assert (notes + [n])[..|notes|] == notes;
  }

  lemma {:induction false} PathSameRow(notes: seq<Note>, a: Action, b: Action, status: Status)
    requires PathTo(notes, a, status) && SameRow(a, b)
    ensures PathTo(notes, b, status)
  {
    if |notes| > 1 { PathSameRow(notes[..|notes| - 1], a, b, notes[|notes| - 1].what.from); }
  }

  // Steps that only move tasks about.
  lemma RowsUnchanged(c: Cell, c': Cell)
    requires RowsInv(c) && c' == c.(tasks := c'.tasks, lock := c'.lock)
    ensures RowsInv(c')
  {
  }

  // The owner of the sends after a task was replaced or dropped: nobody new.
  lemma OwnersFewer(a: Action, notes: seq<Note>, tasks: map<TaskId, Task>, fewer: map<TaskId, Task>)
    requires OwnerOk(a, tasks) && LastWordOk(a, notes, tasks)
    requires forall u :: u in fewer && Owns(fewer[u]) ==> u in tasks && Owns(tasks[u])
    ensures OwnerOk(a, fewer) && LastWordOk(a, notes, fewer)
  {
    assert (exists u :: u in fewer && Owns(fewer[u])) ==> (exists u :: u in tasks && Owns(tasks[u]));
  }

  lemma PutTask(c: Cell, t: TaskId, task: Task, lock: Option<TaskId>)
    requires TasksInv(c) && TaskOk(c.action, c.approval, c.sends, task)
    requires Owns(task) ==> t in c.tasks && Owns(c.tasks[t])
    requires LockOk(c.tasks[t := task], lock)
    ensures TasksInv(c.(tasks := c.tasks[t := task], lock := lock))
  {
    OwnersFewer(c.action, c.notes, c.tasks, c.tasks[t := task]);
  }

  lemma DropTask(c: Cell, t: TaskId, lock: Option<TaskId>)
    requires TasksInv(c) && LockOk(c.tasks - {t}, lock)
    ensures TasksInv(c.(tasks := c.tasks - {t}, lock := lock))
  {
    OwnersFewer(c.action, c.notes, c.tasks, c.tasks - {t});
  }

  lemma LoadKeepsInv(c: Cell, t: TaskId, op: Op)
    requires Inv(c) && MayLoad(c, t, op)
    ensures Inv(Next(c, Load(t, op)))
  {
    if op.Resolve? { assert TaskOk(c.action, c.approval, c.sends, c.tasks[t]); }
    var task := Loaded(op, Work(c.action, c.approval, [], []));
    assert LoadedOk(c.action, c.approval, c.sends, op, task.work);
    PutTask(c, t, task, c.lock);
    RowsUnchanged(c, Next(c, Load(t, op)));
  }

  lemma ExecuteOk(c: Cell, op: Op, w: Work, now: int)
    requires Inv(c) && LoadedOk(c.action, c.approval, c.sends, op, w)
    requires Execute(op, w, c.action, now).error.None?
    ensures HoldingOk(c.action, c.approval, c.sends, op, Execute(op, w, c.action, now).work, now)
  {
    if op.Consume? {
      ConsumeOk(c.action, c.approval, c.sends, op, w, now);
    } else {
      MoveOk(c.action, c.approval, c.sends, op, w, now);
    }
  }

  lemma ConsumeOk(a: Action, ap: Option<Approval>, sends: seq<Attempt>, op: Op, w: Work, now: int)
    requires op.Consume? && LoadedOk(a, ap, sends, op, w) && a.status in COMMITTED
    requires ap.Some? ==> ap.value.payloadHash == a.payloadHash
    requires Execute(op, w, a, now).error.None?
    ensures HoldingOk(a, ap, sends, op, Execute(op, w, a, now).work, now)
  {
    ConsumedIff(w, a, UserActor(op.user), op.nonce, now);
  }

  lemma MoveOk(a: Action, ap: Option<Approval>, sends: seq<Attempt>, op: Op, w: Work, now: int)
    requires !op.Consume? && LoadedOk(a, ap, sends, op, w) && Execute(op, w, a, now).error.None?
    ensures HoldingOk(a, ap, sends, op, Execute(op, w, a, now).work, now)
  {
  }

  lemma LockEffect(c: Cell, t: TaskId, now: int)
    requires t in c.tasks && c.tasks[t].Loaded? && c.lock.None?
    requires c.tasks[t].op.Consume? ==> c.tasks[t].work.approval.Some?
    ensures var op, o := c.tasks[t].op, Execute(c.tasks[t].op, c.tasks[t].work, c.action, now);
      Next(c, Lock(t, now)) ==
        if o.error.Some? then c.(tasks := c.tasks - {t}, lock := c.lock)
        else c.(tasks := c.tasks[t := Holding(op, o.work, now)], lock := Some(t))
  {
  }

  lemma LockKeepsInv(c: Cell, t: TaskId, now: int)
    requires Inv(c) && t in c.tasks && c.tasks[t].Loaded? && c.lock.None?
    ensures Inv(Next(c, Lock(t, now)))
  {
    var op, w := c.tasks[t].op, c.tasks[t].work;
    assert TaskOk(c.action, c.approval, c.sends, c.tasks[t]);
    LockEffect(c, t, now);
    RowsUnchanged(c, Next(c, Lock(t, now)));
    if Execute(op, w, c.action, now).error.None? { LockHolds(c, t, now); } else { DropTask(c, t, c.lock); }
  }

  lemma LockHolds(c: Cell, t: TaskId, now: int)
    requires Inv(c) && t in c.tasks && c.tasks[t].Loaded? && c.lock.None?
    requires LoadedOk(c.action, c.approval, c.sends, c.tasks[t].op, c.tasks[t].work)
    requires Execute(c.tasks[t].op, c.tasks[t].work, c.action, now).error.None?
    ensures var o := Execute(c.tasks[t].op, c.tasks[t].work, c.action, now);
      TasksInv(c.(tasks := c.tasks[t := Holding(c.tasks[t].op, o.work, now)], lock := Some(t)))
  {
    var o := Execute(c.tasks[t].op, c.tasks[t].work, c.action, now);
    ExecuteOk(c, c.tasks[t].op, c.tasks[t].work, now);
    PutTask(c, t, Holding(c.tasks[t].op, o.work, now), Some(t));
  }

  // --- Commit: one lemma per part of the invariant, about `a` before and `w.action` after ---

  lemma HeldMove(a: Action, ap: Option<Approval>, sends: seq<Attempt>, op: Op, w: Work, now: int)
    requires a.status in COMMITTED && HoldingOk(a, ap, sends, op, w, now)
    ensures SameRow(w.action, a) && Driven(a.status, w.action.status) && w.action.status in COMMITTED
    ensures op.Consume? <==> a.status == AwaitingApproval
    ensures op.Resolve? || w.action.status != Succeeded
  {
  }

  lemma MoveKeepsPath(a: Action, notes: seq<Note>, ap: Option<Approval>, sends: seq<Attempt>, op: Op, w: Work, now: int)
    requires a.status in COMMITTED && HoldingOk(a, ap, sends, op, w, now) && PathTo(notes, a, a.status)
    ensures PathTo(notes + w.notes, w.action, w.action.status)
  {
    HeldMove(a, ap, sends, op, w, now);
    PathSnoc(notes, a, w.notes[0], a.status);
    assert w.notes == [w.notes[0]];
    PathSameRow(notes + w.notes, a, w.action, w.action.status);
  }

  lemma MoveKeepsApproval(a: Action, ap: Option<Approval>, consumed: Option<Consumption>, sends: seq<Attempt>,
                          op: Op, w: Work, now: int)
    requires a.status in COMMITTED && HoldingOk(a, ap, sends, op, w, now) && ApprovalOk(a, ap, consumed)
    ensures if op.Consume?
      then ApprovalOk(w.action, w.approval, Some(Consumption(op.user, op.role, op.aal2, op.nonce, now)))
      else ApprovalOk(w.action, ap, consumed)
  {
    HeldMove(a, ap, sends, op, w, now);
  }

  lemma MoveKeepsOutbox(a: Action, outbox: seq<OutboxRow>, claims: map<TaskId, Claim>, stream: nat, crashes: nat,
                        ap: Option<Approval>, sends: seq<Attempt>, op: Op, w: Work, now: int)
    requires a.status in COMMITTED && HoldingOk(a, ap, sends, op, w, now)
    requires OutboxOk(a, outbox) && RelayOk(outbox, claims, stream, crashes)
    ensures OutboxOk(w.action, outbox + Rows(w.outbox)) && RelayOk(outbox + Rows(w.outbox), claims, stream, crashes)
  {
    HeldMove(a, ap, sends, op, w, now);
    if op.Consume? {
      assert outbox == [] && Rows(w.outbox)[0] == OutboxRow(ReadyMessage(a), false, 0);
    } else {
      assert outbox + Rows(w.outbox) == outbox;
    }
  }

  lemma MoveKeepsSends(a: Action, b: Action, sends: seq<Attempt>)
    requires SendsOk(a, sends) && SameRow(b, a) && Driven(a.status, b.status)
    ensures SendsOk(b, sends) || a.status in {Draft, Validating, Retrying}
  {
  }

  lemma PeopleAreNotTheConnector(user: string)
    ensures UserActor(user) != ACTOR_ID
  {
    assert UserActor(user)[0] == 'u' && ACTOR_ID[0] == 's';
  }

  lemma MoveKeepsReceipt(a: Action, notes: seq<Note>, ap: Option<Approval>, sends: seq<Attempt>, op: Op, w: Work, now: int)
    requires a.status in COMMITTED && HoldingOk(a, ap, sends, op, w, now)
    ensures ReceiptOk(w.action, sends, notes + w.notes)
  {
    HeldMove(a, ap, sends, op, w, now);
    assert (notes + w.notes)[|notes + w.notes| - 1] == w.notes[0];
    if !op.Drive? && !op.Resolve? { PeopleAreNotTheConnector(op.user); }
  }

  // The moves away from the statuses a connector task can live in stay among them, or are its own.
  lemma MoveKeepsOwner(a: Action, tasks: map<TaskId, Task>, t: TaskId, b: Action)
    requires OwnerOk(a, tasks) && SameRow(b, a) && Driven(a.status, b.status)
    requires b.status == Succeeded ==> t in tasks && Owns(tasks[t])
    ensures OwnerOk(b, tasks - {t})
  {
    forall u | u in tasks - {t} && Owns(tasks[u])
      ensures b.status in {Running, Compensating, Compensated, Failed}
    {
      assert u in tasks && Owns(tasks[u]) && u != t;
    }
  }

  lemma DriveMakesOwner(a: Action, tasks: map<TaskId, Task>, t: TaskId, b: Action)
    requires OwnerOk(a, tasks) && SameRow(b, a) && a.status == Ready && b.status == Running
    requires a.tool == TELEGRAM_TOOL_NAME
    ensures OwnerOk(b, tasks[t := Started(b)])
  {
    assert forall u :: u in tasks ==> !Owns(tasks[u]);
  }

  // Other tasks do not notice a commit: it changes the status, and the approval's status and approver.
  lemma MoveKeepsTask(a: Action, ap: Option<Approval>, sends: seq<Attempt>, b: Action, bp: Option<Approval>, task: Task)
    requires TaskOk(a, ap, sends, task) && !task.Holding? && SameRow(b, a)
    requires ap == bp || (ap.Some? && bp.Some? && Reopened(ap.value) == Reopened(bp.value))
    ensures TaskOk(b, bp, sends, task)
  {
  }

  lemma HeldOk(c: Cell, t: TaskId)
    requires TasksInv(c) && t in c.tasks && c.tasks[t].Holding?
    ensures HoldingOk(c.action, c.approval, c.sends, c.tasks[t].op, c.tasks[t].work, c.tasks[t].now)
    ensures forall u :: u in c.tasks && c.tasks[u].Holding? ==> u == t
  {
    assert TaskOk(c.action, c.approval, c.sends, c.tasks[t]);
  }

  lemma CommitKeepsTrail(c: Cell, t: TaskId)
    requires RowsInv(c) && t in c.tasks && c.tasks[t].Holding?
    requires HoldingOk(c.action, c.approval, c.sends, c.tasks[t].op, c.tasks[t].work, c.tasks[t].now)
    ensures var c' := AfterCommit(c, t);
      c'.action.status in COMMITTED && PathTo(c'.notes, c'.action, c'.action.status) && ApprovalOk(c'.action, c'.approval, c'.consumed)
  {
    var op, w, now := c.tasks[t].op, c.tasks[t].work, c.tasks[t].now;
    HeldMove(c.action, c.approval, c.sends, op, w, now);
    MoveKeepsPath(c.action, c.notes, c.approval, c.sends, op, w, now);
    MoveKeepsApproval(c.action, c.approval, c.consumed, c.sends, op, w, now);
  }

  lemma CommitKeepsSends(c: Cell, t: TaskId)
    requires RowsInv(c) && t in c.tasks && c.tasks[t].Holding?
    requires HoldingOk(c.action, c.approval, c.sends, c.tasks[t].op, c.tasks[t].work, c.tasks[t].now)
    ensures var c' := AfterCommit(c, t);
      && OutboxOk(c'.action, c'.outbox) && RelayOk(c'.outbox, c'.claims, c'.stream, c'.relayCrashes)
      && SendsOk(c'.action, c'.sends) && ReceiptOk(c'.action, c'.sends, c'.notes)
  {
    var op, w, now := c.tasks[t].op, c.tasks[t].work, c.tasks[t].now;
    HeldMove(c.action, c.approval, c.sends, op, w, now);
    MoveKeepsOutbox(c.action, c.outbox, c.claims, c.stream, c.relayCrashes, c.approval, c.sends, op, w, now);
    MoveKeepsSends(c.action, w.action, c.sends);
    MoveKeepsReceipt(c.action, c.notes, c.approval, c.sends, op, w, now);
  }

  lemma CommitKeepsRows(c: Cell, t: TaskId)
    requires RowsInv(c) && t in c.tasks && c.tasks[t].Holding?
    requires HoldingOk(c.action, c.approval, c.sends, c.tasks[t].op, c.tasks[t].work, c.tasks[t].now)
    ensures RowsInv(AfterCommit(c, t))
  {
    CommitKeepsTrail(c, t);
    CommitKeepsSends(c, t);
  }

  // The tasks a commit leaves: the others, and the connector's own once it has driven the action.
  lemma OthersKept(a: Action, ap: Option<Approval>, sends: seq<Attempt>, b: Action, bp: Option<Approval>,
                   tasks: map<TaskId, Task>, left: map<TaskId, Task>, t: TaskId)
    requires TasksOk(a, ap, sends, tasks) && SameRow(b, a)
    requires ap == bp || (ap.Some? && bp.Some? && Reopened(ap.value) == Reopened(bp.value))
    requires forall u :: u in left && u != t ==> u in tasks && left[u] == tasks[u] && !tasks[u].Holding?
    requires t in left ==> TaskOk(b, bp, sends, left[t]) && !left[t].Holding?
    ensures TasksOk(b, bp, sends, left) && LockOk(left, None)
  {
    forall u | u in left && u != t
      ensures TaskOk(b, bp, sends, left[u])
    {
      MoveKeepsTask(a, ap, sends, b, bp, tasks[u]);
    }
  }

  lemma CommitKeepsTasks(c: Cell, t: TaskId)
    requires RowsInv(c) && TasksInv(c) && t in c.tasks && c.tasks[t].Holding?
    ensures var c' := AfterCommit(c, t);
      TasksOk(c'.action, c'.approval, c'.sends, c'.tasks) && LockOk(c'.tasks, c'.lock)
  {
    var c' := AfterCommit(c, t);
    HeldOk(c, t);
    HeldMove(c.action, c.approval, c.sends, c.tasks[t].op, c.tasks[t].work, c.tasks[t].now);
    assert c.tasks[t].op.Drive? ==> c.sends == [];
    OthersKept(c.action, c.approval, c.sends, c'.action, c'.approval, c.tasks, c'.tasks, t);
  }

  lemma CommitKeepsOwner(c: Cell, t: TaskId)
    requires t in c.tasks && c.tasks[t].Holding? && c.action.status in COMMITTED
    requires HoldingOk(c.action, c.approval, c.sends, c.tasks[t].op, c.tasks[t].work, c.tasks[t].now)
    requires OwnerOk(c.action, c.tasks)
    ensures OwnerOk(AfterCommit(c, t).action, AfterCommit(c, t).tasks)
  {
    var op, w := c.tasks[t].op, c.tasks[t].work;
    HeldMove(c.action, c.approval, c.sends, op, w, c.tasks[t].now);
    if op.Drive? {
      DriveMakesOwner(c.action, c.tasks, t, w.action);
    } else {
      MoveKeepsOwner(c.action, c.tasks, t, w.action);
    }
  }

  lemma CommitKeepsLastWord(c: Cell, t: TaskId)
    requires RowsInv(c) && OwnerOk(c.action, c.tasks) && t in c.tasks && c.tasks[t].Holding?
    requires HoldingOk(c.action, c.approval, c.sends, c.tasks[t].op, c.tasks[t].work, c.tasks[t].now)
    ensures LastWordOk(AfterCommit(c, t).action, AfterCommit(c, t).notes, AfterCommit(c, t).tasks)
  {
    var op, w := c.tasks[t].op, c.tasks[t].work;
    assert (c.notes + w.notes)[|c.notes + w.notes| - 1] == w.notes[0];
    if !op.Drive? && !op.Resolve? { PeopleAreNotTheConnector(op.user); }
    if op.Resolve? { assert forall u :: u in c.tasks && u != t ==> !Owns(c.tasks[u]); }
  }

  lemma CommitKeepsInv(c: Cell, t: TaskId)
    requires Inv(c) && t in c.tasks && c.tasks[t].Holding?
    ensures Inv(AfterCommit(c, t))
  {
    HeldOk(c, t);
    CommitKeepsRows(c, t);
    CommitKeepsOwner(c, t);
    CommitKeepsLastWord(c, t);
    CommitKeepsTasks(c, t);
  }

  // A task moving on from Started: nothing but that task changes, and it goes on owning the sends.
  lemma DispatchedTaskOk(c: Cell, t: TaskId, hasToken: bool)
    requires t in c.tasks && c.tasks[t].Started? && TaskOk(c.action, c.approval, c.sends, c.tasks[t])
    ensures var c' := Next(c, Dispatch(t, hasToken));
      && c' == c.(tasks := c.tasks[t := c'.tasks[t]]) && Owns(c'.tasks[t]) && !c'.tasks[t].Holding?
      && TaskOk(c.action, c.approval, c.sends, c'.tasks[t])
  {
  }

  lemma DispatchKeepsInv(c: Cell, t: TaskId, hasToken: bool)
    requires Inv(c) && t in c.tasks && c.tasks[t].Started?
    ensures Inv(Next(c, Dispatch(t, hasToken)))
  {
    assert TaskOk(c.action, c.approval, c.sends, c.tasks[t]) && Owns(c.tasks[t]);
    DispatchedTaskOk(c, t, hasToken);
    PutTask(c, t, Next(c, Dispatch(t, hasToken)).tasks[t], c.lock);
    RowsUnchanged(c, Next(c, Dispatch(t, hasToken)));
  }

  // Only the connector task in charge looks at the calls made.
  lemma SendKeepsTask(a: Action, ap: Option<Approval>, sends: seq<Attempt>, more: seq<Attempt>, task: Task)
    requires TaskOk(a, ap, sends, task) && !Owns(task)
    ensures TaskOk(a, ap, more, task)
  {
  }

  lemma OneMoreSend(a: Action, sends: seq<Attempt>, x: Attempt)
    requires SendsOk(a, sends) && AllTransient(sends) && |sends| < TELEGRAM_SEND_ATTEMPTS
    requires a.tool == TELEGRAM_TOOL_NAME && Some(x.message) == TelegramOf(a.payload)
    requires a.status !in {AwaitingApproval, Ready, Cancelled}
    ensures SendsOk(a, sends + [x])
    ensures x.outcome.Transient? ==> AllTransient(sends + [x])
    ensures x.outcome.Delivered? ==> LastDelivered(sends + [x], x.outcome.messageId)
  {
    assert (sends + [x])[..|sends|] == sends;
  }

  lemma SendKeepsReceipt(a: Action, notes: seq<Note>, sends: seq<Attempt>)
    requires a.status in {Running, Compensating, Compensated, Failed}
    requires notes != [] && notes[|notes| - 1].actor == ACTOR_ID ==> a.status == Running
    ensures ReceiptOk(a, sends, notes)
  {
  }

  // The decision of the sending task fits its last call.
  lemma SentTaskOk(a: Action, ap: Option<Approval>, sends: seq<Attempt>, b: Action, outcome: SendOutcome, x: Attempt)
    requires SameRow(b, a) && |sends| < TELEGRAM_SEND_ATTEMPTS && AllTransient(sends) && x.outcome == outcome
    ensures var more := sends + [x];
      match outcome
      case Delivered(id) => TaskOk(a, ap, more, Decided(Succeeded, Some(id)))
      case Transient =>
        if |more| < TELEGRAM_SEND_ATTEMPTS then TaskOk(a, ap, more, Sending(b, |more|)) else TaskOk(a, ap, more, Decided(Failed, None))
      case Terminal => TaskOk(a, ap, more, Decided(Failed, None))
      case Unexpected => true
  {
    assert (sends + [x])[|sends|] == x;
  }

  // The receipt of what is sent.
  lemma SendKeepsSends(c: Cell, t: TaskId, outcome: SendOutcome)
    requires SendsOk(c.action, c.sends) && OwnerOk(c.action, c.tasks) && LastWordOk(c.action, c.notes, c.tasks)
    requires t in c.tasks && c.tasks[t].Sending? && TelegramOf(c.tasks[t].action.payload).Some?
    requires TaskOk(c.action, c.approval, c.sends, c.tasks[t])
    ensures SendsOk(c.action, Next(c, Send(t, outcome)).sends)
    ensures ReceiptOk(c.action, Next(c, Send(t, outcome)).sends, c.notes)
  {
    assert Owns(c.tasks[t]);
    var x := Attempt(TelegramOf(c.tasks[t].action.payload).value, outcome);
    OneMoreSend(c.action, c.sends, x);
    SendKeepsReceipt(c.action, c.notes, c.sends + [x]);
  }

  // The task that sends.
  lemma SendKeepsSender(c: Cell, t: TaskId, outcome: SendOutcome)
    requires t in c.tasks && c.tasks[t].Sending? && TelegramOf(c.tasks[t].action.payload).Some?
    requires TaskOk(c.action, c.approval, c.sends, c.tasks[t])
    ensures var c' := Next(c, Send(t, outcome));
      t in c'.tasks ==> TaskOk(c.action, c.approval, c'.sends, c'.tasks[t])
  {
    var x := Attempt(TelegramOf(c.tasks[t].action.payload).value, outcome);
    SentTaskOk(c.action, c.approval, c.sends, c.tasks[t].action, outcome, x);
  }

  // Every other task: it does not own the sends.
  lemma SendKeepsOthers(c: Cell, t: TaskId, outcome: SendOutcome)
    requires OwnerOk(c.action, c.tasks) && TasksOk(c.action, c.approval, c.sends, c.tasks)
    requires t in c.tasks && c.tasks[t].Sending? && TelegramOf(c.tasks[t].action.payload).Some?
    ensures var c' := Next(c, Send(t, outcome));
      && (forall u :: u in c'.tasks && u != t ==> TaskOk(c.action, c.approval, c'.sends, c'.tasks[u]))
      && OwnerOk(c.action, c'.tasks)
  {
    var c' := Next(c, Send(t, outcome));
    assert Owns(c.tasks[t]);
    forall u | u in c'.tasks && u != t
      ensures TaskOk(c.action, c.approval, c'.sends, c'.tasks[u])
    {
      assert c'.tasks[u] == c.tasks[u];
      SendKeepsTask(c.action, c.approval, c.sends, c'.sends, c.tasks[u]);
    }
  }

  lemma SendTouchesOnly(c: Cell, t: TaskId, outcome: SendOutcome)
    requires t in c.tasks && c.tasks[t].Sending? && TelegramOf(c.tasks[t].action.payload).Some?
    ensures var c' := Next(c, Send(t, outcome));
      && c' == c.(sends := c'.sends, tasks := c'.tasks)
      && (forall u :: u in c'.tasks ==> u in c.tasks && (u == t || c'.tasks[u] == c.tasks[u]))
      && (t in c'.tasks ==> !c'.tasks[t].Holding?)
  {
  }

  lemma SendKeepsInv(c: Cell, t: TaskId, outcome: SendOutcome)
    requires Inv(c) && t in c.tasks && c.tasks[t].Sending? && TelegramOf(c.tasks[t].action.payload).Some?
    ensures Inv(Next(c, Send(t, outcome)))
  {
    assert TaskOk(c.action, c.approval, c.sends, c.tasks[t]) && Owns(c.tasks[t]);
    SendKeepsSends(c, t, outcome);
    SendKeepsSender(c, t, outcome);
    SendKeepsOthers(c, t, outcome);
    SendTouchesOnly(c, t, outcome);
  }

  lemma CrashKeepsInv(c: Cell, t: TaskId)
    requires Inv(c)
    ensures Inv(Next(c, Crash(t)))
  {
    DropTask(c, t, Next(c, Crash(t)).lock);
    RowsUnchanged(c, Next(c, Crash(t)));
  }

  // What a relay step changes, and what it counts.
  lemma RelayKeepsCounts(c: Cell, step: Step)
    requires RelayOk(c.outbox, c.claims, c.stream, c.relayCrashes) && OutboxOk(c.action, c.outbox)
    requires step.ClaimRow? || step.Publish? || step.MarkPublished? || step.RelayCrash?
    ensures var c' := Next(c, step);
      && c' == c.(outbox := c'.outbox, claims := c'.claims, stream := c'.stream, relayCrashes := c'.relayCrashes)
      && RelayOk(c'.outbox, c'.claims, c'.stream, c'.relayCrashes) && OutboxOk(c.action, c'.outbox)
  {
    var c' := Next(c, step);
    assert step.Publish? && c' != c ==> step.r in c'.claims && c'.claims[step.r].sent && !InFlight(c.claims);
    assert step.MarkPublished? && c' != c ==> InFlight(c.claims) && c'.claims == map[];
    assert step.RelayCrash? && c' != c ==> c'.claims == map[] && InFlight(c.claims) == c.claims[step.r].sent;
  }

  lemma RelayKeepsInv(c: Cell, step: Step)
    requires Inv(c) && (step.ClaimRow? || step.Publish? || step.MarkPublished? || step.RelayCrash?)
    ensures Inv(Next(c, step))
  {
    RelayKeepsCounts(c, step);
  }

  lemma NextKeepsInv(c: Cell, step: Step)
    requires Inv(c)
    ensures Inv(Next(c, step))
  {
    if Next(c, step) != c {
      match step
      case Load(t, op) => LoadKeepsInv(c, t, op);
      case Lock(t, now) => LockKeepsInv(c, t, now);
      case Commit(t) => CommitKeepsInv(c, t);
      case Dispatch(t, hasToken) => DispatchKeepsInv(c, t, hasToken);
      case Send(t, outcome) => SendKeepsInv(c, t, outcome);
      case Crash(t) => CrashKeepsInv(c, t);
      case _ => RelayKeepsInv(c, step);
    }
  }
}
