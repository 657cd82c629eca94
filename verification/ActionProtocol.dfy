/**
  The life of one action as concurrent transactions see it: API requests, the Telegram connector and the
  outbox relay (backend/src/doda/application/action_service.py, infrastructure/telegram_relay.py,
  infrastructure/outbox_relay.py).

  Loading rows, taking the action's row lock, committing and crashing are separate steps, and any number
  of tasks interleave.  A step whose guard is false changes nothing.
*/
module ActionProtocol {
  import opened Wrappers
  import opened JsonCanonical
  import opened ActionStates
  import opened Roles
  import opened ActionService
  import opened TelegramRelay

  type TaskId = nat

  // What one transaction is for.
  datatype Op =
    | Consume(user: string, role: WorkspaceRole, aal2: bool, nonce: string)
    | Cancel(user: string, role: WorkspaceRole)
    | Compensate(user: string, outcome: Status)
    | Drive                                             // _drive_to_running
    | Resolve(target: Status, receipt: Option<int>)     // _resolve

  datatype Task =
    | Loaded(op: Op, work: Work)              // rows read, no lock yet
    | Holding(op: Op, work: Work, now: int)   // row lock taken, changes made, not committed
    | Started(action: Action)                 // process_entry after _drive_to_running
    | Sending(action: Action, tries: nat)
    | Decided(target: Status, receipt: Option<int>)

  datatype Attempt = Attempt(message: Telegram, outcome: SendOutcome)

  datatype OutboxRow = OutboxRow(message: OutboxMessage, published: bool, attempts: nat)

  // A relay transaction's hold on the outbox row; `sent` once the copy is on the stream.
  datatype Claim = Claim(sent: bool)

  // How the approval was consumed. A history variable.
  datatype Consumption = Consumption(user: string, role: WorkspaceRole, aal2: bool, nonce: string, now: int)

  datatype Cell = Cell(
    // committed rows
    action: Action, approval: Option<Approval>, outbox: seq<OutboxRow>, notes: seq<Note>,
    // row lock and running tasks
    lock: Option<TaskId>, tasks: map<TaskId, Task>,
    // outside the database: calls made to Telegram, copies of the outbox row on the stream
    sends: seq<Attempt>, stream: nat,
    // relay transactions on the outbox row, and how many of them crashed after publishing
    claims: map<TaskId, Claim>, relayCrashes: nat,
    consumed: Option<Consumption>)

  datatype Step =
    | Load(t: TaskId, op: Op)
    | Lock(t: TaskId, now: int)
    | Commit(t: TaskId)
    | Dispatch(t: TaskId, hasToken: bool)
    | Send(t: TaskId, outcome: SendOutcome)
    | Crash(t: TaskId)
    | ClaimRow(r: TaskId)
    | Publish(r: TaskId)
    | MarkPublished(r: TaskId)
    | RelayCrash(r: TaskId)

  // ---------- Creation ----------

  // propose_action and submit_action_for_execution run in one transaction; nobody sees the row earlier.
  function Draft0(h: Hasher, a: Action): Action {
    a.(risk := EnforceMinimumRiskLevel(a.tool, a.risk), payloadHash := HashPayload(h, a.payload), status := Draft)
  }

  function NewCell(h: Hasher, request: Action, nonce: string, now: int): Cell {
    var draft := Draft0(h, request);
    var w := Submitted(Work(draft, None, [], [Note(draft.id, draft.trace, draft.actor, Proposed)]), draft.actor, nonce, now).work;
    Cell(w.action, w.approval, Rows(w.outbox), w.notes, None, map[], [], 0, map[], 0, None)
  }

  function Rows(messages: seq<OutboxMessage>): seq<OutboxRow> {
    seq(|messages|, i requires 0 <= i < |messages| => OutboxRow(messages[i], false, 0))
  }

  // ---------- Steps ----------

  predicate MayLoad(c: Cell, t: TaskId, op: Op) {
    match op
    case Consume(user, role, aal2, nonce) => t !in c.tasks && c.approval.Some? && MayConsume(c.action, user, role, aal2)
    case Cancel(user, role) => t !in c.tasks && MayCancel(c.action, user, role)
    case Compensate(user, outcome) => t !in c.tasks  // the caller is a workspace admin
    case Drive => t !in c.tasks && c.stream > 0      // any copy, delivered any number of times
    case Resolve(target, receipt) => t in c.tasks && c.tasks[t] == Decided(target, receipt)
  }

  function Execute(op: Op, w: Work, stored: Action, now: int): Outcome
    requires op.Consume? ==> w.approval.Some?
  {
    match op
    case Consume(user, role, aal2, nonce) => Consumed(w, stored, UserActor(user), nonce, now)
    case Cancel(user, role) => CancellationRequested(w, stored, UserActor(user))
    case Compensate(user, outcome) => CompensationCompleted(w, stored, outcome, UserActor(user))
    case Drive =>
      if w.action.tool != TELEGRAM_TOOL_NAME || w.action.status != Ready then Outcome(w, Some(NotForThisConnector))
      else Transitioned(w, stored, Running, ACTOR_ID, None)
    case Resolve(target, receipt) => Transitioned(w, stored, target, ACTOR_ID, receipt)
  }

  function AfterLock(c: Cell, t: TaskId, now: int): Cell
    requires t in c.tasks && c.tasks[t].Loaded?
  {
    var op, w := c.tasks[t].op, c.tasks[t].work;
    if op.Consume? && w.approval.None? then c else
    var o := Execute(op, w, c.action, now);
    if o.error.Some? then c.(tasks := c.tasks - {t})  // the exception rolls the transaction back
    else c.(tasks := c.tasks[t := Holding(op, o.work, now)], lock := Some(t))
  }

  function AfterCommit(c: Cell, t: TaskId): Cell
    requires t in c.tasks && c.tasks[t].Holding?
  {
    var op, w := c.tasks[t].op, c.tasks[t].work;
    var c' := c.(action := w.action, outbox := c.outbox + Rows(w.outbox), notes := c.notes + w.notes, lock := None);
    match op
    case Consume(user, role, aal2, nonce) =>
      c'.(tasks := c.tasks - {t}, approval := w.approval,
          consumed := Some(Consumption(user, role, aal2, nonce, c.tasks[t].now)))
    case Drive => c'.(tasks := c.tasks[t := Started(w.action)])
    case _ => c'.(tasks := c.tasks - {t})
  }

  // Without a bot token, or with a malformed payload, nothing is sent.
  function AfterDispatch(c: Cell, t: TaskId, hasToken: bool): Cell
    requires t in c.tasks && c.tasks[t].Started?
  {
    var a := c.tasks[t].action;
    c.(tasks := c.tasks[t := if hasToken && TelegramOf(a.payload).Some? then Sending(a, 0) else Decided(Failed, None)])
  }

  function AfterSend(c: Cell, t: TaskId, outcome: SendOutcome): Cell
    requires t in c.tasks && c.tasks[t].Sending? && TelegramOf(c.tasks[t].action.payload).Some?
  {
    var a, n := c.tasks[t].action, c.tasks[t].tries + 1;
    var c' := c.(sends := c.sends + [Attempt(TelegramOf(a.payload).value, outcome)]);
    match outcome
    case Delivered(id) => c'.(tasks := c.tasks[t := Decided(Succeeded, Some(id))])
    case Transient =>
      c'.(tasks := c.tasks[t := if n < TELEGRAM_SEND_ATTEMPTS then Sending(a, n) else Decided(Failed, None)])
    case Terminal => c'.(tasks := c.tasks[t := Decided(Failed, None)])
    case Unexpected => c'.(tasks := c.tasks - {t})
  }

  function Next(c: Cell, step: Step): Cell {
    match step
    case Load(t, op) =>
      if MayLoad(c, t, op) then c.(tasks := c.tasks[t := Loaded(op, Work(c.action, c.approval, [], []))]) else c
    case Lock(t, now) =>
      if t in c.tasks && c.tasks[t].Loaded? && c.lock.None? then AfterLock(c, t, now) else c
    case Commit(t) =>
      if t in c.tasks && c.tasks[t].Holding? then AfterCommit(c, t) else c
    case Dispatch(t, hasToken) =>
      if t in c.tasks && c.tasks[t].Started? then AfterDispatch(c, t, hasToken) else c
    case Send(t, outcome) =>
      if t in c.tasks && c.tasks[t].Sending? && TelegramOf(c.tasks[t].action.payload).Some? then AfterSend(c, t, outcome) else c
    case Crash(t) => c.(tasks := c.tasks - {t}, lock := if c.lock == Some(t) then None else c.lock)
    case ClaimRow(r) =>  // FOR UPDATE SKIP LOCKED over unpublished rows
      if c.outbox != [] && !c.outbox[0].published && c.claims == map[] then c.(claims := map[r := Claim(false)]) else c
    case Publish(r) =>
      if r in c.claims && !c.claims[r].sent then c.(claims := c.claims[r := Claim(true)], stream := c.stream + 1) else c
    case MarkPublished(r) =>
      if r in c.claims && c.claims[r].sent && c.outbox != [] then
        c.(claims := c.claims - {r},
           outbox := c.outbox[0 := c.outbox[0].(published := true, attempts := c.outbox[0].attempts + 1)])
      else c
    case RelayCrash(r) =>
      if r in c.claims then c.(claims := c.claims - {r}, relayCrashes := c.relayCrashes + if c.claims[r].sent then 1 else 0)
      else c
  }

  function Run(c: Cell, steps: seq<Step>): Cell
    decreases |steps|
  {
    if steps == [] then c else Run(Next(c, steps[0]), steps[1..])
  }
}
