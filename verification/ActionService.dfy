/**
  Action lifecycle (backend/src/doda/application/action_service.py) and who may approve or cancel
  (backend/src/doda/application/authz_service.py).

  A request works inside one transaction.  `UnitOfWork` is the session: the action and approval objects
  it loaded, and the rows it has added.  The functions say what each operation leaves in the session; the
  caller commits that when there is no error, and an error leaving the transaction rolls all of it back.
*/
module ActionService {
  import opened Wrappers
  import opened AuditChain
  import opened ActionStates
  import opened Roles

  datatype Action = Action(
    id: int, customer: string, workspace: string, trace: string, actor: string, tool: string, risk: Risk,
    payload: NativeJson, payloadHash: string, key: string, status: Status)

  datatype ApprovalStatus = Pending | Approved | ApprovalDenied | ApprovalExpired

  datatype Approval = Approval(
    actionId: int, payloadHash: string, nonce: string, status: ApprovalStatus, approver: Option<string>, expiresAt: int)

  datatype OutboxMessage = OutboxMessage(actionId: int, tool: string)

  // What an audit event about an action says.
  datatype Occurrence =
    | Proposed
    | Entered(from: Status, to: Status, receipt: Option<int>)
    | TransitionRejected(from: Status, to: Status)

  datatype Note = Note(actionId: int, trace: string, actor: string, what: Occurrence)

  datatype ServiceError =
    | MissingProviderReceipt
    | InvalidActionTransition(from: Status, to: Status)
    | ApprovalInvalid
    | ActionNotCancellable(status: Status)
    | InvalidCompensationOutcome(outcome: Status)
    | NotForThisConnector

  // The session's contents: loaded objects, and the outbox and audit rows added so far.
  datatype Work = Work(action: Action, approval: Option<Approval>, outbox: seq<OutboxMessage>, notes: seq<Note>)

  datatype Outcome = Outcome(work: Work, error: Option<ServiceError>)

  const DEFAULT_APPROVAL_TTL := 600  // seconds

  // ---------- What each operation does to the session ----------

  // `stored` is the row the SELECT ... FOR UPDATE returns; it replaces the loaded object.
  function Transitioned(w: Work, stored: Action, target: Status, actor: string, receipt: Option<int>): Outcome {
    if target.Succeeded? && receipt.None? then Outcome(w, Some(MissingProviderReceipt))
    else if target !in AllowedFrom(stored.status) then
      Outcome(w.(action := stored,
                 notes := w.notes + [Note(stored.id, stored.trace, actor, TransitionRejected(stored.status, target))]),
              Some(InvalidActionTransition(stored.status, target)))
    else
      Outcome(w.(action := stored.(status := target),
                 notes := w.notes + [Note(stored.id, stored.trace, actor, Entered(stored.status, target, receipt))]),
              None)
  }

  function ReadyMessage(a: Action): OutboxMessage { OutboxMessage(a.id, a.tool) }

  function Enqueued(o: Outcome): Outcome {
    if o.error.Some? then o else o.(work := o.work.(outbox := o.work.outbox + [ReadyMessage(o.work.action)]))
  }

  // The row was added by this very transaction, so what FOR UPDATE returns is the session's own object.
  function Validated(w: Work, actor: string): Outcome {
    var o := Transitioned(w, w.action, Validating, actor, None);
    if o.error.Some? then o
    else if AutoApproved(w.action.risk) then Enqueued(Transitioned(o.work, o.work.action, Ready, actor, None))
    else Transitioned(o.work, o.work.action, AwaitingApproval, actor, None)
  }

  function FreshApproval(a: Action, nonce: string, now: int): Approval {
    Approval(a.id, a.payloadHash, nonce, Pending, None, now + DEFAULT_APPROVAL_TTL)
  }

  function ApprovalRequested(w: Work, nonce: string, now: int): Outcome {
    if !w.action.status.AwaitingApproval? then Outcome(w, Some(ApprovalInvalid))
    else Outcome(w.(approval := Some(FreshApproval(w.action, nonce, now))), None)
  }

  function Submitted(w: Work, actor: string, nonce: string, now: int): Outcome {
    var o := Validated(w, actor);
    if o.error.Some? || !o.work.action.status.AwaitingApproval? then o
    else ApprovalRequested(o.work, nonce, now)
  }

  function Consumed(w: Work, stored: Action, approver: string, nonce: string, now: int): Outcome
    requires w.approval.Some?
  {
    var approval := w.approval.value;
    if approval.status != Pending then Outcome(w, Some(ApprovalInvalid))
    else if approval.nonce != nonce then Outcome(w, Some(ApprovalInvalid))
    else if now > approval.expiresAt then
      var o := Transitioned(w.(approval := Some(approval.(status := ApprovalExpired))), stored, Expired, approver, None);
      if o.error.Some? then o else o.(error := Some(ApprovalInvalid))
    else if approval.payloadHash != w.action.payloadHash then
      var o := Transitioned(w.(approval := Some(approval.(status := ApprovalDenied))), stored, Rejected, approver, None);
      if o.error.Some? then o else o.(error := Some(ApprovalInvalid))
    else
      var approved := approval.(status := Approved, approver := Some(approver));
      Enqueued(Transitioned(w.(approval := Some(approved)), stored, Ready, approver, None))
  }

  function CancellationRequested(w: Work, stored: Action, actor: string): Outcome {
    if w.action.status.Ready? then Transitioned(w, stored, Cancelled, actor, None)
    else if w.action.status.Running? then Transitioned(w, stored, Compensating, actor, None)
    else Outcome(w, Some(ActionNotCancellable(w.action.status)))
  }

  function CompensationCompleted(w: Work, stored: Action, outcome: Status, actor: string): Outcome {
    if !outcome.Compensated? && !outcome.Failed? then Outcome(w, Some(InvalidCompensationOutcome(outcome)))
    else Transitioned(w, stored, outcome, actor, None)
  }

  // ---------- The service ----------

  class UnitOfWork {
    var action: Action
    var approval: Option<Approval>
    var outbox: seq<OutboxMessage>
    var notes: seq<Note>

    function View(): Work
      reads this
    {
      Work(action, approval, outbox, notes)
    }

    constructor (w: Work)
      ensures View() == w
    {
      action, approval, outbox, notes := w.action, w.approval, w.outbox, w.notes;
    }

    method ApplyTransition(stored: Action, target: Status, actor: string, receipt: Option<int>)
      returns (error: Option<ServiceError>)
      modifies this
      ensures Outcome(View(), error) == Transitioned(old(View()), stored, target, actor, receipt)
    {
      if target.Succeeded? && receipt.None? {
        return Some(MissingProviderReceipt);
      }
      action := stored;
      var previous := action.status;
      if target !in AllowedFrom(previous) {
        notes := notes + [Note(action.id, action.trace, actor, TransitionRejected(previous, target))];
        return Some(InvalidActionTransition(previous, target));
      }
      action := action.(status := target);
      notes := notes + [Note(action.id, action.trace, actor, Entered(previous, target, receipt))];
      return None;
    }

    method EnqueueReady()
      modifies this`outbox
      ensures outbox == old(outbox) + [ReadyMessage(action)]
    {
      outbox := outbox + [OutboxMessage(action.id, action.tool)];
    }

    method ValidateAction(actor: string) returns (error: Option<ServiceError>)
      modifies this
      ensures Outcome(View(), error) == Validated(old(View()), actor)
    {
      error := ApplyTransition(action, Validating, actor, None);
      if error.Some? { return; }
      if AutoApproved(action.risk) {
        error := ApplyTransition(action, Ready, actor, None);
        if error.Some? { return; }
        EnqueueReady();
      } else {
        error := ApplyTransition(action, AwaitingApproval, actor, None);
      }
    }

    method RequestApproval(nonce: string, now: int) returns (error: Option<ServiceError>)
      modifies this`approval
      ensures Outcome(View(), error) == ApprovalRequested(old(View()), nonce, now)
      ensures error.None? <==> action.status == AwaitingApproval
      ensures error.None? ==>
          approval == Some(Approval(action.id, action.payloadHash, nonce, Pending, None, now + DEFAULT_APPROVAL_TTL))
    {
      if !action.status.AwaitingApproval? { return Some(ApprovalInvalid); }
      approval := Some(Approval(action.id, action.payloadHash, nonce, Pending, None, now + DEFAULT_APPROVAL_TTL));
      return None;
    }

    method SubmitActionForExecution(actor: string, nonce: string, now: int) returns (error: Option<ServiceError>)
      modifies this
      ensures Outcome(View(), error) == Submitted(old(View()), actor, nonce, now)
    {
      error := ValidateAction(actor);
      if error.None? && action.status.AwaitingApproval? {
        error := RequestApproval(nonce, now);
      }
    }

    method ConsumeApproval(stored: Action, approver: string, nonce: string, now: int)
      returns (error: Option<ServiceError>)
      requires approval.Some?
      modifies this
      ensures Outcome(View(), error) == Consumed(old(View()), stored, approver, nonce, now)
    {
      var loaded := approval.value;
      if loaded.status != Pending { return Some(ApprovalInvalid); }
      if loaded.nonce != nonce { return Some(ApprovalInvalid); }
      if now > loaded.expiresAt {
        approval := Some(loaded.(status := ApprovalExpired));
        error := ApplyTransition(stored, Expired, approver, None);
        if error.None? { error := Some(ApprovalInvalid); }
        return;
      }
      if loaded.payloadHash != action.payloadHash {
        approval := Some(loaded.(status := ApprovalDenied));
        error := ApplyTransition(stored, Rejected, approver, None);
        if error.None? { error := Some(ApprovalInvalid); }
        return;
      }
      approval := Some(loaded.(status := Approved, approver := Some(approver)));
      error := ApplyTransition(stored, Ready, approver, None);
      if error.None? { EnqueueReady(); }
    }

    method RequestCancellation(stored: Action, actor: string) returns (error: Option<ServiceError>)
      modifies this
      ensures Outcome(View(), error) == CancellationRequested(old(View()), stored, actor)
    {
      if action.status.Ready? {
        error := ApplyTransition(stored, Cancelled, actor, None);
      } else if action.status.Running? {
        error := ApplyTransition(stored, Compensating, actor, None);
      } else {
        error := Some(ActionNotCancellable(action.status));
      }
    }

    method CompleteCompensation(stored: Action, outcome: Status, actor: string) returns (error: Option<ServiceError>)
      modifies this
      ensures Outcome(View(), error) == CompensationCompleted(old(View()), stored, outcome, actor)
    {
      if outcome != Compensated && outcome != Failed {
        error := Some(InvalidCompensationOutcome(outcome));
      } else {
        error := ApplyTransition(stored, outcome, actor, None);
      }
    }
  }

  // ---------- Who may ask ----------

  function UserActor(user: string): string { "user:" + user }

  // authorize_consume_approval: the proposer or a workspace admin, with fresh MFA.
  predicate MayConsume(a: Action, user: string, role: WorkspaceRole, aal2: bool) {
    (a.actor == UserActor(user) || role.WorkspaceAdmin?) && aal2
  }

  // authorize_cancel_action
  predicate MayCancel(a: Action, user: string, role: WorkspaceRole) {
    a.actor == UserActor(user) || role.WorkspaceAdmin?
  }

  // resolve_replay_approval: the pending approval, and with it the nonce, goes to the original actor alone.
  function ReplayApproval(a: Action, approval: Option<Approval>, actor: string): Option<Approval> {
    if a.status != AwaitingApproval || a.actor != actor then None else approval
  }

  // ---------- When each operation goes through ----------

  // A transition goes through exactly when the table allows it from the status under the lock, and
  // SUCCEEDED comes with a receipt; what it leaves in either case.
  lemma TransitionedIff(w: Work, stored: Action, target: Status, actor: string, receipt: Option<int>)
    ensures var o := Transitioned(w, stored, target, actor, receipt);
      && (o.error.None? <==> stored.status in EnteredFrom(target) && (target == Succeeded ==> receipt.Some?))
      && (o.error.None? ==> o.work == Work(
            stored.(status := target), w.approval, w.outbox,
            w.notes + [Note(stored.id, stored.trace, actor, Entered(stored.status, target, receipt))]))
      && (o.error.Some? && target == Succeeded && receipt.None? ==> o == Outcome(w, Some(MissingProviderReceipt)))
      && (o.error.Some? && !(target == Succeeded && receipt.None?) ==> o == Outcome(
            Work(stored, w.approval, w.outbox,
                 w.notes + [Note(stored.id, stored.trace, actor, TransitionRejected(stored.status, target))]),
            Some(InvalidActionTransition(stored.status, target))))
  {
    TransitionTable(stored.status, target);
  }

  // The checks an approval is bound by (pending, nonce, expiry, payload hash), with the row read under the
  // lock as the last word.
  lemma ConsumedIff(w: Work, stored: Action, approver: string, nonce: string, now: int)
    requires w.approval.Some?
    ensures Consumed(w, stored, approver, nonce, now).error.None? <==>
        && w.approval.value.status == Pending
        && w.approval.value.nonce == nonce
        && now <= w.approval.value.expiresAt
        && w.approval.value.payloadHash == w.action.payloadHash
        && stored.status in {AwaitingApproval, Validating, Retrying}
    ensures Consumed(w, stored, approver, nonce, now).error.None? ==>
        Consumed(w, stored, approver, nonce, now).work == Work(
          stored.(status := Ready),
          Some(w.approval.value.(status := Approved, approver := Some(approver))),
          w.outbox + [OutboxMessage(stored.id, stored.tool)],
          w.notes + [Note(stored.id, stored.trace, approver, Entered(stored.status, Ready, None))])
  {
    assert forall s :: Ready in AllowedFrom(s) <==> s in {AwaitingApproval, Validating, Retrying};
  }

  // What the session holds when a consume raises, which is what gets rolled back: the nonce is looked at
  // before the clock, and the clock before the payload.
  lemma ConsumeRefused(w: Work, stored: Action, approver: string, nonce: string, now: int)
    requires w.approval.Some? && stored.status == AwaitingApproval
    ensures var o, ap := Consumed(w, stored, approver, nonce, now), w.approval.value;
      var late, other := now > ap.expiresAt, ap.payloadHash != w.action.payloadHash;
      && (o.error.Some? ==> o.error == Some(ApprovalInvalid))
      && (ap.status != Pending || ap.nonce != nonce ==> o == Outcome(w, Some(ApprovalInvalid)))
      && (ap.status == Pending && ap.nonce == nonce && (late || other) ==>
            && o.work.approval == Some(ap.(status := if late then ApprovalExpired else ApprovalDenied))
            && o.work.action == stored.(status := if late then Expired else Rejected)
            && o.work.outbox == w.outbox
            && o.work.notes == w.notes + [Note(stored.id, stored.trace, approver,
                                               Entered(AwaitingApproval, o.work.action.status, None))])
  {
  }

  // complete_compensation does not look for COMPENSATING: a RUNNING action can be failed by hand.
  lemma CompensationCompletedIff(w: Work, stored: Action, outcome: Status, actor: string)
    ensures CompensationCompleted(w, stored, outcome, actor).error.None? <==>
        || (outcome == Compensated && stored.status == Compensating)
        || (outcome == Failed && stored.status in {Running, Compensating})
    ensures CompensationCompleted(w, stored, outcome, actor).error.None? ==>
        CompensationCompleted(w, stored, outcome, actor).work == Work(
          stored.(status := outcome), w.approval, w.outbox,
          w.notes + [Note(stored.id, stored.trace, actor, Entered(stored.status, outcome, None))])
    ensures CompensationCompleted(w, stored, outcome, actor).error == Some(InvalidCompensationOutcome(outcome)) <==>
        outcome !in {Compensated, Failed}
  {
    assert forall s :: Failed in AllowedFrom(s) <==> s in {Running, Compensating};
    assert forall s :: Compensated in AllowedFrom(s) <==> s == Compensating;
  }

  // A cancellation is decided by the status that was loaded and checked against the one under the lock.
  lemma CancellationRequestedIff(w: Work, stored: Action, actor: string)
    ensures CancellationRequested(w, stored, actor).error.None? <==>
        || (w.action.status == Ready && stored.status in {Ready, Draft})
        || (w.action.status == Running && stored.status == Running)
    ensures CancellationRequested(w, stored, actor).error.None? ==>
        var target := if w.action.status == Ready then Cancelled else Compensating;
        CancellationRequested(w, stored, actor).work == Work(
          stored.(status := target), w.approval, w.outbox,
          w.notes + [Note(stored.id, stored.trace, actor, Entered(stored.status, target, None))])
    ensures CancellationRequested(w, stored, actor).error == Some(ActionNotCancellable(w.action.status)) <==>
        w.action.status !in {Ready, Running}
  {
    assert forall s :: Cancelled in AllowedFrom(s) <==> s in {Ready, Draft};
    assert forall s :: Compensating in AllowedFrom(s) <==> s == Running;
  }

  // Submitting a draft never fails: low risk goes straight to READY with one outbox row and no
  // approval, everything else waits for an approval bound to the payload's hash.
  lemma SubmittedDraft(a: Action, actor: string, nonce: string, now: int, notes: seq<Note>)
    requires a.status == Draft
    ensures var o := Submitted(Work(a, None, [], notes), actor, nonce, now);
      && o.error.None?
      && (AutoApproved(a.risk) ==>
            o.work.action == a.(status := Ready) && o.work.approval.None? && o.work.outbox == [OutboxMessage(a.id, a.tool)])
      && (!AutoApproved(a.risk) ==>
            && o.work.action == a.(status := AwaitingApproval)
            && o.work.outbox == []
            && o.work.approval == Some(Approval(a.id, a.payloadHash, nonce, Pending, None, now + DEFAULT_APPROVAL_TTL)))
      && o.work.notes == notes + [
           Note(a.id, a.trace, actor, Entered(Draft, Validating, None)),
           Note(a.id, a.trace, actor, Entered(Validating, o.work.action.status, None))]
  {
  }
}
