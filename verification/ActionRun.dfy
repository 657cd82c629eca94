/**
  Runs of the action protocol in full: an approved Telegram message that is delivered.  They show that
  what the theorems speak of is reached, the delivered message of an action that is still RUNNING included.
*/
module ActionRun {
  import opened Wrappers
  import opened Json
  import opened JsonCanonical
  import opened AuditChain
  import opened ActionStates
  import opened Roles
  import opened ActionService
  import opened TelegramRelay
  import opened ActionProtocol
  import opened ActionTheorems
  import opened ActionTransactions
  import opened ActionSystem

  // A message to send, proposed by a user who then approves it.
  ghost predicate IsRequest(request: Action, user: string) {
    && request.tool == TELEGRAM_TOOL_NAME && request.actor == UserActor(user) && TelegramOf(request.payload).Some?
  }

  lemma SomeRequest()
    ensures exists request, user :: IsRequest(request, user)
  {
    var chat, text := Field("chat_id", Str("1")), Field("text", Str("hello"));
    assert "chat_id"[0] == 'c' && "text"[0] == 't';
    assert [chat, text][1..] == [text];
    var payload := Obj([chat, text]);
    assert WellFormed(chat.value) && WellFormed(text.value);
    assert WellFormed(payload);
    var request := Action(1, "c", "w", "t", UserActor("u"), TELEGRAM_TOOL_NAME, R0, payload, "", "k", Draft);
    assert "chat_id" != "text" && [chat, text][0] == chat && [text][0] == text;
    assert Lookup([text], "text") == Some(text.value);
    assert Lookup([chat, text], "text") == Lookup([text], "text");
    assert StringField([chat, text], "chat_id") == Some("1") && StringField([chat, text], "text") == Some("hello");
    assert IsRequest(request, "u");
  }

  // Nothing is under way.
  ghost predicate Quiet(c: Cell) { c.lock.None? && c.tasks == map[] }

  lemma ReachedThree(h: Hasher, request: Action, c: Cell, x: Step, y: Step, z: Step)
    requires Reached(h, request, c)
    ensures Reached(h, request, Next(Next(Next(c, x), y), z))
  {
    ReachedNext(h, request, c, x);
    ReachedNext(h, request, Next(c, x), y);
    ReachedNext(h, request, Next(Next(c, x), y), z);
  }

  // A new message waits for its approval, with nonce "n".
  ghost predicate Awaiting(a: Action, c: Cell) {
    && Quiet(c) && c.action == a.(status := AwaitingApproval) && c.outbox == [] && c.claims == map[] && c.sends == []
    && c.approval == Some(Approval(a.id, a.payloadHash, "n", Pending, None, DEFAULT_APPROVAL_TTL))
  }

  lemma Submitting(h: Hasher, request: Action, user: string) returns (d: Cell)
    requires IsRequest(request, user)
    ensures Reached(h, request, d) && Awaiting(Draft0(h, request), d)
  {
    var a := Draft0(h, request);
    d := NewCell(h, request, "n", 0);
    ReachedNew(h, request, "n", 0);
    SubmittedDraft(a, a.actor, "n", 0, [Note(a.id, a.trace, a.actor, Proposed)]);
  }

  lemma Approving(h: Hasher, request: Action, user: string, c: Cell) returns (d: Cell)
    requires Reached(h, request, c) && IsRequest(request, user) && Awaiting(Draft0(h, request), c)
    ensures Reached(h, request, d) && Quiet(d) && d.sends == [] && d.claims == map[]
    ensures d.action == c.action.(status := Ready) && |d.outbox| == 1 && !d.outbox[0].published
  {
    var op := Consume(user, WorkspaceMember, true, "n");
    var w := Work(c.action, c.approval, [], []);
    ConsumedIff(w, c.action, UserActor(user), "n", 0);
    var c1 := Next(c, Load(1, op));
    assert c1.tasks == map[1 := Loaded(op, w)];
    var c2 := Next(c1, Lock(1, 0));
    d := Next(c2, Commit(1));
    assert d.tasks == map[];
    ReachedThree(h, request, c, Load(1, op), Lock(1, 0), Commit(1));
  }

  lemma Copied(c: Cell)
    requires |c.outbox| == 1 && !c.outbox[0].published && c.claims == map[]
    ensures Next(Next(c, ClaimRow(2)), Publish(2)) == c.(claims := map[2 := Claim(true)], stream := c.stream + 1)
  {
  }

  lemma Publishing(h: Hasher, request: Action, c: Cell) returns (d: Cell)
    requires Reached(h, request, c) && Quiet(c) && |c.outbox| == 1 && !c.outbox[0].published && c.claims == map[] && c.sends == []
    ensures Reached(h, request, d) && Quiet(d) && d.action == c.action && d.stream > 0 && d.sends == []
  {
    Copied(c);
    ReachedNext(h, request, c, ClaimRow(2));
    ReachedNext(h, request, Next(c, ClaimRow(2)), Publish(2));
    d := Next(Next(c, ClaimRow(2)), Publish(2));
  }

  lemma Driving(h: Hasher, request: Action, c: Cell) returns (d: Cell)
    requires Reached(h, request, c) && Quiet(c) && c.stream > 0 && c.sends == []
    requires c.action.tool == TELEGRAM_TOOL_NAME && c.action.status == Ready
    ensures Reached(h, request, d) && d.lock.None? && d.sends == []
    ensures d.action == c.action.(status := Running) && d.tasks == map[3 := Started(d.action)]
  {
    var x, y, z := Load(3, Drive), Lock(3, 0), Commit(3);
    TransactionCommits(c, 3, Drive, 0);
    RunThree(c, x, y, z);
    ReachedThree(h, request, c, x, y, z);
    d := Transact(c, 3, Drive, 0);
  }

  lemma Delivering(h: Hasher, request: Action, c: Cell, receipt: int) returns (d: Cell)
    requires Reached(h, request, c) && c.tasks == map[3 := Started(c.action)] && c.lock.None? && c.sends == []
    requires TelegramOf(c.action.payload).Some?
    ensures Reached(h, request, d) && d.action == c.action && d.lock.None? && d.tasks == map[3 := Decided(Succeeded, Some(receipt))]
    ensures |d.sends| == 1 && d.sends[0].outcome == Delivered(receipt)
  {
    var c1 := Next(c, Dispatch(3, true));
    ReachedNext(h, request, c, Dispatch(3, true));
    assert c1.tasks[3] == Sending(c.action, 0);
    d := Next(c1, Send(3, Delivered(receipt)));
    ReachedNext(h, request, c1, Send(3, Delivered(receipt)));
  }

  // An action with this status whose one message was delivered, with this receipt.
  ghost predicate IsDelivered(h: Hasher, request: Action, c: Cell, status: Status, receipt: int) {
    Reached(h, request, c) && c.action.status == status && |c.sends| == 1 && c.sends[0].outcome == Delivered(receipt)
  }

  // Every message that is proposed and approved can be delivered, and is RUNNING until the connector says so.
  lemma DeliveredWhileRunning(h: Hasher, request: Action, user: string, receipt: int) returns (c: Cell)
    requires IsRequest(request, user)
    ensures IsDelivered(h, request, c, Running, receipt)
    ensures c.lock.None? && c.tasks == map[3 := Decided(Succeeded, Some(receipt))]
  {
    c := Submitting(h, request, user);
    c := Approving(h, request, user, c);
    c := Publishing(h, request, c);
    c := Driving(h, request, c);
    c := Delivering(h, request, c, receipt);
  }

  // Then it can be completed as FAILED by hand.
  lemma DeliveredThenFailed(h: Hasher, request: Action, user: string, receipt: int)
    requires IsRequest(request, user)
    ensures exists c, d :: IsDelivered(h, request, c, Running, receipt) && IsDelivered(h, request, d, Failed, receipt)
  {
    var c := DeliveredWhileRunning(h, request, user, receipt);
    DeliveredCanBeFailed(h, request, c, 4, user);
    var x, y, z := Load(4, Compensate(user, Failed)), Lock(4, 0), Commit(4);
    RunThree(c, x, y, z);
    ReachedThree(h, request, c, x, y, z);
    assert IsDelivered(h, request, Next(Next(Next(c, x), y), z), Failed, receipt);
  }

  ghost predicate IsReceipted(c: Cell, receipt: int) {
    c.notes != [] && c.notes[|c.notes| - 1].what == Entered(Running, Succeeded, Some(receipt))
  }

  // And otherwise it becomes SUCCEEDED, with the receipt in the audit trail.
  lemma DeliveredThenSucceeded(h: Hasher, request: Action, user: string, receipt: int)
    requires IsRequest(request, user)
    ensures exists c :: IsDelivered(h, request, c, Succeeded, receipt) && IsReceipted(c, receipt)
  {
    var c := DeliveredWhileRunning(h, request, user, receipt);
    var x, y, z := Load(3, Resolve(Succeeded, Some(receipt))), Lock(3, 0), Commit(3);
    ResolvedIff(c, 3, 0);
    RunThree(c, x, y, z);
    ReachedThree(h, request, c, x, y, z);
    var d := Next(Next(Next(c, x), y), z);
    assert IsDelivered(h, request, d, Succeeded, receipt) && IsReceipted(d, receipt);
  }
}
