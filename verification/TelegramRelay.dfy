/**
  The Telegram connector (backend/src/doda/infrastructure/telegram_client.py, telegram_relay.py): what one
  send is taken to mean, the bounded retry around it, and the loop over stream entries.
*/
module TelegramRelay {
  import opened Wrappers
  import opened Json
  import opened AuditChain

  const ACTOR_ID := "system:telegram_connector"
  const TELEGRAM_SEND_ATTEMPTS: nat := 3

  // A decoded response body.
  datatype Body = NotJson | NotAnObject | Object(ok: bool, messageId: Option<int>)

  // How the HTTP call ended.
  datatype HttpResult =
    | NotConnected   // ConnectError, ConnectTimeout, PoolTimeout
    | OtherHttpError // any other httpx error, read and write timeouts included
    | Response(status: int, body: Body)

  datatype SendOutcome =
    | Delivered(messageId: int)
    | Transient   // raised before Telegram can have queued anything
    | Terminal    // TelegramSendError: rejected, or nobody can tell
    | Unexpected  // any other exception, or the process dying in the middle of the call

  // send_message
  function Classify(r: HttpResult): SendOutcome {
    match r
    case NotConnected => Transient
    case OtherHttpError => Terminal
    case Response(status, body) =>
      if status == 429 then Transient
      else
        match body
        case NotJson => Terminal
        case NotAnObject => Unexpected  // AttributeError on body.get
        case Object(ok, messageId) =>
          if !(200 <= status < 300) || !ok then Terminal
          else if messageId.None? then Unexpected  // KeyError on body["result"]["message_id"]
          else Delivered(messageId.value)
  }

  predicate PossiblyDelivered(o: SendOutcome) { !o.Transient? }

  // A send is tried again only when the call before it cannot have reached anyone, and counts as
  // delivered only on a receipt.
  lemma ClassifyIff(r: HttpResult)
    ensures Classify(r).Transient? <==> r.NotConnected? || (r.Response? && r.status == 429)
    ensures forall id :: Classify(r) == Delivered(id) <==>
        r.Response? && 200 <= r.status < 300 && r.body == Object(true, Some(id))
    ensures Classify(r).Unexpected? <==>
        r.Response? && r.status != 429
        && (r.body.NotAnObject? || (200 <= r.status < 300 && r.body == Object(true, None)))
  {
  }

  // ---------- Bounded retry ----------

  // What the calls of one action came to: all but the last were transient.
  ghost predicate AtMostOneDelivery(tries: seq<SendOutcome>) {
    forall i :: 0 <= i < |tries| - 1 ==> tries[i].Transient?
  }

  // Attempts that follow `done` transient ones: they go on while there are any left and stop at the first
  // that is not transient.
  ghost predicate IsTries(done: nat, tries: seq<SendOutcome>) {
    && tries != [] && AtMostOneDelivery(tries) && done + |tries| <= TELEGRAM_SEND_ATTEMPTS
    && (tries[|tries| - 1].Transient? ==> done + |tries| == TELEGRAM_SEND_ATTEMPTS)
  }

  // `oracle(n)` is what the n-th call of send_message would come to.
  method SendWithRetries(oracle: nat -> SendOutcome) returns (result: SendOutcome, tries: seq<SendOutcome>)
    ensures IsTries(0, tries) && result == tries[|tries| - 1]
    ensures forall i :: 0 <= i < |tries| ==> tries[i] == oracle(i)
    ensures result.Transient? <==> forall i: nat :: i < TELEGRAM_SEND_ATTEMPTS ==> oracle(i).Transient?
  {
    tries := [];
    result := Transient;
    var attempt := 0;
    while attempt < TELEGRAM_SEND_ATTEMPTS
      invariant attempt == |tries| <= TELEGRAM_SEND_ATTEMPTS
      invariant forall i :: 0 <= i < |tries| ==> tries[i] == oracle(i) && tries[i].Transient?
      invariant result.Transient?
    {
      result := oracle(attempt);
      tries := tries + [result];
      if !result.Transient? { return; }
      attempt := attempt + 1;
    }
  }

  // ---------- The loop over entries ----------

  // `raised(k)`: processing entry k let an exception escape.
  method RelayOnce(entries: seq<nat>, raised: nat -> bool) returns (processed: nat, acked: seq<nat>)
    ensures acked == Acked(entries, raised) && processed == |acked|
  {
    processed, acked := 0, [];
    for i := 0 to |entries|
      invariant acked == Acked(entries[..i], raised) && processed == |acked|
    {
      assert entries[..i + 1][..i] == entries[..i];
      if raised(entries[i]) { continue; }
      acked := acked + [entries[i]];
      processed := processed + 1;
    }
    assert entries[..|entries|] == entries;
  }

  function Acked(entries: seq<nat>, raised: nat -> bool): seq<nat> {
    if entries == [] then []
    else
      var last := entries[|entries| - 1];
      Acked(entries[..|entries| - 1], raised) + if raised(last) then [] else [last]
  }

  // An entry is acknowledged, and so never handed out again, exactly when its processing returned.
  lemma {:induction false} AckedIff(entries: seq<nat>, raised: nat -> bool, k: nat)
    ensures k in Acked(entries, raised) <==> k in entries && !raised(k)
  {
    if entries != [] {
      AckedIff(entries[..|entries| - 1], raised, k);
      assert entries == entries[..|entries| - 1] + [entries[|entries| - 1]];
    }
  }

  // ---------- The payload ----------

  datatype Telegram = Telegram(chatId: string, text: string)

  function Lookup(fields: seq<Field>, key: string): Option<Json> {
    if fields == [] then None
    else if fields[0].key == key then Some(fields[0].value)
    else Lookup(fields[1..], key)
  }

  // payload.get(key), if that is a string.
  function StringField(fields: seq<Field>, key: string): Option<string> {
    match Lookup(fields, key)
    case Some(Str(s)) => Some(s)
    case _ => None
  }

  function TelegramOf(payload: NativeJson): Option<Telegram> {
    if !payload.Obj? then None
    else
      match (StringField(payload.fields, "chat_id"), StringField(payload.fields, "text"))
      case (Some(chatId), Some(text)) => Some(Telegram(chatId, text))
      case _ => None
  }

  lemma {:induction false} LookupDenotes(fields: seq<Field>, key: string)
    ensures Lookup(fields, key).Some? <==> key in DenoteFields(fields)
    ensures Lookup(fields, key).Some? ==> Denote(Lookup(fields, key).value) == DenoteFields(fields)[key]
  {
    if fields != [] { LookupDenotes(fields[1..], key); }
  }

  lemma StringFieldDenotes(s: seq<Field>, t: seq<Field>, key: string)
    requires DenoteFields(s) == DenoteFields(t)
    ensures StringField(s, key) == StringField(t, key)
  {
    LookupDenotes(s, key);
    LookupDenotes(t, key);
  }

  // A payload names a message exactly when its logical value is an object with both strings.
  lemma TelegramOfIff(payload: NativeJson, m: Telegram)
    ensures TelegramOf(payload) == Some(m) <==>
        && payload.Obj?
        && "chat_id" in DenoteFields(payload.fields) && DenoteFields(payload.fields)["chat_id"] == VStr(m.chatId)
        && "text" in DenoteFields(payload.fields) && DenoteFields(payload.fields)["text"] == VStr(m.text)
  {
    if payload.Obj? {
      LookupDenotes(payload.fields, "chat_id");
      LookupDenotes(payload.fields, "text");
    }
  }

  // What is sent depends on the logical payload only, which is what an approval's hash binds.
  lemma SentMessageDeterminedByPayload(p: NativeJson, q: NativeJson)
    requires Denote(p) == Denote(q)
    ensures TelegramOf(p) == TelegramOf(q)
  {
    if p.Obj? {
      StringFieldDenotes(p.fields, q.fields, "chat_id");
      StringFieldDenotes(p.fields, q.fields, "text");
    }
  }
}
