/**
  The per-customer audit hash chain (backend/src/doda/application/audit_service.py): how an event is
  sealed, how the chain is verified, and the evidence package built from it.
*/
module AuditChain {
  import opened Wrappers
  import opened Json
  import opened JsonPrinting
  import opened JsonCanonical

  type NativeJson = j: Json | WellFormed(j) witness Null

  // Time stamps are the text isoformat() gives them; ids and created_at play no part in the hash.
  datatype AuditEvent = AuditEvent(
    id: int,
    createdAt: int,
    customer: string,
    workspace: Option<string>,
    trace: string,
    actor: string,
    eventType: string,
    occurredAt: string,
    metadata: NativeJson,
    prevHash: Option<string>,
    hash: string)

  // ---------- Sealing ----------

  function OptText(o: Option<string>): Json {
    match o case None => Null case Some(s) => Str(s)
  }

  function CoveredFields(e: AuditEvent): seq<Field> {
    [ Field("customer_id", Str(e.customer)),
      Field("workspace_id", OptText(e.workspace)),
      Field("trace_id", Str(e.trace)),
      Field("actor_id", Str(e.actor)),
      Field("event_type", Str(e.eventType)),
      Field("occurred_at", Str(e.occurredAt)),
      Field("safe_metadata", Str(Canonical(e.metadata))),
      Field("prev_hash", OptText(e.prevHash)) ]
  }

  // The formula shared by recording and verifying; the proofs below use it only through `Faithful`.
  type Sealer = AuditEvent -> string

  function RecomputeHash(h: Hasher): Sealer { e => HashPayload(h, Obj(CoveredFields(e))) }

  // What the hash commits to; metadata up to its logical value.
  datatype Content = Content(
    customer: string, workspace: Option<string>, trace: string, actor: string,
    eventType: string, occurredAt: string, metadata: Value, prevHash: Option<string>)

  function ContentOf(e: AuditEvent): Content {
    Content(e.customer, e.workspace, e.trace, e.actor, e.eventType, e.occurredAt, Denote(e.metadata), e.prevHash)
  }

  // One hash, one content, and the other way round.
  ghost predicate Faithful(seal: Sealer) {
    forall e, f :: seal(e) == seal(f) <==> ContentOf(e) == ContentOf(f)
  }

  lemma CoveredWellFormed(e: AuditEvent)
    ensures UniqueKeys(CoveredFields(e)) && WellFormed(Obj(CoveredFields(e)))
  {
  }

  lemma CoveredValues(e: AuditEvent, f: AuditEvent)
    requires Canonical(e.metadata) == Canonical(f.metadata) <==> Denote(e.metadata) == Denote(f.metadata)
    ensures SameValues(CoveredFields(e), CoveredFields(f)) <==> ContentOf(e) == ContentOf(f)
  {
    var s, t := CoveredFields(e), CoveredFields(f);
    if SameValues(s, t) {
      assert Denote(s[0].value) == Denote(t[0].value);
      assert Denote(s[1].value) == Denote(t[1].value);
      assert Denote(s[2].value) == Denote(t[2].value);
      assert Denote(s[3].value) == Denote(t[3].value);
      assert Denote(s[4].value) == Denote(t[4].value);
      assert Denote(s[5].value) == Denote(t[5].value);
      assert Denote(s[6].value) == Denote(t[6].value);
      assert Denote(s[7].value) == Denote(t[7].value);
    }
  }

  lemma RecomputedHashIsFaithful(h: Hasher)
    requires CollisionFree(h)
    ensures Faithful(RecomputeHash(h))
  {
    forall e, f
      ensures RecomputeHash(h)(e) == RecomputeHash(h)(f) <==> ContentOf(e) == ContentOf(f)
    {
      CoveredWellFormed(e);
      CoveredWellFormed(f);
      ObjectHashes(h, CoveredFields(e), CoveredFields(f));
      CanonicalDeterminesValue(e.metadata, f.metadata);
      CoveredValues(e, f);
    }
  }

  // ---------- Verification ----------

  datatype Reason = PrevHashMismatch | HashMismatch

  datatype Violation = Violation(eventId: int, reason: Reason)

  function RowViolations(seal: Sealer, e: AuditEvent, expected: Option<string>): seq<Violation> {
    (if e.prevHash != expected then [Violation(e.id, PrevHashMismatch)] else []) +
    (if seal(e) != e.hash then [Violation(e.id, HashMismatch)] else [])
  }

  function Violations(seal: Sealer, events: seq<AuditEvent>, expected: Option<string>): seq<Violation> {
    if events == [] then []
    else RowViolations(seal, events[0], expected) + Violations(seal, events[1..], Some(events[0].hash))
  }

  // The walk of verify_audit_chain; each row is checked against the stored hash of the row before it.
  method VerifyAuditChain(seal: Sealer, events: seq<AuditEvent>) returns (checkedCount: nat, violations: seq<Violation>)
    ensures checkedCount == |events|
    ensures violations == Violations(seal, events, None)
  {
    violations := [];
    var expectedPrevHash: Option<string> := None;
    for i := 0 to |events|
      invariant violations == Violations(seal, events[..i], None)
      invariant expectedPrevHash == EndHash(events[..i], None)
    {
      var event := events[i];
      ghost var before := violations;
      if event.prevHash != expectedPrevHash {
        violations := violations + [Violation(event.id, PrevHashMismatch)];
      }
      var recomputed := seal(event);
      if recomputed != event.hash {
        violations := violations + [Violation(event.id, HashMismatch)];
      }
      WalkStep(seal, events, i);
      assert violations == before + RowViolations(seal, event, expectedPrevHash);
      expectedPrevHash := Some(event.hash);
    }
    checkedCount := |events|;
    assert events[..|events|] == events;
  }

  predicate Intact(seal: Sealer, events: seq<AuditEvent>) { Violations(seal, events, None) == [] }

  // The hash a chain ends in, given the hash it starts from.
  function EndHash(events: seq<AuditEvent>, start: Option<string>): Option<string> {
    if events == [] then start else Some(events[|events| - 1].hash)
  }

  lemma {:induction false} ViolationsConcat(seal: Sealer, a: seq<AuditEvent>, b: seq<AuditEvent>, p: Option<string>)
    ensures Violations(seal, a + b, p) == Violations(seal, a, p) + Violations(seal, b, EndHash(a, p))
  {
    if a == [] {
      assert a + b == b;
    } else {
      assert (a + b)[1..] == a[1..] + b;
      ViolationsConcat(seal, a[1..], b, Some(a[0].hash));
      assert EndHash(a[1..], Some(a[0].hash)) == EndHash(a, p);
      Assoc(RowViolations(seal, a[0], p), Violations(seal, a[1..], Some(a[0].hash)), Violations(seal, b, EndHash(a, p)));
    }
  }

  lemma ViolationsOne(seal: Sealer, e: AuditEvent, p: Option<string>)
    ensures Violations(seal, [e], p) == RowViolations(seal, e, p)
  {
    assert Violations(seal, [e][1..], Some(e.hash)) == [];
  }

  lemma WalkStep(seal: Sealer, events: seq<AuditEvent>, i: nat)
    requires i < |events|
    ensures Violations(seal, events[..i + 1], None) ==
        Violations(seal, events[..i], None) + RowViolations(seal, events[i], EndHash(events[..i], None))
    ensures EndHash(events[..i + 1], None) == Some(events[i].hash)
  {
    assert events[..i + 1] == events[..i] + [events[i]];
    ViolationsConcat(seal, events[..i], [events[i]], None);
    ViolationsOne(seal, events[i], EndHash(events[..i], None));
  }

  // Cutting an intact chain anywhere leaves an intact front, and a back intact from the cut's hash.
  lemma IntactSplit(seal: Sealer, events: seq<AuditEvent>, i: nat)
    requires i <= |events|
    ensures Intact(seal, events) <==>
        Intact(seal, events[..i]) && Violations(seal, events[i..], EndHash(events[..i], None)) == []
  {
    assert events == events[..i] + events[i..];
    ViolationsConcat(seal, events[..i], events[i..], None);
  }

  lemma IntactRow(seal: Sealer, events: seq<AuditEvent>, i: nat)
    requires Intact(seal, events) && i < |events|
    ensures events[i].prevHash == EndHash(events[..i], None)
    ensures events[i].hash == seal(events[i])
    ensures Intact(seal, events[..i + 1])
    ensures Violations(seal, events[i + 1..], Some(events[i].hash)) == []
  {
    IntactSplit(seal, events, i + 1);
    IntactSplit(seal, events[..i + 1], i);
    assert events[..i + 1][..i] == events[..i];
    assert events[..i + 1][i..] == [events[i]];
    ViolationsOne(seal, events[i], EndHash(events[..i], None));
  }

  lemma IntactAppend(seal: Sealer, events: seq<AuditEvent>, e: AuditEvent)
    requires Intact(seal, events)
    requires e.prevHash == EndHash(events, None) && e.hash == seal(e)
    ensures Intact(seal, events + [e]) && EndHash(events + [e], None) == Some(e.hash)
  {
    ViolationsConcat(seal, events, [e], None);
    ViolationsOne(seal, e, EndHash(events, None));
  }

  // ---------- A verified chain is determined by the hash it ends in ----------

  // So any list that verifies and ends in the recorded tip hash is the recorded history.
  lemma {:induction false} EndHashDeterminesHistory(seal: Sealer, a: seq<AuditEvent>, b: seq<AuditEvent>)
    requires Faithful(seal) && Intact(seal, a) && Intact(seal, b)
    requires EndHash(a, None) == EndHash(b, None)
    ensures |a| == |b|
    ensures forall i :: 0 <= i < |a| ==> ContentOf(a[i]) == ContentOf(b[i]) && a[i].hash == b[i].hash
  {
    if a != [] && b != [] {
      var m, n := |a| - 1, |b| - 1;
      IntactRow(seal, a, m);
      IntactRow(seal, b, n);
      assert seal(a[m]) == seal(b[n]);
      assert ContentOf(a[m]).prevHash == ContentOf(b[n]).prevHash;
      IntactSplit(seal, a, m);
      IntactSplit(seal, b, n);
      EndHashDeterminesHistory(seal, a[..m], b[..n]);
    }
  }

  lemma HashesDistinct(seal: Sealer, events: seq<AuditEvent>, i: nat, j: nat)
    requires Faithful(seal) && Intact(seal, events) && i < j < |events|
    ensures events[i].hash != events[j].hash
  {
    if events[i].hash == events[j].hash {
      IntactRow(seal, events, i);
      IntactRow(seal, events, j);
      EndHashDeterminesHistory(seal, events[..i + 1], events[..j + 1]);
    }
  }

  // ---------- One tampered row gives one violation ----------

  lemma ReplaceRow(seal: Sealer, events: seq<AuditEvent>, i: nat, e: AuditEvent)
    requires Intact(seal, events) && i < |events|
    ensures Violations(seal, events[i := e], None) ==
        RowViolations(seal, e, events[i].prevHash) + Violations(seal, events[i + 1..], Some(e.hash))
  {
    var front, back := events[..i], events[i + 1..];
    IntactRow(seal, events, i);
    IntactSplit(seal, events, i);
    assert events[i := e] == front + ([e] + back);
    ViolationsConcat(seal, front, [e] + back, None);
    ViolationsConcat(seal, [e], back, EndHash(front, None));
    ViolationsOne(seal, e, EndHash(front, None));
  }

  // The back of an intact chain, reached with the wrong hash, is blamed on its first row only.
  lemma BackViolations(seal: Sealer, events: seq<AuditEvent>, i: nat, p: Option<string>)
    requires Intact(seal, events) && i < |events| && p != events[i].prevHash
    ensures Violations(seal, events[i..], p) == [Violation(events[i].id, PrevHashMismatch)]
  {
    IntactRow(seal, events, i);
    assert events[i..] == [events[i]] + events[i + 1..];
    ViolationsConcat(seal, [events[i]], events[i + 1..], p);
    ViolationsOne(seal, events[i], p);
  }

  // Content changed, hash left: the row itself is reported, and nothing else.
  lemma AlteredRowReported(seal: Sealer, events: seq<AuditEvent>, i: nat, e: AuditEvent)
    requires Faithful(seal) && Intact(seal, events) && i < |events|
    requires e.prevHash == events[i].prevHash && e.hash == events[i].hash && ContentOf(e) != ContentOf(events[i])
    ensures Violations(seal, events[i := e], None) == [Violation(e.id, HashMismatch)]
  {
    ReplaceRow(seal, events, i, e);
    IntactRow(seal, events, i);
  }

  // Content changed and the hash recomputed: the next row is reported, so the last row can be resealed unseen.
  lemma ResealedRowReported(seal: Sealer, events: seq<AuditEvent>, i: nat, e: AuditEvent)
    requires Faithful(seal) && Intact(seal, events) && i < |events|
    requires e.prevHash == events[i].prevHash && e.hash == seal(e) && ContentOf(e) != ContentOf(events[i])
    ensures Violations(seal, events[i := e], None) ==
        if i + 1 < |events| then [Violation(events[i + 1].id, PrevHashMismatch)] else []
  {
    ReplaceRow(seal, events, i, e);
    IntactRow(seal, events, i);
    if i + 1 < |events| {
      IntactRow(seal, events, i + 1);
      assert events[..i + 1][i] == events[i];
      BackViolations(seal, events, i + 1, Some(e.hash));
    }
  }

  // Rows i..j deleted: the first row after the gap is reported. A deleted tail leaves no trace,
  // because verify_audit_chain never reads the tip row.
  lemma DeletedRowsReported(seal: Sealer, events: seq<AuditEvent>, i: nat, j: nat)
    requires Faithful(seal) && Intact(seal, events) && i < j <= |events|
    ensures Violations(seal, events[..i] + events[j..], None) ==
        if j < |events| then [Violation(events[j].id, PrevHashMismatch)] else []
  {
    IntactSplit(seal, events, i);
    ViolationsConcat(seal, events[..i], events[j..], None);
    if j < |events| {
      IntactRow(seal, events, j);
      assert events[..j][j - 1] == events[j - 1];
      if i > 0 {
        assert events[..i][i - 1] == events[i - 1];
        HashesDistinct(seal, events, i - 1, j - 1);
      }
      BackViolations(seal, events, j, EndHash(events[..i], None));
    }
  }

  // ---------- What is reported of any list of events ----------

  predicate IsLinked(events: seq<AuditEvent>, i: nat)
    requires i < |events|
  {
    events[i].prevHash == if i == 0 then None else Some(events[i - 1].hash)
  }

  // Row i deserves the violation v.
  predicate Fails(seal: Sealer, events: seq<AuditEvent>, v: Violation, i: nat)
    requires i < |events|
  {
    && events[i].id == v.eventId
    && if v.reason.PrevHashMismatch? then !IsLinked(events, i) else seal(events[i]) != events[i].hash
  }

  function Failing(seal: Sealer, events: seq<AuditEvent>, v: Violation): set<nat> {
    set i: nat | i < |events| && Fails(seal, events, v, i)
  }

  lemma RowReport(seal: Sealer, e: AuditEvent, expected: Option<string>, v: Violation)
    ensures multiset(RowViolations(seal, e, expected))[v] ==
        if e.id == v.eventId && (if v.reason.PrevHashMismatch? then e.prevHash != expected else seal(e) != e.hash) then 1 else 0
  {
  }

  lemma FailingSnoc(seal: Sealer, events: seq<AuditEvent>, v: Violation)
    requires events != []
    ensures var n := |events| - 1;
      |Failing(seal, events, v)| == |Failing(seal, events[..n], v)| + if Fails(seal, events, v, n) then 1 else 0
  {
    var n := |events| - 1;
    assert forall i: nat :: i < n ==> (Fails(seal, events, v, i) <==> Fails(seal, events[..n], v, i));
    assert Failing(seal, events, v) == Failing(seal, events[..n], v) + if Fails(seal, events, v, n) then {n} else {};
  }

  lemma CountsAdd(a: seq<Violation>, b: seq<Violation>, v: Violation)
    ensures multiset(a + b)[v] == multiset(a)[v] + multiset(b)[v]
  {
  }

  // A violation is reported as often as there are rows that deserve it.
  lemma {:induction false} ReportedAsOften(seal: Sealer, events: seq<AuditEvent>, v: Violation)
    ensures multiset(Violations(seal, events, None))[v] == |Failing(seal, events, v)|
  {
    if events == [] {
      assert Failing(seal, events, v) == {};
    } else {
      var n := |events| - 1;
      var expected := EndHash(events[..n], None);
      ReportedAsOften(seal, events[..n], v);
      FailingSnoc(seal, events, v);
      RowReport(seal, events[n], expected, v);
      CountsAdd(Violations(seal, events[..n], None), RowViolations(seal, events[n], expected), v);
      WalkStep(seal, events, n);
      assert events[..n + 1] == events;
    }
  }

  // So there is no report exactly when every row continues the row before it and matches its own hash.
  lemma IntactIff(seal: Sealer, events: seq<AuditEvent>)
    ensures Intact(seal, events) <==>
        forall i: nat :: i < |events| ==> IsLinked(events, i) && seal(events[i]) == events[i].hash
  {
    var report := Violations(seal, events, None);
    forall i: nat | i < |events| && (!IsLinked(events, i) || seal(events[i]) != events[i].hash)
      ensures report != []
    {
      var v := Violation(events[i].id, if !IsLinked(events, i) then PrevHashMismatch else HashMismatch);
      ReportedAsOften(seal, events, v);
      assert i in Failing(seal, events, v);
    }
    if report != [] {
      ReportedAsOften(seal, events, report[0]);
      assert report[0] in multiset(report);
      if Failing(seal, events, report[0]) == {} { assert false; }
      var i :| i in Failing(seal, events, report[0]);
      assert !IsLinked(events, i) || seal(events[i]) != events[i].hash;
    }
  }

  // ---------- Evidence packages ----------

  const MAX_PAGE_SIZE: nat := 200

  function OfTrace(events: seq<AuditEvent>, trace: string): seq<AuditEvent> {
    if events == [] then []
    else
      var last := events[|events| - 1];
      OfTrace(events[..|events| - 1], trace) + if last.trace == trace then [last] else []
  }

  datatype EvidenceEvent = EvidenceEvent(event: AuditEvent, selfConsistent: bool)

  datatype EvidencePackage = EvidencePackage(events: seq<EvidenceEvent>, checkedCount: nat, chain: seq<Violation>)

  function Evidence(seal: Sealer, events: seq<AuditEvent>): (r: seq<EvidenceEvent>)
    ensures |r| == |events|
    ensures forall i :: 0 <= i < |r| ==> r[i] == EvidenceEvent(events[i], seal(events[i]) == events[i].hash)
  {
    seq(|events|, i requires 0 <= i < |events| => EvidenceEvent(events[i], seal(events[i]) == events[i].hash))
  }

  function BuildEvidencePackage(seal: Sealer, events: seq<AuditEvent>, trace: string): EvidencePackage {
    var found := OfTrace(events, trace);
    EvidencePackage(Evidence(seal, if |found| <= MAX_PAGE_SIZE then found else found[..MAX_PAGE_SIZE]), |events|, Violations(seal, events, None))
  }

  // The positions of a trace's events, in order.
  predicate IsPick(events: seq<AuditEvent>, trace: string, at: seq<nat>) {
    && (forall k :: 0 <= k < |at| ==> at[k] < |events| && events[at[k]].trace == trace)
    && (forall k, m :: 0 <= k < m < |at| ==> at[k] < at[m])
    && (forall i: nat :: i < |events| && events[i].trace == trace ==> i in at)
  }

  lemma PickSnoc(events: seq<AuditEvent>, trace: string, before: seq<nat>)
    requires events != [] && IsPick(events[..|events| - 1], trace, before)
    ensures var n := |events| - 1;
      IsPick(events, trace, before + if events[n].trace == trace then [n] else [])
  {
    var n := |events| - 1;
    var at := before + if events[n].trace == trace then [n] else [];
    forall i: nat | i < |events| && events[i].trace == trace
      ensures i in at
    {
      if i < n { assert events[..n][i] == events[i] && i in before; } else { assert at[|before|] == n; }
    }
  }

  lemma {:induction false} OfTracePicks(events: seq<AuditEvent>, trace: string) returns (at: seq<nat>)
    ensures IsPick(events, trace, at)
    ensures |OfTrace(events, trace)| == |at| && forall k :: 0 <= k < |at| ==> OfTrace(events, trace)[k] == events[at[k]]
  {
    if events == [] { return []; }
    var n := |events| - 1;
    var before := OfTracePicks(events[..n], trace);
    PickSnoc(events, trace, before);
    at := before + if events[n].trace == trace then [n] else [];
  }

  // The last position is the trace's last event, and the others are a pick from what comes before it.
  lemma PickLast(events: seq<AuditEvent>, trace: string, at: seq<nat>)
    requires IsPick(events, trace, at) && at != []
    ensures var n := at[|at| - 1];
      n < |events| && IsPick(events[..n], trace, at[..|at| - 1])
  {
    var n, before := at[|at| - 1], at[..|at| - 1];
    forall i: nat | i < |events| && events[i].trace == trace
      ensures i <= n && (i < n ==> i in before)
    {
      var k :| 0 <= k < |at| && at[k] == i;
      if k < |at| - 1 { assert before[k] == i; }
    }
    assert forall k :: 0 <= k < |before| ==> before[k] == at[k];
  }

  lemma SameLast(events: seq<AuditEvent>, trace: string, a: seq<nat>, b: seq<nat>)
    requires IsPick(events, trace, a) && IsPick(events, trace, b)
    ensures a == [] <==> b == []
    ensures a != [] && b != [] ==> a[|a| - 1] == b[|b| - 1]
  {
    if a != [] { assert a[|a| - 1] in b; }
    if b != [] { assert b[|b| - 1] in a; }
  }

  // There is one such list of positions.
  lemma {:induction false} PickUnique(events: seq<AuditEvent>, trace: string, a: seq<nat>, b: seq<nat>)
    requires IsPick(events, trace, a) && IsPick(events, trace, b)
    ensures a == b
    decreases |a|
  {
    SameLast(events, trace, a, b);
    if a != [] {
      PickLast(events, trace, a);
      PickLast(events, trace, b);
      var n := a[|a| - 1];
      PickUnique(events[..n], trace, a[..|a| - 1], b[..|b| - 1]);
      assert a[..|a| - 1] + [n] == a && b[..|b| - 1] + [n] == b;
    }
  }

  // What a package exports: the first 200 events of the trace in order, each with its own check.
  ghost predicate Exports(seal: Sealer, events: seq<AuditEvent>, at: seq<nat>, exported: seq<EvidenceEvent>)
    requires forall k :: 0 <= k < |at| ==> at[k] < |events|
  {
    && |exported| == (if |at| <= MAX_PAGE_SIZE then |at| else MAX_PAGE_SIZE)
    && forall k :: 0 <= k < |exported| ==>
         && exported[k].event == events[at[k]]
         && (exported[k].selfConsistent <==> seal(events[at[k]]) == events[at[k]].hash)
  }

  // A package shows whatever is wrong with the whole chain, and the trace's events as they are stored.
  lemma PackageShowsTampering(seal: Sealer, events: seq<AuditEvent>, trace: string)
    ensures var p := BuildEvidencePackage(seal, events, trace);
      && p.checkedCount == |events|
      && (p.chain == [] <==> forall i: nat :: i < |events| ==> IsLinked(events, i) && seal(events[i]) == events[i].hash)
      && (forall v :: multiset(p.chain)[v] == |Failing(seal, events, v)|)
      && exists at :: IsPick(events, trace, at) && Exports(seal, events, at, p.events)
  {
    var p := BuildEvidencePackage(seal, events, trace);
    IntactIff(seal, events);
    forall v ensures multiset(p.chain)[v] == |Failing(seal, events, v)| { ReportedAsOften(seal, events, v); }
    var at := OfTracePicks(events, trace);
    assert Exports(seal, events, at, p.events);
  }

  // On an intact chain every exported event checks out; the export holds every event of the trace
  // exactly when there are at most 200 of them.
  lemma EvidenceOfIntactChain(seal: Sealer, events: seq<AuditEvent>, trace: string, at: seq<nat>)
    requires Intact(seal, events) && IsPick(events, trace, at)
    ensures var p := BuildEvidencePackage(seal, events, trace);
      && p.chain == []
      && |p.events| <= |at|
      && (forall i :: 0 <= i < |p.events| ==> p.events[i].selfConsistent && p.events[i].event == events[at[i]])
      && (|p.events| == |at| <==> |at| <= MAX_PAGE_SIZE)
  {
    IntactIff(seal, events);
    PackageShowsTampering(seal, events, trace);
    var p := BuildEvidencePackage(seal, events, trace);
    var same :| IsPick(events, trace, same) && Exports(seal, events, same, p.events);
    PickUnique(events, trace, at, same);
  }
}
