/**
  All actions together: idempotency keys, the audit log they share, and the two monitoring scripts that
  read it (backend/scripts/verify_trace_completeness_job.py, backend/scripts/_ops_lib.py).
*/
module ActionSystem {
  import opened Wrappers
  import opened JsonCanonical
  import opened ActionStates
  import opened ActionService
  import opened ActionProtocol
  import opened ActionSafety
  import opened ActionTheorems

  // An event of the audit log: about an action, or about something else.
  datatype Event = About(note: Note, at: int) | Other(at: int)

  // `requests` remembers what each action was proposed with.
  datatype System = System(cells: map<int, Cell>, requests: map<int, Action>, log: seq<Event>)

  datatype SystemStep =
    | Submit(request: Action, nonce: string, now: int)
    | At(id: int, step: Step, now: int)
    | LogOther(now: int)

  function Init(): System { System(map[], map[], []) }

  // The unique constraint on (customer_id, workspace_id, idempotency_key).
  predicate SameKey(a: Action, b: Action) {
    a.customer == b.customer && a.workspace == b.workspace && a.key == b.key
  }

  predicate KeyTaken(s: System, request: Action) {
    exists id :: id in s.cells && SameKey(s.cells[id].action, request)
  }

  function Stamped(notes: seq<Note>, now: int): seq<Event> {
    seq(|notes|, i requires 0 <= i < |notes| => About(notes[i], now))
  }

  // A replayed key finds the existing action and changes nothing; ids are fresh.
  function SystemNext(h: Hasher, s: System, step: SystemStep): System {
    match step
    case Submit(request, nonce, now) =>
      if KeyTaken(s, request) || request.id in s.cells then s
      else
        var c := NewCell(h, request, nonce, now);
        System(s.cells[request.id := c], s.requests[request.id := request], s.log + Stamped(c.notes, now))
    case At(id, st, now) =>
      if id !in s.cells then s
      else
        var c := Next(s.cells[id], st);
        var added := if |s.cells[id].notes| <= |c.notes| then c.notes[|s.cells[id].notes|..] else [];
        s.(cells := s.cells[id := c], log := s.log + Stamped(added, now))
    case LogOther(now) => s.(log := s.log + [Other(now)])
  }

  function SystemRun(h: Hasher, s: System, steps: seq<SystemStep>): System
    decreases |steps|
  {
    if steps == [] then s else SystemRun(h, SystemNext(h, s, steps[0]), steps[1..])
  }

  // ---------- Every action lives by the protocol of one action ----------

  function NotesOf(log: seq<Event>, id: int): seq<Note> {
    if log == [] then []
    else
      var last := log[|log| - 1];
      NotesOf(log[..|log| - 1], id) + if last.About? && last.note.actionId == id then [last.note] else []
  }

  ghost predicate CellOk(h: Hasher, s: System, id: int)
    requires id in s.cells
  {
    && id in s.requests
    && Reached(h, s.requests[id], s.cells[id])
    && s.cells[id].action.id == id
    && NotesOf(s.log, id) == s.cells[id].notes
  }

  ghost predicate KeysUnique(s: System) {
    forall i, j :: i in s.cells && j in s.cells && SameKey(s.cells[i].action, s.cells[j].action) ==> i == j
  }

  ghost predicate SystemInv(h: Hasher, s: System) {
    && (forall id :: id in s.cells ==> CellOk(h, s, id))
    && (forall id :: id !in s.cells ==> NotesOf(s.log, id) == [])
    && KeysUnique(s)
  }

  lemma {:induction false} RunSnoc(c: Cell, steps: seq<Step>, st: Step)
    ensures Run(c, steps + [st]) == Next(Run(c, steps), st)
    decreases |steps|
  {
    if steps == [] {
      assert ([] + [st])[1..] == [];
      assert Run(c, [st]) == Run(Next(c, st), []);
    } else {
      assert (steps + [st])[1..] == steps[1..] + [st];
      RunSnoc(Next(c, steps[0]), steps[1..], st);
    }
  }

  lemma ReachedNext(h: Hasher, request: Action, c: Cell, st: Step)
    requires Reached(h, request, c)
    ensures Reached(h, request, Next(c, st))
  {
    var nonce, now, steps :| c == Run(NewCell(h, request, nonce, now), steps);
    RunSnoc(NewCell(h, request, nonce, now), steps, st);
  }

  lemma ReachedNew(h: Hasher, request: Action, nonce: string, now: int)
    ensures Reached(h, request, NewCell(h, request, nonce, now))
  {
    assert Run(NewCell(h, request, nonce, now), []) == NewCell(h, request, nonce, now);
  }

  // Appending one action's notes to the log shows up for that action alone.
  lemma {:induction false} LogAppend(log: seq<Event>, notes: seq<Note>, now: int, owner: int, id: int)
    requires forall i :: 0 <= i < |notes| ==> notes[i].actionId == owner
    ensures NotesOf(log + Stamped(notes, now), id) == if id == owner then NotesOf(log, id) + notes else NotesOf(log, id)
  {
    if notes == [] {
      assert log + Stamped(notes, now) == log;
    } else {
      var n := |notes| - 1;
      LogAppend(log, notes[..n], now, owner, id);
      assert (log + Stamped(notes, now))[..|log| + n] == log + Stamped(notes[..n], now);
      assert notes == notes[..n] + [notes[n]];
    }
  }

  lemma NotesOnlyGrow(c: Cell, st: Step)
    ensures c.notes <= Next(c, st).notes
  {
  }

  // What the system needs to know about a reached cell.
  lemma ReachedTrail(h: Hasher, request: Action, c: Cell)
    requires Reached(h, request, c)
    ensures SameRow(c.action, Draft0(h, request))
    ensures PathTo(c.notes, c.action, c.action.status)
    ensures forall i :: 0 <= i < |c.notes| ==> c.notes[i].actionId == c.action.id && c.notes[i].trace == c.action.trace
  {
    ReachedOk(h, request, c);
    PathNotes(c.notes, c.action, c.action.status);
  }

  lemma ReachedNotDraft(h: Hasher, request: Action, c: Cell)
    requires Reached(h, request, c)
    ensures PathTo(c.notes, c.action, c.action.status) && c.action.status != Draft
  {
    ReachedOk(h, request, c);
  }

  // A cell that has just been added, or has just moved on.
  lemma CellKept(h: Hasher, s: System, id: int, request: Action, c: Cell, was: seq<Note>, now: int)
    requires Reached(h, request, c) && c.action.id == id && NotesOf(s.log, id) == was && was <= c.notes
    ensures CellOk(h, System(s.cells[id := c], s.requests[id := request], s.log + Stamped(c.notes[|was|..], now)), id)
    ensures forall i :: i != id ==> NotesOf(s.log + Stamped(c.notes[|was|..], now), i) == NotesOf(s.log, i)
  {
    var added := c.notes[|was|..];
    ReachedTrail(h, request, c);
    LogAppend(s.log, added, now, id, id);
    assert was + added == c.notes;
    forall i | i != id
      ensures NotesOf(s.log + Stamped(added, now), i) == NotesOf(s.log, i)
    {
      LogAppend(s.log, added, now, id, i);
    }
  }

  lemma CellsKept(h: Hasher, s: System, id: int, request: Action, c: Cell, was: seq<Note>, now: int)
    requires SystemInv(h, s) && Reached(h, request, c) && c.action.id == id && NotesOf(s.log, id) == was && was <= c.notes
    requires forall j :: j in s.cells && j != id ==> !SameKey(s.cells[j].action, c.action)
    ensures SystemInv(h, System(s.cells[id := c], s.requests[id := request], s.log + Stamped(c.notes[|was|..], now)))
  {
    var s' := System(s.cells[id := c], s.requests[id := request], s.log + Stamped(c.notes[|was|..], now));
    CellKept(h, s, id, request, c, was, now);
    forall i | i in s'.cells && i != id
      ensures CellOk(h, s', i)
    {
      assert CellOk(h, s, i);
    }
  }

  lemma NewCellRow(h: Hasher, request: Action, nonce: string, now: int)
    ensures var c := NewCell(h, request, nonce, now);
      Reached(h, request, c) && c.action.id == request.id && SameKey(c.action, request)
  {
    ReachedNew(h, request, nonce, now);
    ReachedTrail(h, request, NewCell(h, request, nonce, now));
  }

  lemma SubmitKeepsInv(h: Hasher, s: System, request: Action, nonce: string, now: int)
    requires SystemInv(h, s)
    ensures SystemInv(h, SystemNext(h, s, Submit(request, nonce, now)))
  {
    if !KeyTaken(s, request) && request.id !in s.cells {
      var c := NewCell(h, request, nonce, now);
      NewCellRow(h, request, nonce, now);
      assert c.notes[0..] == c.notes;
      CellsKept(h, s, request.id, request, c, [], now);
    }
  }

  lemma SteppedCell(h: Hasher, request: Action, c: Cell, st: Step)
    requires Reached(h, request, c)
    ensures Reached(h, request, Next(c, st)) && SameRow(Next(c, st).action, c.action) && c.notes <= Next(c, st).notes
  {
    ReachedNext(h, request, c, st);
    ReachedTrail(h, request, c);
    ReachedTrail(h, request, Next(c, st));
    NotesOnlyGrow(c, st);
  }

  lemma AtKeepsInv(h: Hasher, s: System, id: int, st: Step, now: int)
    requires SystemInv(h, s) && id in s.cells
    ensures SystemInv(h, SystemNext(h, s, At(id, st, now)))
  {
    var c := s.cells[id];
    assert CellOk(h, s, id);
    SteppedCell(h, s.requests[id], c, st);
    assert s.requests[id := s.requests[id]] == s.requests;
    CellsKept(h, s, id, s.requests[id], Next(c, st), c.notes, now);
  }

  lemma SystemNextKeepsInv(h: Hasher, s: System, step: SystemStep)
    requires SystemInv(h, s)
    ensures SystemInv(h, SystemNext(h, s, step))
  {
    match step
    case Submit(request, nonce, now) => SubmitKeepsInv(h, s, request, nonce, now);
    case At(id, st, now) => if id in s.cells { AtKeepsInv(h, s, id, st, now); }
    case LogOther(now) =>
      var s' := SystemNext(h, s, step);
      assert s'.log[..|s.log|] == s.log;
      forall id ensures if id in s'.cells then CellOk(h, s', id) else NotesOf(s'.log, id) == [] {
        if id in s.cells { assert CellOk(h, s, id); }
      }
  }

  lemma {:induction false} SystemRunKeepsInv(h: Hasher, s: System, steps: seq<SystemStep>)
    requires SystemInv(h, s)
    ensures SystemInv(h, SystemRun(h, s, steps))
    decreases |steps|
  {
    if steps != [] {
      SystemNextKeepsInv(h, s, steps[0]);
      SystemRunKeepsInv(h, SystemNext(h, s, steps[0]), steps[1..]);
    }
  }

  // In every run each action is in a state the protocol of one action reaches, so everything proved
  // there holds of it; no two actions share an idempotency key; and the shared log holds each action's
  // own trail, unbroken and in order.
  lemma EveryActionIsReached(h: Hasher, steps: seq<SystemStep>, id: int)
    requires id in SystemRun(h, Init(), steps).cells
    ensures var s := SystemRun(h, Init(), steps);
      && id in s.requests && Reached(h, s.requests[id], s.cells[id])
      && NotesOf(s.log, id) == s.cells[id].notes
      && PathTo(NotesOf(s.log, id), s.cells[id].action, s.cells[id].action.status)
      && forall j :: j in s.cells && SameKey(s.cells[j].action, s.cells[id].action) ==> j == id
  {
    SystemRunKeepsInv(h, Init(), steps);
    var s := SystemRun(h, Init(), steps);
    assert CellOk(h, s, id);
    ReachedTrail(h, s.requests[id], s.cells[id]);
  }

  // ---------- The scripts ----------

  // The rows a script reads: any list of the actions there are.
  ghost predicate RowsOf(s: System, actions: seq<Action>) {
    forall i :: 0 <= i < |actions| ==> actions[i].id in s.cells && s.cells[actions[i].id].action == actions[i]
  }

  function TraceById(actions: seq<Action>): (m: map<int, string>)
    ensures forall id :: id in m ==> exists i :: 0 <= i < |actions| && actions[i].id == id && m[id] == actions[i].trace
  {
    if actions == [] then map[]
    else TraceById(actions[..|actions| - 1])[actions[|actions| - 1].id := actions[|actions| - 1].trace]
  }

  // The events to report, in the log's order.
  function Mismatches(traces: map<int, string>, events: seq<Event>): seq<Event> {
    if events == [] then []
    else
      Mismatches(traces, events[..|events| - 1]) +
      if Mismatch(traces, events[|events| - 1]) then [events[|events| - 1]] else []
  }

  // Reporting drops events and does nothing else.
  lemma {:induction false} MismatchesIff(traces: map<int, string>, events: seq<Event>, e: Event)
    ensures multiset(Mismatches(traces, events))[e] == if Mismatch(traces, e) then multiset(events)[e] else 0
  {
    if events != [] {
      var n := |events| - 1;
      assert events == events[..n] + [events[n]];
      MismatchesIff(traces, events[..n], e);
    }
  }

  predicate Mismatch(traces: map<int, string>, e: Event) {
    e.About? && e.note.actionId in traces && e.note.trace != traces[e.note.actionId]
  }

  // Each action is read once.
  ghost predicate UniqueIds(actions: seq<Action>) {
    forall i, j :: 0 <= i < j < |actions| ==> actions[i].id != actions[j].id
  }

  // Some action has the event's id and another trace.
  predicate Contradicts(a: Action, e: Event) { e.About? && a.id == e.note.actionId && a.trace != e.note.trace }

  predicate Contradicted(actions: seq<Action>, e: Event) { exists i :: 0 <= i < |actions| && Contradicts(actions[i], e) }

  lemma {:induction false} TracesAreTheirs(actions: seq<Action>, i: nat)
    requires UniqueIds(actions) && i < |actions|
    ensures actions[i].id in TraceById(actions) && TraceById(actions)[actions[i].id] == actions[i].trace
  {
    var n := |actions| - 1;
    if i < n { TracesAreTheirs(actions[..n], i); }
  }

  // An event is reported if and only if some action read has its id and another trace.
  lemma MismatchIffContradicted(actions: seq<Action>, e: Event)
    requires UniqueIds(actions)
    ensures Mismatch(TraceById(actions), e) <==> Contradicted(actions, e)
  {
    forall i | 0 <= i < |actions|
      ensures actions[i].id in TraceById(actions) && TraceById(actions)[actions[i].id] == actions[i].trace
    {
      TracesAreTheirs(actions, i);
    }
  }

  // The positions of the reported events, in the log's order.
  predicate ReportedAt(actions: seq<Action>, events: seq<Event>, at: seq<nat>) {
    && (forall k :: 0 <= k < |at| ==> at[k] < |events|)
    && (forall k, m :: 0 <= k < m < |at| ==> at[k] < at[m])
    && (forall j: nat :: j < |events| ==> (j in at <==> Contradicted(actions, events[j])))
  }

  lemma ReportSnoc(actions: seq<Action>, events: seq<Event>, before: seq<nat>)
    requires events != [] && ReportedAt(actions, events[..|events| - 1], before)
    ensures var n := |events| - 1;
      ReportedAt(actions, events, before + if Contradicted(actions, events[n]) then [n] else [])
  {
    var n := |events| - 1;
    var at := before + if Contradicted(actions, events[n]) then [n] else [];
    forall j: nat | j < |events|
      ensures j in at <==> Contradicted(actions, events[j])
    {
      if j < n { assert events[..n][j] == events[j] && (j in at <==> j in before); } else { assert n !in before; }
    }
  }

  // The report is the events that contradict an action, once each and in the log's order.
  lemma {:induction false} ReportedExactly(actions: seq<Action>, events: seq<Event>) returns (at: seq<nat>)
    requires UniqueIds(actions)
    ensures ReportedAt(actions, events, at)
    ensures var report := Mismatches(TraceById(actions), events);
      |report| == |at| && forall k :: 0 <= k < |at| ==> report[k] == events[at[k]]
  {
    if events == [] { return []; }
    var n := |events| - 1;
    var before := ReportedExactly(actions, events[..n]);
    ReportSnoc(actions, events, before);
    MismatchIffContradicted(actions, events[n]);
    at := before + if Contradicted(actions, events[n]) then [n] else [];
  }

  // check_customer_trace_completeness
  method CheckTraceCompleteness(actions: seq<Action>, events: seq<Event>) returns (violations: seq<Event>)
    ensures violations == if actions == [] then [] else Mismatches(TraceById(actions), events)
  {
    violations := [];
    if actions == [] { return; }
    var traceById := TraceById(actions);
    for i := 0 to |events|
      invariant violations == Mismatches(traceById, events[..i])
    {
      var event := events[i];
      assert events[..i + 1][..i] == events[..i];
      if event.Other? || event.note.actionId !in traceById { continue; }
      if event.note.trace != traceById[event.note.actionId] {
        violations := violations + [event];
      }
    }
    assert events[..|events|] == events;
  }

  lemma {:induction false} LoggedNote(log: seq<Event>, e: Event)
    requires e in log && e.About?
    ensures e.note in NotesOf(log, e.note.actionId)
  {
    var n := |log| - 1;
    assert log == log[..n] + [log[n]];
    if log[n] != e { LoggedNote(log[..n], e); }
  }

  // The trace checker reports nothing in any reachable state.
  lemma TraceCheckerSilent(h: Hasher, steps: seq<SystemStep>, actions: seq<Action>, e: Event)
    requires var s := SystemRun(h, Init(), steps); RowsOf(s, actions) && e in s.log
    ensures !Mismatch(TraceById(actions), e)
  {
    var s := SystemRun(h, Init(), steps);
    SystemRunKeepsInv(h, Init(), steps);
    if e.About? && e.note.actionId in TraceById(actions) {
      var id := e.note.actionId;
      var i :| 0 <= i < |actions| && actions[i].id == id && TraceById(actions)[id] == actions[i].trace;
      var c := s.cells[id];
      assert CellOk(h, s, id);
      ReachedTrail(h, s.requests[id], c);
      LoggedNote(s.log, e);
    }
  }

  // So its report is empty.
  lemma {:induction false} NothingToReport(h: Hasher, steps: seq<SystemStep>, actions: seq<Action>, n: nat)
    requires var s := SystemRun(h, Init(), steps); RowsOf(s, actions) && n <= |s.log|
    ensures Mismatches(TraceById(actions), SystemRun(h, Init(), steps).log[..n]) == []
  {
    var log := SystemRun(h, Init(), steps).log;
    if n > 0 {
      assert log[..n][..n - 1] == log[..n - 1];
      NothingToReport(h, steps, actions, n - 1);
      TraceCheckerSilent(h, steps, actions, log[n - 1]);
    }
  }

  // since_by_action_id of find_actions_stuck_in_status: the time stamp of the action's event that
  // entered `status`; the last one wins.
  function Since(events: seq<Event>, id: int, status: Status): Option<int> {
    if events == [] then None
    else
      var last := events[|events| - 1];
      if last.About? && last.note.actionId == id && last.note.what.Entered? && last.note.what.to == status
      then Some(last.at)
      else Since(events[..|events| - 1], id, status)
  }

  function StuckIn(actions: seq<Action>, events: seq<Event>, status: Status): seq<(Action, Option<int>)> {
    if actions == [] then []
    else
      (if actions[0].status == status then [(actions[0], Since(events, actions[0].id, status))] else [])
      + StuckIn(actions[1..], events, status)
  }

  lemma {:induction false} SinceIffEntered(log: seq<Event>, id: int, status: Status)
    ensures Since(log, id, status).Some? <==> Entries(NotesOf(log, id), status) > 0
  {
    if log != [] {
      var n := |log| - 1;
      var rest := NotesOf(log[..n], id);
      SinceIffEntered(log[..n], id, status);
      if log[n].About? && log[n].note.actionId == id {
        assert (rest + [log[n].note])[..|rest|] == rest;
      } else {
        assert rest + [] == rest;
      }
    }
  }

  // And it is the stamp of the latest such event.
  predicate EntersAt(log: seq<Event>, id: int, status: Status, i: nat) {
    && i < |log| && log[i].About? && log[i].note.actionId == id
    && log[i].note.what.Entered? && log[i].note.what.to == status
  }

  lemma {:induction false} SinceIsLatest(log: seq<Event>, id: int, status: Status, i: nat)
    requires EntersAt(log, id, status, i) && forall j: nat :: i < j ==> !EntersAt(log, id, status, j)
    ensures Since(log, id, status) == Some(log[i].at)
  {
    var n := |log| - 1;
    if i < n {
      assert !EntersAt(log, id, status, n);
      forall j: nat | i < j ensures !EntersAt(log[..n], id, status, j) { assert !EntersAt(log, id, status, j); }
      SinceIsLatest(log[..n], id, status, i);
    }
  }

  // A step adds to the log and stamps what it adds with its own time.
  lemma StepIsStamped(h: Hasher, s: System, step: SystemStep)
    ensures var log := SystemNext(h, s, step).log;
      s.log <= log && forall i :: |s.log| <= i < |log| ==> log[i].at == step.now
  {
  }

  // A request is accepted unless its customer and workspace have an action with its key; then nothing
  // happens.
  lemma SubmittedOnce(h: Hasher, s: System, request: Action, nonce: string, now: int)
    requires request.id !in s.cells
    ensures var s' := SystemNext(h, s, Submit(request, nonce, now));
      if exists id :: id in s.cells && s.cells[id].action.customer == request.customer
                      && s.cells[id].action.workspace == request.workspace && s.cells[id].action.key == request.key
      then s' == s
      else s'.cells == s.cells[request.id := NewCell(h, request, nonce, now)] && s'.requests == s.requests[request.id := request]
  {
    assert KeyTaken(s, request) <==>
      exists id :: id in s.cells && s.cells[id].action.customer == request.customer
                   && s.cells[id].action.workspace == request.workspace && s.cells[id].action.key == request.key;
  }

  lemma EntryIsLogged(h: Hasher, steps: seq<SystemStep>, a: Action)
    requires var s := SystemRun(h, Init(), steps); a.id in s.cells && s.cells[a.id].action == a
    ensures Since(SystemRun(h, Init(), steps).log, a.id, a.status).Some?
  {
    var s := SystemRun(h, Init(), steps);
    SystemRunKeepsInv(h, Init(), steps);
    var c := s.cells[a.id];
    assert CellOk(h, s, a.id);
    ReachedNotDraft(h, s.requests[a.id], c);
    PathEntersOnce(c.notes, c.action, c.action.status, a.status);
    SinceIffEntered(s.log, a.id, a.status);
  }

  // The "event missing" case of the stuck-action scripts cannot happen, and no action in the status is left out.
  lemma {:induction false} StuckLookupNeverMisses(h: Hasher, steps: seq<SystemStep>, actions: seq<Action>, status: Status)
    requires RowsOf(SystemRun(h, Init(), steps), actions)
    ensures var found := StuckIn(actions, SystemRun(h, Init(), steps).log, status);
      && (forall p :: p in found ==> p.0 in actions && p.0.status == status && p.1.Some?)
      && (forall a :: a in actions && a.status == status ==> exists p :: p in found && p.0 == a)
  {
    if actions != [] {
      var log := SystemRun(h, Init(), steps).log;
      var a, rest := actions[0], StuckIn(actions[1..], log, status);
      assert actions == [a] + actions[1..];
      StuckLookupNeverMisses(h, steps, actions[1..], status);
      if a.status == status {
        EntryIsLogged(h, steps, a);
        var p := (a, Since(log, a.id, status));
        assert StuckIn(actions, log, status) == [p] + rest && p in [p] + rest;
      } else {
        assert StuckIn(actions, log, status) == rest;
      }
    }
  }
}
