/**
  Writers of the audit chain (record_audit_event).  A transaction first locks the tip row of the
  customer it writes for and keeps that lock until it commits or rolls back; until then its rows are
  visible to itself alone.
*/
module AuditWriters {
  import opened Wrappers
  import opened AuditChain

  // One customer's rows and tip.
  datatype Book = Book(chain: seq<AuditEvent>, tip: Option<string>)

  // A customer without a tip row has no entry.
  type Books = map<string, Book>

  function BookOf(books: Books, c: string): Book {
    if c in books then books[c] else Book([], None)
  }

  // The arguments of one call: an event whose prevHash and hash are still to be filled in.
  type Recording = AuditEvent

  function Unsealed(e: AuditEvent): Recording { e.(prevHash := None, hash := "") }

  function Sealed(seal: Sealer, r: Recording, tip: Option<string>): AuditEvent {
    var e := r.(prevHash := tip, hash := "");
    e.(hash := seal(e))
  }

  function Recorded(seal: Sealer, b: Book, r: Recording): Book {
    var e := Sealed(seal, r, b.tip);
    Book(b.chain + [e], Some(e.hash))
  }

  // The session a transaction works on.
  class AuditSession {
    var chains: map<string, seq<AuditEvent>>
    var tips: map<string, Option<string>>

    ghost predicate Valid()
      reads this
    {
      chains.Keys == tips.Keys
    }

    function View(c: string): Book
      requires Valid()
      reads this
    {
      if c in tips then Book(chains[c], tips[c]) else Book([], None)
    }

    constructor ()
      ensures Valid() && forall c :: View(c) == Book([], None)
    {
      chains, tips := map[], map[];
    }

    method RecordAuditEvent(seal: Sealer, r: Recording) returns (event: AuditEvent)
      requires Valid()
      modifies this
      ensures Valid()
      ensures View(r.customer) == Recorded(seal, old(View(r.customer)), r)
      ensures forall c :: c != r.customer ==> View(c) == old(View(c))
      ensures View(r.customer).chain == old(View(r.customer).chain) + [event]
    {
      if r.customer !in tips {
        tips := tips[r.customer := None];
        chains := chains[r.customer := []];
      }
      event := r.(prevHash := tips[r.customer], hash := "");
      event := event.(hash := seal(event));
      chains := chains[r.customer := chains[r.customer] + [event]];
      tips := tips[r.customer := Some(event.hash)];
    }
  }

  // ---------- Interleaved transactions ----------

  type TxId = nat

  // What a transaction has locked and written: the whole book of each customer it locked, as it sees
  // them, and its calls in order.
  datatype Tx = Tx(books: Books, calls: seq<Recording>)

  // `locks` says which transaction holds a customer's tip row; `written` is every committed call, in
  // the order of the commits.
  datatype State = State(committed: Books, locks: map<string, TxId>, open: map<TxId, Tx>, written: seq<Recording>)

  datatype Step =
    | Record(t: TxId, r: Recording)
    | Commit(t: TxId)
    | Rollback(t: TxId)

  function Init(): State { State(map[], map[], map[], []) }

  function TxOf(s: State, t: TxId): Tx { if t in s.open then s.open[t] else Tx(map[], []) }

  // Taking the lock makes the transaction read the committed tip.
  function LockedBook(s: State, t: TxId, c: string): Book {
    if c in TxOf(s, t).books then TxOf(s, t).books[c] else BookOf(s.committed, c)
  }

  predicate Enabled(s: State, step: Step) {
    match step
    case Record(t, r) => r.customer in s.locks ==> s.locks[r.customer] == t
    case Commit(t) => t in s.open
    case Rollback(t) => t in s.open
  }

  function Released(locks: map<string, TxId>, t: TxId): map<string, TxId> {
    map c | c in locks && locks[c] != t :: locks[c]
  }

  // A step that cannot be taken (another transaction holds the row lock) changes nothing.
  function Next(seal: Sealer, s: State, step: Step): State {
    if !Enabled(s, step) then s else
    match step
    case Record(t, r) =>
      var book := Recorded(seal, LockedBook(s, t, r.customer), r);
      s.(locks := s.locks[r.customer := t],
         open := s.open[t := Tx(TxOf(s, t).books[r.customer := book], TxOf(s, t).calls + [r])])
    case Commit(t) =>
      State(s.committed + s.open[t].books, Released(s.locks, t), s.open - {t}, s.written + s.open[t].calls)
    case Rollback(t) =>
      s.(locks := Released(s.locks, t), open := s.open - {t})
  }

  function Run(seal: Sealer, s: State, steps: seq<Step>): State
    decreases |steps|
  {
    if steps == [] then s else Run(seal, Next(seal, s, steps[0]), steps[1..])
  }

  // ---------- The chain never forks ----------

  function Stripped(chain: seq<AuditEvent>): seq<Recording> {
    seq(|chain|, i requires 0 <= i < |chain| => Unsealed(chain[i]))
  }

  function CallsFor(calls: seq<Recording>, c: string): seq<Recording> {
    if calls == [] then []
    else
      var last := calls[|calls| - 1];
      CallsFor(calls[..|calls| - 1], c) + if last.customer == c then [Unsealed(last)] else []
  }

  lemma {:induction false} CallsForConcat(a: seq<Recording>, b: seq<Recording>, c: string)
    ensures CallsFor(a + b, c) == CallsFor(a, c) + CallsFor(b, c)
  {
    if b == [] {
      assert a + b == a;
    } else {
      CallsForConcat(a, b[..|b| - 1], c);
      assert (a + b)[..|a + b| - 1] == a + b[..|b| - 1];
    }
  }

  ghost predicate Consistent(seal: Sealer, b: Book) {
    Intact(seal, b.chain) && b.tip == EndHash(b.chain, None)
  }

  // What transaction t has in hand for customer c: nothing, or the locked committed book plus its own calls.
  ghost predicate DraftOk(seal: Sealer, s: State, t: TxId, c: string) {
    var own := TxOf(s, t);
    if c in own.books then
      && c in s.locks && s.locks[c] == t
      && Consistent(seal, own.books[c])
      && Stripped(own.books[c].chain) == Stripped(BookOf(s.committed, c).chain) + CallsFor(own.calls, c)
    else CallsFor(own.calls, c) == []
  }

  ghost predicate CommittedOk(seal: Sealer, s: State, c: string) {
    Consistent(seal, BookOf(s.committed, c)) && Stripped(BookOf(s.committed, c).chain) == CallsFor(s.written, c)
  }

  ghost predicate Inv(seal: Sealer, s: State) {
    (forall c :: CommittedOk(seal, s, c)) && (forall t, c :: DraftOk(seal, s, t, c))
  }

  lemma RecordedConsistent(seal: Sealer, b: Book, r: Recording)
    requires Faithful(seal) && Consistent(seal, b)
    ensures Consistent(seal, Recorded(seal, b, r))
    ensures Stripped(Recorded(seal, b, r).chain) == Stripped(b.chain) + [Unsealed(r)]
  {
    var e := Sealed(seal, r, b.tip);
    assert ContentOf(e) == ContentOf(r.(prevHash := b.tip, hash := ""));
    IntactAppend(seal, b.chain, e);
  }

  lemma CallsForSnoc(calls: seq<Recording>, r: Recording, c: string)
    ensures CallsFor(calls + [r], c) == CallsFor(calls, c) + if r.customer == c then [Unsealed(r)] else []
  {
    assert (calls + [r])[..|calls|] == calls;
  }

  // The draft, as values: what it was, and what one more call makes of it.
  lemma DraftExtends(seal: Sealer, book: Book, committed: seq<AuditEvent>, calls: seq<Recording>, r: Recording)
    requires Faithful(seal) && Consistent(seal, book)
    requires Stripped(book.chain) == Stripped(committed) + CallsFor(calls, r.customer)
    ensures Consistent(seal, Recorded(seal, book, r))
    ensures Stripped(Recorded(seal, book, r).chain) == Stripped(committed) + CallsFor(calls + [r], r.customer)
  {
    RecordedConsistent(seal, book, r);
    CallsForSnoc(calls, r, r.customer);
  }

  lemma RecordKeepsOwnDraft(seal: Sealer, s: State, t: TxId, r: Recording)
    requires Faithful(seal) && Enabled(s, Record(t, r))
    requires CommittedOk(seal, s, r.customer) && DraftOk(seal, s, t, r.customer)
    ensures DraftOk(seal, Next(seal, s, Record(t, r)), t, r.customer)
  {
    DraftExtends(seal, LockedBook(s, t, r.customer), BookOf(s.committed, r.customer).chain, TxOf(s, t).calls, r);
  }

  lemma RecordKeepsOtherDraft(seal: Sealer, s: State, t: TxId, r: Recording, u: TxId, c: string)
    requires Enabled(s, Record(t, r)) && DraftOk(seal, s, u, c) && (u != t || c != r.customer)
    ensures DraftOk(seal, Next(seal, s, Record(t, r)), u, c)
  {
    if u == t { CallsForSnoc(TxOf(s, t).calls, r, c); }
  }

  lemma RecordKeepsInv(seal: Sealer, s: State, t: TxId, r: Recording)
    requires Faithful(seal) && Inv(seal, s) && Enabled(s, Record(t, r))
    ensures Inv(seal, Next(seal, s, Record(t, r)))
  {
    var s' := Next(seal, s, Record(t, r));
    forall c ensures CommittedOk(seal, s', c) { assert CommittedOk(seal, s, c); }
    forall u, c
      ensures DraftOk(seal, s', u, c)
    {
      assert DraftOk(seal, s, u, c) && CommittedOk(seal, s, r.customer);
      if u == t && c == r.customer { RecordKeepsOwnDraft(seal, s, t, r); } else { RecordKeepsOtherDraft(seal, s, t, r, u, c); }
    }
  }

  lemma CommitKeepsInv(seal: Sealer, s: State, t: TxId)
    requires Inv(seal, s) && t in s.open
    ensures Inv(seal, Next(seal, s, Commit(t)))
  {
    var s' := Next(seal, s, Commit(t));
    forall c
      ensures CommittedOk(seal, s', c)
    {
      assert CommittedOk(seal, s, c) && DraftOk(seal, s, t, c);
      CallsForConcat(s.written, s.open[t].calls, c);
    }
    forall u, c
      ensures DraftOk(seal, s', u, c)
    {
      assert DraftOk(seal, s, u, c) && DraftOk(seal, s, t, c);
    }
  }

  lemma RollbackKeepsInv(seal: Sealer, s: State, t: TxId)
    requires Inv(seal, s) && t in s.open
    ensures Inv(seal, Next(seal, s, Rollback(t)))
  {
    var s' := Next(seal, s, Rollback(t));
    forall c ensures CommittedOk(seal, s', c) { assert CommittedOk(seal, s, c); }
    forall u, c ensures DraftOk(seal, s', u, c) { assert DraftOk(seal, s, u, c); }
  }

  lemma {:induction false} RunKeepsInv(seal: Sealer, s: State, steps: seq<Step>)
    requires Faithful(seal) && Inv(seal, s)
    ensures Inv(seal, Run(seal, s, steps))
    decreases |steps|
  {
    if steps != [] {
      var s' := Next(seal, s, steps[0]);
      if Enabled(s, steps[0]) {
        match steps[0]
        case Record(t, r) => RecordKeepsInv(seal, s, t, r);
        case Commit(t) => CommitKeepsInv(seal, s, t);
        case Rollback(t) => RollbackKeepsInv(seal, s, t);
      }
      RunKeepsInv(seal, s', steps[1..]);
    }
  }

  // Whatever the interleaving of writers, commits and rollbacks: every customer's committed chain holds
  // exactly the committed calls in commit order, verifies without a violation, and ends in the recorded tip.
  lemma ChainsNeverFork(seal: Sealer, steps: seq<Step>, c: string)
    requires Faithful(seal)
    ensures var s := Run(seal, Init(), steps);
      && Violations(seal, BookOf(s.committed, c).chain, None) == []
      && BookOf(s.committed, c).tip == EndHash(BookOf(s.committed, c).chain, None)
      && Stripped(BookOf(s.committed, c).chain) == CallsFor(s.written, c)
  {
    RunKeepsInv(seal, Init(), steps);
    assert CommittedOk(seal, Run(seal, Init(), steps), c);
  }

  // Two intact chains that record the same calls are the same, hashes included.
  lemma {:induction false} StrippedDeterminesChain(seal: Sealer, a: seq<AuditEvent>, b: seq<AuditEvent>)
    requires Faithful(seal) && Intact(seal, a) && Intact(seal, b) && Stripped(a) <= Stripped(b)
    ensures a <= b
  {
    if a != [] {
      var n := |a| - 1;
      IntactSplit(seal, a, n);
      assert Stripped(a[..n]) <= Stripped(b) by {
        assert Stripped(a[..n]) == Stripped(a)[..n];
      }
      StrippedDeterminesChain(seal, a[..n], b);
      SameRowSameHash(seal, a, b, n);
    }
  }

  lemma SameRowSameHash(seal: Sealer, a: seq<AuditEvent>, b: seq<AuditEvent>, n: nat)
    requires Faithful(seal) && Intact(seal, a) && Intact(seal, b)
    requires n < |a| && n < |b| && a[..n] == b[..n] && Stripped(a)[n] == Stripped(b)[n]
    ensures a[n] == b[n]
  {
    IntactRow(seal, a, n);
    IntactRow(seal, b, n);
    assert Unsealed(a[n]) == Unsealed(b[n]);
    assert a[n].prevHash == b[n].prevHash;
    assert ContentOf(a[n]) == ContentOf(b[n]);
  }

  // A commit leaves the books of customers it did not write to exactly as they were, and only adds rows
  // behind the committed ones of the others: no committed row is ever changed, its hashes included.
  lemma CommitOnlyExtends(seal: Sealer, steps: seq<Step>, t: TxId, c: string)
    requires Faithful(seal)
    ensures var s := Run(seal, Init(), steps);
      var before, after := BookOf(s.committed, c), BookOf(Next(seal, s, Commit(t)).committed, c);
      && (CallsFor(TxOf(s, t).calls, c) == [] ==> after == before)
      && before.chain <= after.chain
      && Stripped(after.chain) == Stripped(before.chain) + (if t in s.open then CallsFor(TxOf(s, t).calls, c) else [])
  {
    var s := Run(seal, Init(), steps);
    RunKeepsInv(seal, Init(), steps);
    assert DraftOk(seal, s, t, c) && CommittedOk(seal, s, c);
    if t in s.open {
      CommitKeepsInv(seal, s, t);
      assert CommittedOk(seal, Next(seal, s, Commit(t)), c);
      BooksExtend(seal, BookOf(s.committed, c), BookOf(Next(seal, s, Commit(t)).committed, c), CallsFor(TxOf(s, t).calls, c));
    }
  }

  lemma BooksExtend(seal: Sealer, before: Book, after: Book, added: seq<Recording>)
    requires Faithful(seal) && Consistent(seal, before) && Consistent(seal, after)
    requires Stripped(after.chain) == Stripped(before.chain) + added
    ensures before.chain <= after.chain
    ensures added == [] ==> after == before
  {
    StrippedDeterminesChain(seal, before.chain, after.chain);
    assert |after.chain| == |before.chain| + |added|;
  }

  // ---------- Nobody waits for nothing ----------

  // A customer is locked by an open transaction that has written to it.
  ghost predicate LocksHeld(s: State) {
    forall c :: c in s.locks ==> s.locks[c] in s.open && c in s.open[s.locks[c]].books
  }

  lemma NextKeepsLocksHeld(seal: Sealer, s: State, step: Step)
    requires LocksHeld(s)
    ensures LocksHeld(Next(seal, s, step))
  {
  }

  lemma {:induction false} RunKeepsLocksHeld(seal: Sealer, s: State, steps: seq<Step>)
    requires LocksHeld(s)
    ensures LocksHeld(Run(seal, s, steps))
    decreases |steps|
  {
    if steps != [] {
      NextKeepsLocksHeld(seal, s, steps[0]);
      RunKeepsLocksHeld(seal, Next(seal, s, steps[0]), steps[1..]);
    }
  }

  // So a call has to wait exactly while another open transaction has written to the same customer.
  lemma WaitsIffWritten(seal: Sealer, steps: seq<Step>, t: TxId, r: Recording)
    requires Faithful(seal)
    ensures var s := Run(seal, Init(), steps);
      !Enabled(s, Record(t, r)) <==> exists u :: u != t && u in s.open && r.customer in s.open[u].books
  {
    var s := Run(seal, Init(), steps);
    RunKeepsLocksHeld(seal, Init(), steps);
    RunKeepsInv(seal, Init(), steps);
    forall u | u in s.open && r.customer in s.open[u].books
      ensures r.customer in s.locks && s.locks[r.customer] == u
    {
      assert DraftOk(seal, s, u, r.customer);
    }
  }

  // A transaction that ends gives back what it has locked and leaves the others alone; one that is rolled
  // back leaves no trace, and its customers can be written to by anybody.
  lemma EndsCleanly(seal: Sealer, steps: seq<Step>, t: TxId, r: Recording)
    requires Faithful(seal) && t in Run(seal, Init(), steps).open
    ensures var s := Run(seal, Init(), steps);
      var back, done := Next(seal, s, Rollback(t)), Next(seal, s, Commit(t));
      && back.committed == s.committed && back.written == s.written
      && back.open == s.open - {t} == done.open && back.locks == done.locks
      && (r.customer in s.open[t].books ==> forall u :: Enabled(back, Record(u, r)))
  {
    var s := Run(seal, Init(), steps);
    RunKeepsInv(seal, Init(), steps);
    assert DraftOk(seal, s, t, r.customer);
  }
}
