/**
  Concurrent removals and demotions of one customer's owners
  (backend/src/doda/application/customer_service.py).  A transaction loads the row it will change, counts
  the owners under SELECT ... FOR UPDATE, and writes.  The select takes a snapshot and then locks row by
  row, waiting for other holders and re-checking each row once it has it; a write needs the row's lock;
  locks are held to the end of the transaction.
*/
module LastOwner {
  import opened Membership

  datatype Stage = Loaded | Counting | Cleared

  datatype Tx = Tx(
    target: Id,
    loadedAsOwner: bool,  // the role the row had when it was loaded
    stage: Stage,
    todo: set<Id>,        // rows of the snapshot not locked yet
    locks: set<Id>,
    counted: set<Id>)     // rows that were still owners once locked

  // `owners` are the committed owner rows.
  datatype State = State(owners: set<Id>, txs: map<nat, Tx>)

  datatype Step =
    | Load(t: nat, target: Id)
    | Snapshot(t: nat)
    | LockRow(t: nat, row: Id)
    | Decide(t: nat)
    | Write(t: nat)      // demote or delete the target, and commit
    | Abort(t: nat)
    | Promote(row: Id)   // some row becomes an owner, or a new owner is invited

  predicate LockedByOther(s: State, t: nat, row: Id) {
    exists u :: u in s.txs && u != t && row in s.txs[u].locks
  }

  predicate MayWrite(s: State, t: nat) {
    && t in s.txs && !LockedByOther(s, t, s.txs[t].target)
    && (if s.txs[t].loadedAsOwner then s.txs[t].stage == Cleared else s.txs[t].stage == Loaded)
  }

  // Steps that cannot be taken now wait: they change nothing.
  function Next(s: State, step: Step): State {
    match step
    case Load(t, target) =>
      if t in s.txs then s
      else s.(txs := s.txs[t := Tx(target, target in s.owners, Loaded, {}, {}, {})])
    case Snapshot(t) =>
      if t !in s.txs || s.txs[t].stage != Loaded || !s.txs[t].loadedAsOwner then s
      else s.(txs := s.txs[t := s.txs[t].(stage := Counting, todo := s.owners)])
    case LockRow(t, row) =>
      if t !in s.txs || row !in s.txs[t].todo || LockedByOther(s, t, row) then s
      else
        var tx := s.txs[t];
        s.(txs := s.txs[t := tx.(todo := tx.todo - {row}, locks := tx.locks + {row},
                                 counted := if row in s.owners then tx.counted + {row} else tx.counted)])
    case Decide(t) =>
      if t !in s.txs || s.txs[t].stage != Counting || s.txs[t].todo != {} then s
      else if |s.txs[t].counted| <= 1 then s.(txs := s.txs - {t})  // CustomerMembershipError
      else s.(txs := s.txs[t := s.txs[t].(stage := Cleared)])
    case Write(t) =>
      if !MayWrite(s, t) then s else State(s.owners - {s.txs[t].target}, s.txs - {t})
    case Abort(t) => s.(txs := s.txs - {t})
    case Promote(row) =>
      if exists t :: t in s.txs && row in s.txs[t].locks then s else s.(owners := s.owners + {row})
  }

  function Run(s: State, steps: seq<Step>): State
    decreases |steps|
  {
    if steps == [] then s else Run(Next(s, steps[0]), steps[1..])
  }

  // Two transactions never lock the same row; what a transaction counted it has locked, and it is
  // still an owner; who may go on counted at least two.
  ghost predicate Inv(s: State) {
    && (forall t, u :: t in s.txs && u in s.txs && t != u ==> s.txs[t].locks !! s.txs[u].locks)
    && (forall t :: t in s.txs ==> TxInv(s, s.txs[t]))
  }

  ghost predicate TxInv(s: State, tx: Tx) {
    && tx.counted <= tx.locks * s.owners
    && (tx.stage == Cleared ==> tx.todo == {} && |tx.counted| >= 2)
  }

  // The role a transaction acts on is no longer true: it loaded a plain member who is an owner by now.
  predicate StaleWrite(s: State, step: Step) {
    step.Write? && MayWrite(s, step.t) && !s.txs[step.t].loadedAsOwner && s.txs[step.t].target in s.owners
  }

  // A step that touches only its own transaction and adds no lock held elsewhere.
  lemma OwnStepKeepsInv(s: State, t: nat, tx: Tx)
    requires Inv(s) && TxInv(s, tx)
    requires forall row :: row in tx.locks ==> !LockedByOther(s, t, row)
    ensures Inv(s.(txs := s.txs[t := tx]))
  {
    var s' := s.(txs := s.txs[t := tx]);
    forall u | u in s'.txs
      ensures TxInv(s', s'.txs[u])
    {
      if u != t { assert TxInv(s, s.txs[u]); }
    }
    forall u | u in s.txs && u != t
      ensures s.txs[u].locks !! tx.locks
    {
      assert forall row :: row in s.txs[u].locks ==> LockedByOther(s, t, row);
    }
  }

  lemma OwnLocksAreFree(s: State, t: nat)
    requires Inv(s) && t in s.txs
    ensures forall row :: row in s.txs[t].locks ==> !LockedByOther(s, t, row)
  {
  }

  lemma DroppingKeepsInv(s: State, t: nat)
    requires Inv(s)
    ensures Inv(s.(txs := s.txs - {t}))
  {
    var s' := s.(txs := s.txs - {t});
    forall u | u in s'.txs
      ensures TxInv(s', s'.txs[u])
    {
      assert TxInv(s, s.txs[u]);
    }
  }

  lemma PromotingKeepsInv(s: State, row: Id)
    requires Inv(s)
    ensures Inv(s.(owners := s.owners + {row}))
  {
    var s' := s.(owners := s.owners + {row});
    forall u | u in s'.txs
      ensures TxInv(s', s'.txs[u])
    {
      assert TxInv(s, s.txs[u]);
    }
  }

  lemma NextKeepsInv(s: State, step: Step)
    requires Inv(s)
    ensures Inv(Next(s, step))
  {
    if Next(s, step) == s { return; }
    match step
    case Load(t, target) => OwnStepKeepsInv(s, t, Next(s, step).txs[t]);
    case Snapshot(t) => OwnLocksAreFree(s, t); OwnStepKeepsInv(s, t, Next(s, step).txs[t]);
    case LockRow(t, row) => OwnLocksAreFree(s, t); OwnStepKeepsInv(s, t, Next(s, step).txs[t]);
    case Decide(t) =>
      if |s.txs[t].counted| <= 1 {
        DroppingKeepsInv(s, t);
      } else {
        OwnLocksAreFree(s, t);
        OwnStepKeepsInv(s, t, Next(s, step).txs[t]);
      }
    case Write(t) => WriteKeepsCounts(s, t);
    case Abort(t) => DroppingKeepsInv(s, t);
    case Promote(row) => PromotingKeepsInv(s, row);
  }

  // Nobody else has counted the row that is written: they would hold its lock.
  lemma WriteKeepsCounts(s: State, t: nat)
    requires Inv(s) && MayWrite(s, t)
    ensures Inv(Next(s, Write(t)))
  {
    var s' := Next(s, Write(t));
    forall u | u in s'.txs
      ensures TxInv(s', s'.txs[u])
    {
      assert TxInv(s, s.txs[u]) && u != t;
      assert s.txs[t].target !in s.txs[u].locks;
    }
  }

  lemma TwoLeaveOne(counted: set<Id>, target: Id)
    requires |counted| >= 2
    ensures counted - {target} != {}
  {
    var rest := counted - {target};
    assert counted <= rest + {target};
    SubsetSize(counted, rest + {target});
  }

  // From a state with an owner, exactly one kind of step leaves none: writing the only owner over a
  // role that was loaded before the row became owner.
  lemma LosesLastOwnerIff(s: State, step: Step)
    requires Inv(s) && s.owners != {}
    ensures Next(s, step).owners == {} <==> StaleWrite(s, step) && s.owners == {s.txs[step.t].target}
  {
    if step.Write? && MayWrite(s, step.t) {
      var tx := s.txs[step.t];
      assert TxInv(s, tx);
      if tx.loadedAsOwner {
        TwoLeaveOne(tx.counted, tx.target);
      }
    }
  }

  ghost predicate RolesCurrent(s: State, steps: seq<Step>)
    decreases |steps|
  {
    steps == [] || (!StaleWrite(s, steps[0]) && RolesCurrent(Next(s, steps[0]), steps[1..]))
  }

  // However removals, demotions and promotions interleave, the customer keeps an owner, as long as the
  // roles acted on are still current.
  lemma {:induction false} AnOwnerStays(s: State, steps: seq<Step>)
    requires Inv(s) && s.owners != {} && RolesCurrent(s, steps)
    ensures Run(s, steps).owners != {} && Inv(Run(s, steps))
    decreases |steps|
  {
    if steps != [] {
      LosesLastOwnerIff(s, steps[0]);
      NextKeepsInv(s, steps[0]);
      AnOwnerStays(Next(s, steps[0]), steps[1..]);
    }
  }

  lemma RunStep(s: State, step: Step, rest: seq<Step>)
    ensures Run(s, [step] + rest) == Run(Next(s, step), rest)
  {
    assert ([step] + rest)[1..] == rest;
  }

  // A proper removal of row 1 out of two owners, in two halves.
  function CountingSteps(rest: seq<Step>): seq<Step> {
    [Load(8, 1)] + ([Snapshot(8)] + ([LockRow(8, 1)] + rest))
  }

  function WritingSteps(rest: seq<Step>): seq<Step> {
    [LockRow(8, 2)] + ([Decide(8)] + ([Write(8)] + rest))
  }

  lemma Counted(member: Tx, rest: seq<Step>)
    requires member == Tx(2, false, Loaded, {}, {}, {})
    ensures Run(State({1, 2}, map[7 := member]), CountingSteps(rest))
        == Run(State({1, 2}, map[7 := member, 8 := Tx(1, true, Counting, {2}, {1}, {1})]), rest)
  {
    var s2 := State({1, 2}, map[7 := member]);
    RunStep(s2, Load(8, 1), [Snapshot(8)] + ([LockRow(8, 1)] + rest));
    var s3 := Next(s2, Load(8, 1));
    RunStep(s3, Snapshot(8), [LockRow(8, 1)] + rest);
    var s4 := Next(s3, Snapshot(8));
    assert s4.txs[8] == Tx(1, true, Counting, {1, 2}, {}, {});
    RunStep(s4, LockRow(8, 1), rest);
    var counting := Tx(1, true, Counting, {2}, {1}, {1});
    assert Next(s4, LockRow(8, 1)).txs[8] == counting;
    assert Next(s4, LockRow(8, 1)) == State({1, 2}, map[7 := member, 8 := counting]);
  }

  lemma Written(member: Tx, rest: seq<Step>)
    requires member == Tx(2, false, Loaded, {}, {}, {})
    ensures Run(State({1, 2}, map[7 := member, 8 := Tx(1, true, Counting, {2}, {1}, {1})]), WritingSteps(rest))
        == Run(State({2}, map[7 := member]), rest)
  {
    var s5 := State({1, 2}, map[7 := member, 8 := Tx(1, true, Counting, {2}, {1}, {1})]);
    RunStep(s5, LockRow(8, 2), [Decide(8)] + ([Write(8)] + rest));
    var s6 := Next(s5, LockRow(8, 2));
    assert s6.txs[8] == Tx(1, true, Counting, {}, {1, 2}, {1, 2});
    RunStep(s6, Decide(8), [Write(8)] + rest);
    assert |{1, 2}| == 2;
    var s7 := Next(s6, Decide(8));
    RunStep(s7, Write(8), rest);
    assert Next(s7, Write(8)) == State({2}, map[7 := member]);
  }

  lemma Promoted(member: Tx, rest: seq<Step>)
    requires member == Tx(2, false, Loaded, {}, {}, {})
    ensures Run(ONE_OWNER, [Load(7, 2)] + ([Promote(2)] + rest)) == Run(State({1, 2}, map[7 := member]), rest)
  {
    var start := ONE_OWNER;
    RunStep(start, Load(7, 2), [Promote(2)] + rest);
    RunStep(Next(start, Load(7, 2)), Promote(2), rest);
    assert Next(Next(start, Load(7, 2)), Promote(2)) == State({1, 2}, map[7 := member]);
  }

  const ONE_OWNER := State({1}, map[])

  predicate LosesAllOwners(s: State, steps: seq<Step>) { Run(s, steps).owners == {} }

  // With a stale role the customer can lose its last owner: a member is loaded, becomes owner, the other
  // owner leaves, and then the removal of "a member" goes through unchecked.
  lemma StaleRoleLosesOwner()
    ensures exists steps :: LosesAllOwners(ONE_OWNER, steps)
  {
    var member := Tx(2, false, Loaded, {}, {}, {});
    var last := State({2}, map[7 := member]);
    var removal := CountingSteps(WritingSteps([Write(7)] + []));
    Promoted(member, removal);
    Counted(member, WritingSteps([Write(7)] + []));
    Written(member, [Write(7)] + []);
    RunStep(last, Write(7), []);
    var steps := [Load(7, 2)] + ([Promote(2)] + removal);
    assert MayWrite(last, 7);
    assert Next(last, Write(7)).owners == {};
    assert LosesAllOwners(ONE_OWNER, steps);
  }
}
