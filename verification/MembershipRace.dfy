/**
  Adding a workspace member while the customer membership is being removed
  (backend/src/doda/application/workspace_service.py, customer_service.py).  workspace_memberships has no
  foreign key on customer_membership_id: an addition loads the membership and inserts later; a removal
  selects the workspace memberships that hang on the membership, and deletes those and the membership
  later.  Each sees what is committed when it looks.
*/
module MembershipRace {
  import opened Membership

  datatype Tx =
    | Adding(member: Id, grant: Id)
    | Removing(member: Id)
    | Selected(member: Id, orphaned: set<Id>)  // the rows the removal has selected

  // The committed rows: customer memberships, and the membership each workspace membership hangs on.
  datatype State = State(members: set<Id>, grants: map<Id, Id>, txs: map<nat, Tx>)

  datatype Step =
    | LoadForAdding(t: nat, member: Id, grant: Id)
    | LoadForRemoving(t: nat, member: Id)
    | Select(t: nat)
    | Commit(t: nat)
    | Abort(t: nat)

  function Committed(s: State, t: nat, tx: Tx): State {
    match tx
    case Adding(member, grant) =>
      if grant in s.grants then s.(txs := s.txs - {t})  // primary key
      else State(s.members, s.grants[grant := member], s.txs - {t})
    case Removing(_) => s
    case Selected(member, orphaned) => State(s.members - {member}, s.grants - orphaned, s.txs - {t})
  }

  function Next(s: State, step: Step): State {
    match step
    case LoadForAdding(t, member, grant) =>
      if t in s.txs || member !in s.members then s else s.(txs := s.txs[t := Adding(member, grant)])
    case LoadForRemoving(t, member) =>
      if t in s.txs || member !in s.members then s else s.(txs := s.txs[t := Removing(member)])
    case Select(t) =>
      if t !in s.txs || !s.txs[t].Removing? then s
      else
        var member := s.txs[t].member;
        s.(txs := s.txs[t := Selected(member, set g | g in s.grants && s.grants[g] == member)])
    case Commit(t) =>
      if t !in s.txs then s
      else Committed(s, t, s.txs[t])
    case Abort(t) => s.(txs := s.txs - {t})
  }

  function Run(s: State, steps: seq<Step>): State
    decreases |steps|
  {
    if steps == [] then s else Run(Next(s, steps[0]), steps[1..])
  }

  // Every workspace membership hangs on a customer membership.
  ghost predicate Attached(s: State) { forall g :: g in s.grants ==> s.grants[g] in s.members }

  // A row was added for a membership that was removed after it had been loaded.
  predicate AddsTooLate(s: State, step: Step) {
    && step.Commit? && step.t in s.txs && s.txs[step.t].Adding?
    && s.txs[step.t].grant !in s.grants && s.txs[step.t].member !in s.members
  }

  // A row was added to a membership after its removal had selected the rows to delete.
  predicate MissesRow(s: State, step: Step) {
    && step.Commit? && step.t in s.txs && s.txs[step.t].Selected?
    && exists g :: g in s.grants && s.grants[g] == s.txs[step.t].member && g !in s.txs[step.t].orphaned
  }

  // These two are the only ways to leave a workspace membership behind.
  lemma LeavesOrphanIff(s: State, step: Step)
    requires Attached(s)
    ensures !Attached(Next(s, step)) <==> AddsTooLate(s, step) || MissesRow(s, step)
  {
    var s' := Next(s, step);
    if AddsTooLate(s, step) {
      assert s.txs[step.t].grant in s'.grants;
    } else if MissesRow(s, step) {
      var g :| g in s.grants && s.grants[g] == s.txs[step.t].member && g !in s.txs[step.t].orphaned;
      assert g in s'.grants;
    }
  }

  ghost predicate Undisturbed(s: State, steps: seq<Step>)
    decreases |steps|
  {
    steps == [] ||
    (!AddsTooLate(s, steps[0]) && !MissesRow(s, steps[0]) && Undisturbed(Next(s, steps[0]), steps[1..]))
  }

  // Without them no workspace membership outlives its customer membership, however the two interleave.
  lemma {:induction false} NothingLeftBehind(s: State, steps: seq<Step>)
    requires Attached(s) && Undisturbed(s, steps)
    ensures Attached(Run(s, steps))
    decreases |steps|
  {
    if steps != [] {
      LeavesOrphanIff(s, steps[0]);
      NothingLeftBehind(Next(s, steps[0]), steps[1..]);
    }
  }

  const ONE_MEMBER := State({1}, map[], map[])

  lemma RunStep(s: State, step: Step, rest: seq<Step>)
    ensures Run(s, [step] + rest) == Run(Next(s, step), rest)
  {
    assert ([step] + rest)[1..] == rest;
  }

  ghost predicate LeavesOrphan(s: State, steps: seq<Step>) { !Attached(Run(s, steps)) }

  // And it happens: the addition commits between the removal's selection and its deletion.
  lemma OrphanReached()
    ensures exists steps :: LeavesOrphan(ONE_MEMBER, steps)
  {
    var s1 := Next(ONE_MEMBER, LoadForAdding(1, 1, 5));
    var s2 := Next(s1, LoadForRemoving(2, 1));
    var s3 := Next(s2, Select(2));
    var s4 := Next(s3, Commit(1));
    var s5 := Next(s4, Commit(2));
    assert s3.txs[2] == Selected(1, {}) && s3.txs[1] == Adding(1, 5);
    assert s4.grants == map[5 := 1] && s4.txs[2] == Selected(1, {});
    assert 5 in s5.grants && 1 !in s5.members;
    RunStep(ONE_MEMBER, LoadForAdding(1, 1, 5), [LoadForRemoving(2, 1)] + ([Select(2)] + ([Commit(1)] + ([Commit(2)] + []))));
    RunStep(s1, LoadForRemoving(2, 1), [Select(2)] + ([Commit(1)] + ([Commit(2)] + [])));
    RunStep(s2, Select(2), [Commit(1)] + ([Commit(2)] + []));
    RunStep(s3, Commit(1), [Commit(2)] + []);
    RunStep(s4, Commit(2), []);
    assert LeavesOrphan(ONE_MEMBER,
      [LoadForAdding(1, 1, 5)] + ([LoadForRemoving(2, 1)] + ([Select(2)] + ([Commit(1)] + ([Commit(2)] + [])))));
  }
}
