/**
  Who may enter a workspace, in which role, after each operation: the resolver's answer and what every
  operation does to it, and when an operation is refused.
*/
module WorkspaceEntry {
  import opened Wrappers
  import opened Roles
  import opened Membership
  import opened Directory
  import opened MembershipEffects

  // All that counts for a user in a workspace.
  datatype Standing = Standing(workspace: Option<Workspace>, customerRole: Option<CustomerRole>, row: Option<WorkspaceRole>)

  function RowRoleOf(db: Db, workspace: Id, user: Id): Option<WorkspaceRole>
    requires Good(db)
  {
    if HasRow(db, workspace, user) then
      RowUnique(db, workspace, user);
      var g :| g in db.grants && IsRow(db, g, workspace, user);
      Some(db.grants[g].role)
    else None
  }

  function StandingOf(db: Db, workspace: Id, user: Id): Standing
    requires Good(db)
  {
    if workspace !in db.workspaces then Standing(None, None, None)
    else
      Standing(Some(db.workspaces[workspace]), CustomerRoleOf(db, db.workspaces[workspace].customer, user),
               RowRoleOf(db, workspace, user))
  }

  // An owner enters as administrator, a plain member in the row's role, an auditor not at all.
  function Decided(s: Standing, workspace: Id, user: Id, allowArchived: bool): Result<WorkspaceContext, Denial> {
    match s
    case Standing(None, _, _) => Err(WorkspaceNotFound)
    case Standing(Some(ws), customerRole, row) =>
      if ws.archived && !allowArchived then Err(WorkspaceNotFound)
      else if customerRole == Some(CustomerOwner) then Ok(WorkspaceContext(ws.customer, workspace, user, WorkspaceAdmin))
      else if row.None? then Err(NoMembership)
      else if customerRole == Some(Auditor) then Err(AuditorHasNoRole)
      else Ok(WorkspaceContext(ws.customer, workspace, user, row.value))
  }

  lemma RowOf(db: Db, g: Id, workspace: Id, user: Id)
    requires Good(db) && IsRow(db, g, workspace, user)
    ensures RowRoleOf(db, workspace, user) == Some(db.grants[g].role)
  {
    RowUnique(db, workspace, user);
    assert HasRow(db, workspace, user);
  }

  lemma ResolverDecides(db: Db, workspace: Id, user: Id, allowArchived: bool)
    requires Good(db)
    ensures GetWorkspaceContext(db, user, workspace, allowArchived) == Decided(StandingOf(db, workspace, user), workspace, user, allowArchived)
  {
    if HasRow(db, workspace, user) {
      var g :| g in db.grants && IsRow(db, g, workspace, user);
      RowOf(db, g, workspace, user);
      RowUnique(db, workspace, user);
      assert Attached(db, db.grants[g]);
      RoleOfRow(db, db.grants[g].member);
    }
  }

  // ---------- What an operation does to a user's standing ----------

  function WorkspaceExpected(db: Db, op: Op, workspace: Id): Option<Workspace> {
    match op
    case CreateWorkspace(customer, w) =>
      if w == workspace then Some(Workspace(customer, false)) else Stored(db, workspace)
    case SetArchived(w, archived) =>
      if w == workspace && w in db.workspaces then Some(Workspace(db.workspaces[w].customer, archived)) else Stored(db, workspace)
    case _ => Stored(db, workspace)
  }

  function Stored(db: Db, workspace: Id): Option<Workspace> {
    if workspace in db.workspaces then Some(db.workspaces[workspace]) else None
  }

  function RowExpected(db: Db, op: Op, workspace: Id, user: Id): Option<WorkspaceRole>
    requires Good(db)
  {
    match op
    case AddWorkspaceMember(w, m, role, _) =>
      if w == workspace && m in db.members && db.members[m].user == user then Some(role) else RowRoleOf(db, workspace, user)
    case ChangeWorkspaceMemberRole(g, role) =>
      if IsRow(db, g, workspace, user) then Some(role) else RowRoleOf(db, workspace, user)
    case RemoveWorkspaceMember(g) =>
      if IsRow(db, g, workspace, user) then None else RowRoleOf(db, workspace, user)
    case RemoveCustomerMember(m) =>
      if m in db.members && workspace in db.workspaces
         && (db.members[m].customer, db.members[m].user) == (db.workspaces[workspace].customer, user)
      then None else RowRoleOf(db, workspace, user)
    case _ => RowRoleOf(db, workspace, user)
  }

  function StandingExpected(db: Db, op: Op, workspace: Id, user: Id): Standing
    requires Good(db)
  {
    match WorkspaceExpected(db, op, workspace)
    case None => Standing(None, None, None)
    case Some(ws) => Standing(Some(ws), RoleExpected(db, op, ws.customer, user), RowExpected(db, op, workspace, user))
  }

  // Row g stands in both, or in neither, with the same role.
  ghost predicate SameRows(db: Db, after: Db, workspace: Id, user: Id) {
    forall g :: (IsRow(db, g, workspace, user) <==> IsRow(after, g, workspace, user))
             && (IsRow(db, g, workspace, user) ==> after.grants[g].role == db.grants[g].role)
  }

  lemma RowsAlike(db: Db, after: Db, workspace: Id, user: Id)
    requires Good(db) && Good(after) && SameRows(db, after, workspace, user)
    ensures RowRoleOf(after, workspace, user) == RowRoleOf(db, workspace, user)
  {
    if HasRow(db, workspace, user) {
      var g :| g in db.grants && IsRow(db, g, workspace, user);
      RowOf(db, g, workspace, user);
      RowOf(after, g, workspace, user);
    } else {
      assert !HasRow(after, workspace, user);
    }
  }

  // Operations on memberships and workspaces, but for removals, leave all rows alone.
  lemma MembershipRows(db: Db, op: Op, workspace: Id, user: Id)
    requires GrantsAttached(db) && Apply(db, op).Ok?
    requires op.CreateCustomerWithOwner? || op.InviteCustomerMember? || op.ChangeCustomerMemberRole? || op.CreateWorkspace? || op.SetArchived?
    ensures SameRows(db, Apply(db, op).value, workspace, user)
  {
    assert forall g :: g in db.grants ==> Attached(db, db.grants[g]);
  }

  lemma OtherRows(db: Db, g: Id, row: Grant, workspace: Id, user: Id)
    requires row.member in db.members && (row.workspace != workspace || db.members[row.member].user != user)
    requires !IsRow(db, g, workspace, user)
    ensures SameRows(db, db.(grants := db.grants[g := row]), workspace, user)
  {
  }

  lemma RowAfterRemovedMember(db: Db, m: Id, workspace: Id, user: Id)
    requires Good(db) && Removed(db, m).Ok? && Good(Removed(db, m).value) && workspace in db.workspaces
    ensures RowRoleOf(Removed(db, m).value, workspace, user) == RowExpected(db, RemoveCustomerMember(m), workspace, user)
  {
    var after := Removed(db, m).value;
    forall g ensures IsRow(after, g, workspace, user) <==> IsRow(db, g, workspace, user) && db.grants[g].member != m {
      RowOfOther(db, m, g, workspace, user);
    }
    assert forall g :: g in db.grants ==> Attached(db, db.grants[g]);
    if (db.members[m].customer, db.members[m].user) == (db.workspaces[workspace].customer, user) {
      assert !HasRow(after, workspace, user);
    } else {
      RowsAlike(db, after, workspace, user);
    }
  }

  lemma RowAfterAdding(db: Db, w: Id, m: Id, role: WorkspaceRole, grant: Id, workspace: Id, user: Id)
    requires Good(db) && WorkspaceMemberAdded(db, w, m, role, grant).Ok? && Good(WorkspaceMemberAdded(db, w, m, role, grant).value)
    ensures RowRoleOf(WorkspaceMemberAdded(db, w, m, role, grant).value, workspace, user) ==
        RowExpected(db, AddWorkspaceMember(w, m, role, grant), workspace, user)
  {
    var after := WorkspaceMemberAdded(db, w, m, role, grant).value;
    if w == workspace && db.members[m].user == user {
      RowOf(after, grant, workspace, user);
    } else {
      OtherRows(db, grant, after.grants[grant], workspace, user);
      RowsAlike(db, after, workspace, user);
    }
  }

  lemma RowAfterChange(db: Db, g: Id, role: WorkspaceRole, workspace: Id, user: Id)
    requires Good(db) && WorkspaceRoleChanged(db, g, role).Ok? && Good(WorkspaceRoleChanged(db, g, role).value)
    ensures RowRoleOf(WorkspaceRoleChanged(db, g, role).value, workspace, user) ==
        RowExpected(db, ChangeWorkspaceMemberRole(g, role), workspace, user)
  {
    var after := WorkspaceRoleChanged(db, g, role).value;
    if IsRow(db, g, workspace, user) {
      RowOf(after, g, workspace, user);
    } else {
      assert Attached(db, db.grants[g]);
      OtherRows(db, g, after.grants[g], workspace, user);
      RowsAlike(db, after, workspace, user);
    }
  }

  lemma RowsLeft(db: Db, g: Id, workspace: Id, user: Id)
    ensures var after := db.(grants := db.grants - {g});
      && (!IsRow(db, g, workspace, user) ==> SameRows(db, after, workspace, user))
      && (forall h :: IsRow(after, h, workspace, user) ==> h != g && IsRow(db, h, workspace, user))
  {
  }

  lemma RowAfterRemoval(db: Db, g: Id, workspace: Id, user: Id)
    requires Good(db) && WorkspaceMemberRemoved(db, g).Ok? && Good(WorkspaceMemberRemoved(db, g).value)
    ensures RowRoleOf(WorkspaceMemberRemoved(db, g).value, workspace, user) ==
        RowExpected(db, RemoveWorkspaceMember(g), workspace, user)
  {
    var after := WorkspaceMemberRemoved(db, g).value;
    RowUnique(db, workspace, user);
    RowsLeft(db, g, workspace, user);
    if IsRow(db, g, workspace, user) { assert !HasRow(after, workspace, user); } else { RowsAlike(db, after, workspace, user); }
  }

  lemma RowAfter(db: Db, op: Op, workspace: Id, user: Id)
    requires Good(db) && Apply(db, op).Ok? && Good(Apply(db, op).value) && workspace in Apply(db, op).value.workspaces
    ensures RowRoleOf(Apply(db, op).value, workspace, user) == RowExpected(db, op, workspace, user)
  {
    match op
    case RemoveCustomerMember(m) => RowAfterRemovedMember(db, m, workspace, user);
    case AddWorkspaceMember(w, m, role, grant) => RowAfterAdding(db, w, m, role, grant, workspace, user);
    case ChangeWorkspaceMemberRole(g, role) => RowAfterChange(db, g, role, workspace, user);
    case RemoveWorkspaceMember(g) => RowAfterRemoval(db, g, workspace, user);
    case _ =>
      MembershipRows(db, op, workspace, user);
      RowsAlike(db, Apply(db, op).value, workspace, user);
  }

  lemma WorkspaceAfter(db: Db, op: Op, workspace: Id)
    requires Apply(db, op).Ok?
    ensures Stored(Apply(db, op).value, workspace) == WorkspaceExpected(db, op, workspace)
  {
  }

  // After any operation the resolver answers every user in every workspace as the operation has it: the
  // user and workspace it names get what was asked for, everyone else what they had.
  lemma EntryAfter(db: Db, op: Op, workspace: Id, user: Id, allowArchived: bool)
    requires Good(db) && Apply(db, op).Ok?
    ensures Good(Apply(db, op).value)
    ensures GetWorkspaceContext(Apply(db, op).value, user, workspace, allowArchived) ==
        Decided(StandingExpected(db, op, workspace, user), workspace, user, allowArchived)
  {
    ApplyKeepsGood(db, op);
    var after := Apply(db, op).value;
    ResolverDecides(after, workspace, user, allowArchived);
    WorkspaceAfter(db, op, workspace);
    if workspace in after.workspaces {
      RoleAfter(db, op, after.workspaces[workspace].customer, user);
      RowAfter(db, op, workspace, user);
    }
  }

  lemma RemovalStanding(db: Db, g: Id, workspace: Id, user: Id)
    requires Good(db) && g in db.grants
    ensures var before, after := StandingOf(db, workspace, user), StandingExpected(db, RemoveWorkspaceMember(g), workspace, user);
      after == if IsRow(db, g, workspace, user) then before.(row := None) else before
    ensures IsRow(db, g, workspace, user) ==>
        workspace in db.workspaces && db.workspaces[workspace].customer == db.grants[g].customer
  {
    assert Attached(db, db.grants[g]);
  }

  lemma EntryAfterRemoval(db: Db, g: Id, workspace: Id, user: Id, allowArchived: bool)
    requires Good(db) && g in db.grants
    ensures var after := WorkspaceMemberRemoved(db, g).value;
      && Good(after)
      && GetWorkspaceContext(after, user, workspace, allowArchived) ==
           Decided(StandingExpected(db, RemoveWorkspaceMember(g), workspace, user), workspace, user, allowArchived)
  {
    EntryAfter(db, RemoveWorkspaceMember(g), workspace, user, allowArchived);
  }

  // Removing a workspace member: the user is out, unless an owner, and nobody else notices.
  lemma WorkspaceRemovalRevokes(db: Db, g: Id, workspace: Id, user: Id, allowArchived: bool)
    requires Good(db) && g in db.grants
    ensures var after := WorkspaceMemberRemoved(db, g).value;
      && Good(after)
      && if IsRow(db, g, workspace, user) && CustomerRoleOf(db, db.grants[g].customer, user) != Some(CustomerOwner) then
           GetWorkspaceContext(after, user, workspace, allowArchived).Err?
         else
           GetWorkspaceContext(after, user, workspace, allowArchived) == GetWorkspaceContext(db, user, workspace, allowArchived)
  {
    EntryAfterRemoval(db, g, workspace, user, allowArchived);
    RemovalStanding(db, g, workspace, user);
    ResolverDecides(db, workspace, user, allowArchived);
  }

  // Changing a workspace member's role: a plain member enters in the role asked for, nobody else notices.
  lemma WorkspaceRoleTakesEffect(db: Db, g: Id, role: WorkspaceRole, workspace: Id, user: Id)
    requires Good(db) && g in db.grants
    ensures var after := WorkspaceRoleChanged(db, g, role).value;
      && Good(after)
      && if IsRow(db, g, workspace, user) && CustomerRoleOf(db, db.grants[g].customer, user) == Some(PlainMember) then
           GetWorkspaceContext(after, user, workspace, true) == Ok(WorkspaceContext(db.grants[g].customer, workspace, user, role))
         else
           GetWorkspaceContext(after, user, workspace, true) == GetWorkspaceContext(db, user, workspace, true)
  {
    EntryAfter(db, ChangeWorkspaceMemberRole(g, role), workspace, user, true);
    ResolverDecides(db, workspace, user, true);
    assert Attached(db, db.grants[g]);
    if IsRow(db, g, workspace, user) { RowOf(db, g, workspace, user); RoleOfRow(db, db.grants[g].member); }
  }

  lemma ArchivedStanding(db: Db, w: Id, archived: bool, workspace: Id, user: Id)
    requires Good(db) && w in db.workspaces
    ensures var before, after := StandingOf(db, workspace, user), StandingExpected(db, SetArchived(w, archived), workspace, user);
      if workspace == w then before.workspace.Some? && after == before.(workspace := Some(before.workspace.value.(archived := archived)))
      else after == before
  {
  }

  lemma ArchivedDecides(s: Standing, archived: bool, workspace: Id, user: Id, allowArchived: bool)
    requires s.workspace.Some?
    ensures var after := s.(workspace := Some(s.workspace.value.(archived := archived)));
      Decided(after, workspace, user, allowArchived) ==
        if archived && !allowArchived then Err(WorkspaceNotFound) else Decided(s, workspace, user, true)
  {
  }

  lemma EntryAfterArchiving(db: Db, w: Id, archived: bool, workspace: Id, user: Id, allowArchived: bool)
    requires Good(db) && w in db.workspaces
    ensures var after := ArchivedSet(db, w, archived).value;
      && Good(after)
      && GetWorkspaceContext(after, user, workspace, allowArchived) ==
           Decided(StandingExpected(db, SetArchived(w, archived), workspace, user), workspace, user, allowArchived)
  {
    EntryAfter(db, SetArchived(w, archived), workspace, user, allowArchived);
  }

  // Archiving closes a workspace to everybody but those who may see archived ones, restoring it opens it
  // to those entitled, and no other workspace notices.
  lemma ArchivedIsClosed(db: Db, w: Id, archived: bool, workspace: Id, user: Id, allowArchived: bool)
    requires Good(db) && w in db.workspaces
    ensures var after := ArchivedSet(db, w, archived).value;
      && Good(after)
      && GetWorkspaceContext(after, user, workspace, allowArchived) ==
           if workspace != w then GetWorkspaceContext(db, user, workspace, allowArchived)
           else if archived && !allowArchived then Err(WorkspaceNotFound)
           else GetWorkspaceContext(db, user, workspace, true)
  {
    EntryAfterArchiving(db, w, archived, workspace, user, allowArchived);
    ArchivedStanding(db, w, archived, workspace, user);
    ResolverDecides(db, workspace, user, if workspace == w then true else allowArchived);
    if workspace == w { ArchivedDecides(StandingOf(db, workspace, user), archived, workspace, user, allowArchived); }
  }

  // ---------- When an operation is refused ----------

  // Somebody else owns the customer of member m.
  ghost predicate AnotherOwns(db: Db, m: Id)
    requires m in db.members
  {
    exists n :: n in db.members && n != m && db.members[n].customer == db.members[m].customer && db.members[n].role == CustomerOwner
  }

  lemma LastOwnerIff(db: Db, m: Id)
    requires m in db.members
    ensures IsLastOwner(db, m) <==> db.members[m].role == CustomerOwner && !AnotherOwns(db, m)
  {
    var owners := Owners(db, db.members[m].customer);
    if db.members[m].role == CustomerOwner {
      assert m in owners;
      if AnotherOwns(db, m) {
        var n :| n in db.members && n != m && db.members[n].customer == db.members[m].customer && db.members[n].role == CustomerOwner;
        SubsetSize({m, n}, owners);
      } else {
        assert owners == {m};
      }
    }
  }

  // What a user may do to a customer's members, and what not.
  lemma MemberChangesRefusedIff(db: Db, m: Id, role: CustomerRole)
    requires Good(db)
    ensures RoleChanged(db, m, role).Err? <==>
        m !in db.members || (db.members[m].role == CustomerOwner && role != CustomerOwner && !AnotherOwns(db, m))
    ensures Removed(db, m).Err? <==> m !in db.members || (db.members[m].role == CustomerOwner && !AnotherOwns(db, m))
    ensures m in db.members ==> RoleChanged(db, m, role) != Err(NotFound) && Removed(db, m) != Err(NotFound)
  {
    if m in db.members { LastOwnerIff(db, m); }
  }

  // A customer, member or workspace is new exactly when its key is; a user is invited once.
  lemma NewRowsRefusedIff(db: Db, customer: Id, user: Id, role: CustomerRole, member: Id, workspace: Id)
    requires Good(db)
    ensures Created(db, customer, user, member).Err? <==> customer in db.customers || member in db.members
    ensures Invited(db, customer, user, role, member).Err? <==>
        member in db.members || customer !in db.customers || CustomerRoleOf(db, customer, user).Some?
    ensures WorkspaceCreated(db, customer, workspace).Err? <==> workspace in db.workspaces
  {
  }

  // A workspace takes a member of its own customer who is no auditor and has no row there yet.
  lemma AddingRefusedIff(db: Db, workspace: Id, m: Id, role: WorkspaceRole, grant: Id)
    requires Good(db) && workspace in db.workspaces && m in db.members
    ensures var refused := WorkspaceMemberAdded(db, workspace, m, role, grant);
      var member := db.members[m];
      && (refused == Err(CrossCustomer) <==> member.customer != db.workspaces[workspace].customer)
      && (refused == Err(AuditorRole) <==> member.customer == db.workspaces[workspace].customer && member.role == Auditor)
      && (refused.Ok? <==>
            && member.customer == db.workspaces[workspace].customer && member.role != Auditor
            && grant !in db.grants && RowRoleOf(db, workspace, member.user).None?)
  {
    if HasRow(db, workspace, db.members[m].user) {
      var g :| g in db.grants && IsRow(db, g, workspace, db.members[m].user);
      assert Attached(db, db.grants[g]);
    }
  }
}
