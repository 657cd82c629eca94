/**
  What the membership operations do to the authority of users: each changes exactly what it is about.
*/
module MembershipEffects {
  import opened Wrappers
  import opened Roles
  import opened Membership
  import opened Directory

  // The customer role of a user after an operation.
  function RoleExpected(db: Db, op: Op, customer: Id, user: Id): Option<CustomerRole>
    requires MembersUnique(db)
  {
    match op
    case CreateCustomerWithOwner(c, owner, _) => if (c, owner) == (customer, user) then Some(CustomerOwner) else CustomerRoleOf(db, customer, user)
    case InviteCustomerMember(c, u, role, _) => if (c, u) == (customer, user) then Some(role) else CustomerRoleOf(db, customer, user)
    case ChangeCustomerMemberRole(m, role) =>
      if m in db.members && (db.members[m].customer, db.members[m].user) == (customer, user) then Some(role)
      else CustomerRoleOf(db, customer, user)
    case RemoveCustomerMember(m) =>
      if m in db.members && (db.members[m].customer, db.members[m].user) == (customer, user) then None
      else CustomerRoleOf(db, customer, user)
    case _ => CustomerRoleOf(db, customer, user)
  }

  // A row tells the role of its user.
  lemma RoleOfRow(db: Db, m: Id)
    requires MembersUnique(db) && m in db.members
    ensures CustomerRoleOf(db, db.members[m].customer, db.members[m].user) == Some(db.members[m].role)
  {
    assert HasMember(db, db.members[m].customer, db.members[m].user);
  }

  lemma RoleInRows(db: Db, op: Op, customer: Id, user: Id)
    requires MembersUnique(db) && Apply(db, op).Ok? && MembersUnique(Apply(db, op).value)
    ensures CustomerRoleOf(Apply(db, op).value, customer, user) == RoleExpected(db, op, customer, user)
  {
    var after := Apply(db, op).value;
    match op
    case CreateCustomerWithOwner(c, owner, m) => RowAdded(db, after, m, customer, user);
    case InviteCustomerMember(c, u, role, m) => RowAdded(db, after, m, customer, user);
    case ChangeCustomerMemberRole(m, role) => RowRewritten(db, after, m, customer, user);
    case RemoveCustomerMember(m) => RowDropped(db, after, m, customer, user);
    case _ => assert HasMember(after, customer, user) == HasMember(db, customer, user);
  }

  // Nothing but the named user's role in the named customer changes, and it changes to what was asked for.
  lemma RoleAfter(db: Db, op: Op, customer: Id, user: Id)
    requires Good(db) && Apply(db, op).Ok?
    ensures Good(Apply(db, op).value)
    ensures CustomerRoleOf(Apply(db, op).value, customer, user) == RoleExpected(db, op, customer, user)
  {
    ApplyKeepsGood(db, op);
    RoleInRows(db, op, customer, user);
  }

  lemma RowAdded(db: Db, after: Db, m: Id, customer: Id, user: Id)
    requires MembersUnique(db) && MembersUnique(after) && m !in db.members && m in after.members
    requires after.members == db.members[m := after.members[m]]
    requires !HasMember(db, after.members[m].customer, after.members[m].user)
    ensures CustomerRoleOf(after, customer, user) ==
        if (customer, user) == (after.members[m].customer, after.members[m].user) then Some(after.members[m].role)
        else CustomerRoleOf(db, customer, user)
  {
    RoleOfRow(after, m);
    if HasMember(db, customer, user) {
      var n :| n in db.members && db.members[n].customer == customer && db.members[n].user == user;
      RoleOfRow(db, n);
      RoleOfRow(after, n);
    }
  }

  lemma RowRewritten(db: Db, after: Db, m: Id, customer: Id, user: Id)
    requires MembersUnique(db) && MembersUnique(after) && m in db.members && m in after.members
    requires after.members == db.members[m := db.members[m].(role := after.members[m].role)]
    ensures CustomerRoleOf(after, customer, user) ==
        if (customer, user) == (db.members[m].customer, db.members[m].user) then Some(after.members[m].role)
        else CustomerRoleOf(db, customer, user)
  {
    RoleOfRow(after, m);
    if HasMember(db, customer, user) {
      var n :| n in db.members && db.members[n].customer == customer && db.members[n].user == user;
      RoleOfRow(db, n);
      RoleOfRow(after, n);
    }
  }

  lemma RowDropped(db: Db, after: Db, m: Id, customer: Id, user: Id)
    requires MembersUnique(db) && MembersUnique(after) && m in db.members && after.members == db.members - {m}
    ensures CustomerRoleOf(after, customer, user) ==
        if (customer, user) == (db.members[m].customer, db.members[m].user) then None else CustomerRoleOf(db, customer, user)
  {
    if HasMember(db, customer, user) {
      var n :| n in db.members && db.members[n].customer == customer && db.members[n].user == user;
      RoleOfRow(db, n);
      if n != m { RoleOfRow(after, n); }
    }
  }

  // The role of a user's row in a workspace, if there is a row.
  ghost predicate RowGives(db: Db, workspace: Id, user: Id, role: WorkspaceRole) {
    exists g :: IsRow(db, g, workspace, user) && db.grants[g].role == role
  }

  // A removal leaves alone the rows that hang on other members, and adds none.
  lemma RowOfOther(db: Db, m: Id, g: Id, workspace: Id, user: Id)
    requires m in db.members && Removed(db, m).Ok?
    ensures IsRow(Removed(db, m).value, g, workspace, user) <==> IsRow(db, g, workspace, user) && db.grants[g].member != m
    ensures IsRow(Removed(db, m).value, g, workspace, user) ==> Removed(db, m).value.grants[g] == db.grants[g]
  {
  }

  lemma RowsKept(db: Db, m: Id, workspace: Id, user: Id, role: WorkspaceRole)
    requires GrantsAttached(db) && Removed(db, m).Ok? && workspace in db.workspaces
    requires db.workspaces[workspace].customer != db.members[m].customer || user != db.members[m].user
    ensures RowGives(Removed(db, m).value, workspace, user, role) <==> RowGives(db, workspace, user, role)
  {
    var after := Removed(db, m).value;
    if RowGives(db, workspace, user, role) {
      var g :| IsRow(db, g, workspace, user) && db.grants[g].role == role;
      assert Attached(db, db.grants[g]);
      RowOfOther(db, m, g, workspace, user);
      assert IsRow(after, g, workspace, user);
    }
    if RowGives(after, workspace, user, role) {
      var g :| IsRow(after, g, workspace, user) && after.grants[g].role == role;
      RowOfOther(db, m, g, workspace, user);
      assert IsRow(db, g, workspace, user);
    }
  }

  // Removing a member takes all of the user's authority in that customer, whatever rows there were, and
  // touches nobody else's.
  lemma RemovalRevokes(db: Db, m: Id, workspace: Id, user: Id, allowArchived: bool, role: WorkspaceRole)
    requires Good(db) && Removed(db, m).Ok? && workspace in db.workspaces
    ensures var after := Removed(db, m).value;
      var context := Ok(WorkspaceContext(db.workspaces[workspace].customer, workspace, user, role));
      && Good(after)
      && (GetWorkspaceContext(after, user, workspace, allowArchived) == context <==>
            && GetWorkspaceContext(db, user, workspace, allowArchived) == context
            && (db.workspaces[workspace].customer, user) != (db.members[m].customer, db.members[m].user))
  {
    RoleAfter(db, RemoveCustomerMember(m), db.workspaces[workspace].customer, user);
    var after := Removed(db, m).value;
    ResolvesIff(db, user, workspace, allowArchived, role);
    ResolvesIff(after, user, workspace, allowArchived, role);
    if (db.workspaces[workspace].customer, user) != (db.members[m].customer, db.members[m].user) {
      RowsKept(db, m, workspace, user, role);
      assert RowGives(after, workspace, user, role) <==> RowGives(db, workspace, user, role);
    }
  }

  // A member added to a workspace enters it in the role given; an owner keeps entering as administrator.
  lemma AddedMayEnter(db: Db, workspace: Id, m: Id, role: WorkspaceRole, grant: Id)
    requires Good(db) && WorkspaceMemberAdded(db, workspace, m, role, grant).Ok? && !db.workspaces[workspace].archived
    ensures var after := WorkspaceMemberAdded(db, workspace, m, role, grant).value;
      && Good(after)
      && GetWorkspaceContext(after, db.members[m].user, workspace, false) ==
           Ok(WorkspaceContext(db.members[m].customer, workspace, db.members[m].user,
                               if db.members[m].role == CustomerOwner then WorkspaceAdmin else role))
  {
    var op := AddWorkspaceMember(workspace, m, role, grant);
    var after := Apply(db, op).value;
    ApplyKeepsGood(db, op);
    RoleOfRow(after, m);
    assert IsRow(after, grant, workspace, db.members[m].user);
    ResolvesIff(after, db.members[m].user, workspace, false, if db.members[m].role == CustomerOwner then WorkspaceAdmin else role);
  }

  // Whoever is an auditor in the workspace's customer enters as nothing at all.
  lemma AuditorDenied(db: Db, workspace: Id, user: Id)
    requires Good(db) && workspace in db.workspaces
    requires CustomerRoleOf(db, db.workspaces[workspace].customer, user) == Some(Auditor)
    ensures GetWorkspaceContext(db, user, workspace, true).Err?
  {
    var answer := GetWorkspaceContext(db, user, workspace, true);
    ResolvesIff(db, user, workspace, true, if answer.Ok? then answer.value.role else WorkspaceMember);
  }

  lemma PromotedBack(db: Db, m: Id)
    requires m in db.members && db.members[m].role == PlainMember && RoleChanged(db, m, Auditor).Ok?
    ensures RoleChanged(RoleChanged(db, m, Auditor).value, m, PlainMember) == Ok(db)
  {
    assert RoleChanged(RoleChanged(db, m, Auditor).value, m, PlainMember).value.members == db.members;
  }

  // A plain member demoted to auditor enters nothing of that customer while an auditor, and is back where
  // they were when promoted again, without any row having been cleaned up.
  lemma AuditorAndBack(db: Db, m: Id, workspace: Id)
    requires Good(db) && m in db.members && db.members[m].role == PlainMember
    requires workspace in db.workspaces && db.workspaces[workspace].customer == db.members[m].customer
    ensures var demoted := RoleChanged(db, m, Auditor);
      && demoted.Ok? && Good(demoted.value)
      && GetWorkspaceContext(demoted.value, db.members[m].user, workspace, true).Err?
      && RoleChanged(demoted.value, m, PlainMember) == Ok(db)
  {
    RoleAfter(db, ChangeCustomerMemberRole(m, Auditor), db.members[m].customer, db.members[m].user);
    PromotedBack(db, m);
    AuditorDenied(RoleChanged(db, m, Auditor).value, workspace, db.members[m].user);
  }

  // The rows are still listed meanwhile: the roster shows the demoted member in the old role.
  lemma DemotedStaysListed(db: Db, g: Id)
    requires Good(db) && g in db.grants && db.members[db.grants[g].member].role == PlainMember
    ensures var demoted := RoleChanged(db, db.grants[g].member, Auditor);
      && demoted.Ok? && Good(demoted.value)
      && Listed(demoted.value, db.grants[g].workspace, RowEntry(db, g))
      && GetWorkspaceContext(demoted.value, RowEntry(db, g).user, db.grants[g].workspace, true).Err?
  {
    assert Attached(db, db.grants[g]);
    AuditorAndBack(db, db.grants[g].member, db.grants[g].workspace);
  }

  // A plain member's row in a workspace.
  predicate IsPlainRow(db: Db, g: Id) {
    g in db.grants && db.grants[g].member in db.members && db.members[db.grants[g].member].role == PlainMember
  }

  lemma PlainRowReached()
    ensures exists ops :: IsPlainRow(Run(EMPTY, ops), 1000)
  {
    var create, invite := CreateCustomerWithOwner(1, 10, 100), InviteCustomerMember(1, 11, PlainMember, 101);
    var open, add := CreateWorkspace(1, 7), AddWorkspaceMember(7, 101, WorkspaceMember, 1000);
    var db1 := Apply(EMPTY, create).value;
    assert db1.members == map[100 := Member(1, 10, CustomerOwner)] && !HasMember(db1, 1, 11);
    var db2 := Apply(db1, invite).value;
    var db3 := Apply(db2, open).value;
    RunStep(EMPTY, create, [invite] + ([open] + ([add] + [])));
    RunStep(db1, invite, [open] + ([add] + []));
    RunStep(db2, open, [add] + []);
    RunStep(db3, add, []);
    assert IsPlainRow(Apply(db3, add).value, 1000);
    assert IsPlainRow(Run(EMPTY, [create] + ([invite] + ([open] + ([add] + [])))), 1000);
  }

  // Such a member can be reached: a customer with an owner, a member added to a workspace.
  lemma RosterCanDisagree()
    ensures exists ops, g :: DisagreesAfter(Run(EMPTY, ops), g)
  {
    PlainRowReached();
    var ops :| IsPlainRow(Run(EMPTY, ops), 1000);
    ReachableIsGood(ops);
    DemotedStaysListed(Run(EMPTY, ops), 1000);
    assert DisagreesAfter(Run(EMPTY, ops), 1000);
  }

  lemma RunStep(db: Db, op: Op, rest: seq<Op>)
    requires Apply(db, op).Ok?
    ensures Run(db, [op] + rest) == Run(Apply(db, op).value, rest)
  {
    assert ([op] + rest)[1..] == rest;
  }

  // The roster shows row g of a member whom the resolver refuses, once the member is demoted.
  ghost predicate DisagreesAfter(db: Db, g: Id) {
    && g in db.grants && db.grants[g].member in db.members
    && var demoted := RoleChanged(db, db.grants[g].member, Auditor);
    && demoted.Ok? && Good(demoted.value) && db.grants[g].workspace in demoted.value.workspaces
    && Listed(demoted.value, db.grants[g].workspace, RowEntry(db, g))
    && GetWorkspaceContext(demoted.value, RowEntry(db, g).user, db.grants[g].workspace, true).Err?
  }
}
