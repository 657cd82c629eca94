/**
  Who belongs to which customer and workspace (backend/src/doda/application/customer_service.py and
  workspace_service.py).  Rows are kept by primary key; unique constraints, and the foreign keys on a membership's
  customer and on a workspace membership's workspace, are the guards that refuse a write.  The column
  customer_membership_id has no foreign key: that no workspace membership is orphaned is up to the
  operations, and module MembershipRace says when they fail to see to it.
*/
module Membership {
  import opened Wrappers
  import opened Roles

  type Id = nat

  datatype Member = Member(customer: Id, user: Id, role: CustomerRole)

  // A row of workspace_memberships.
  datatype Grant = Grant(customer: Id, member: Id, workspace: Id, role: WorkspaceRole)

  datatype Workspace = Workspace(customer: Id, archived: bool)

  // A row of user_customer_index.
  datatype IndexRow = IndexRow(user: Id, customer: Id)

  datatype Db = Db(customers: set<Id>, members: map<Id, Member>, grants: map<Id, Grant>,
                   workspaces: map<Id, Workspace>, index: set<IndexRow>,
                   tenants: map<Id, Id>)  // workspace_tenant_index: the customer of each workspace

  const EMPTY := Db({}, map[], map[], map[], {}, map[])

  datatype Refusal =
    | DuplicateKey | NotFound | DuplicateMembership | LastOwner
    | CrossCustomer | AuditorRole | DuplicateWorkspaceMembership

  // ---------- The operations ----------

  predicate HasMember(db: Db, customer: Id, user: Id) {
    exists m :: m in db.members && db.members[m].customer == customer && db.members[m].user == user
  }

  predicate HasGrant(db: Db, member: Id, workspace: Id) {
    exists g :: g in db.grants && db.grants[g].member == member && db.grants[g].workspace == workspace
  }

  function Owners(db: Db, customer: Id): set<Id> {
    set m | m in db.members && db.members[m].customer == customer && db.members[m].role == CustomerOwner
  }

  // The guard of demoting and of removing an owner.
  predicate IsLastOwner(db: Db, member: Id)
    requires member in db.members
  {
    db.members[member].role == CustomerOwner && |Owners(db, db.members[member].customer)| <= 1
  }

  function Created(db: Db, customer: Id, owner: Id, member: Id): Result<Db, Refusal> {
    if customer in db.customers || member in db.members || IndexRow(owner, customer) in db.index || HasMember(db, customer, owner)
    then Err(DuplicateKey)
    else Ok(db.(customers := db.customers + {customer},
                members := db.members[member := Member(customer, owner, CustomerOwner)],
                index := db.index + {IndexRow(owner, customer)}))
  }

  function Invited(db: Db, customer: Id, user: Id, role: CustomerRole, member: Id): Result<Db, Refusal> {
    if member in db.members then Err(DuplicateKey)
    else if customer !in db.customers then Err(NotFound)
    else if HasMember(db, customer, user) then Err(DuplicateMembership)
    else Ok(db.(members := db.members[member := Member(customer, user, role)],
                index := db.index + {IndexRow(user, customer)}))
  }

  function RoleChanged(db: Db, member: Id, role: CustomerRole): Result<Db, Refusal> {
    if member !in db.members then Err(NotFound)
    else if role != CustomerOwner && IsLastOwner(db, member) then Err(LastOwner)
    else Ok(db.(members := db.members[member := db.members[member].(role := role)]))
  }

  // Removing a member also removes every workspace membership that hangs on it, and the index row.
  function Removed(db: Db, member: Id): Result<Db, Refusal> {
    if member !in db.members then Err(NotFound)
    else if IsLastOwner(db, member) then Err(LastOwner)
    else
      var row := db.members[member];
      var left := db.(members := db.members - {member},
                      grants := map g | g in db.grants && db.grants[g].member != member :: db.grants[g]);
      Ok(if HasMember(left, row.customer, row.user) then left
         else left.(index := left.index - {IndexRow(row.user, row.customer)}))
  }

  function WorkspaceCreated(db: Db, customer: Id, workspace: Id): Result<Db, Refusal> {
    if workspace in db.workspaces || workspace in db.tenants then Err(DuplicateKey)
    else Ok(db.(workspaces := db.workspaces[workspace := Workspace(customer, false)],
                tenants := db.tenants[workspace := customer]))
  }

  function WorkspaceMemberAdded(db: Db, workspace: Id, member: Id, role: WorkspaceRole, grant: Id): Result<Db, Refusal> {
    if workspace !in db.workspaces || member !in db.members then Err(NotFound)
    else if db.members[member].customer != db.workspaces[workspace].customer then Err(CrossCustomer)
    else if db.members[member].role == Auditor then Err(AuditorRole)
    else if grant in db.grants || HasGrant(db, member, workspace) then Err(DuplicateWorkspaceMembership)
    else Ok(db.(grants := db.grants[grant := Grant(db.workspaces[workspace].customer, member, workspace, role)]))
  }

  function WorkspaceRoleChanged(db: Db, grant: Id, role: WorkspaceRole): Result<Db, Refusal> {
    if grant !in db.grants then Err(NotFound)
    else Ok(db.(grants := db.grants[grant := db.grants[grant].(role := role)]))
  }

  function WorkspaceMemberRemoved(db: Db, grant: Id): Result<Db, Refusal> {
    if grant !in db.grants then Err(NotFound) else Ok(db.(grants := db.grants - {grant}))
  }

  // archive_workspace and restore_workspace
  function ArchivedSet(db: Db, workspace: Id, archived: bool): Result<Db, Refusal> {
    if workspace !in db.workspaces then Err(NotFound)
    else Ok(db.(workspaces := db.workspaces[workspace := db.workspaces[workspace].(archived := archived)]))
  }

  // ---------- Runs of committed operations ----------

  datatype Op =
    | CreateCustomerWithOwner(customer: Id, owner: Id, member: Id)
    | InviteCustomerMember(customer: Id, user: Id, role: CustomerRole, member: Id)
    | ChangeCustomerMemberRole(member: Id, role: CustomerRole)
    | RemoveCustomerMember(member: Id)
    | CreateWorkspace(customer: Id, workspace: Id)
    | AddWorkspaceMember(workspace: Id, member: Id, workspaceRole: WorkspaceRole, grant: Id)
    | ChangeWorkspaceMemberRole(grant: Id, workspaceRole: WorkspaceRole)
    | RemoveWorkspaceMember(grant: Id)
    | SetArchived(workspace: Id, archived: bool)

  function Apply(db: Db, op: Op): Result<Db, Refusal> {
    match op
    case CreateCustomerWithOwner(customer, owner, member) => Created(db, customer, owner, member)
    case InviteCustomerMember(customer, user, role, member) => Invited(db, customer, user, role, member)
    case ChangeCustomerMemberRole(member, role) => RoleChanged(db, member, role)
    case RemoveCustomerMember(member) => Removed(db, member)
    case CreateWorkspace(customer, workspace) => WorkspaceCreated(db, customer, workspace)
    case AddWorkspaceMember(workspace, member, role, grant) => WorkspaceMemberAdded(db, workspace, member, role, grant)
    case ChangeWorkspaceMemberRole(grant, role) => WorkspaceRoleChanged(db, grant, role)
    case RemoveWorkspaceMember(grant) => WorkspaceMemberRemoved(db, grant)
    case SetArchived(workspace, archived) => ArchivedSet(db, workspace, archived)
  }

  // A refused operation rolls back.
  function Run(db: Db, ops: seq<Op>): Db
    decreases |ops|
  {
    if ops == [] then db
    else Run(if Apply(db, ops[0]).Ok? then Apply(db, ops[0]).value else db, ops[1..])
  }

  // ---------- What every operation keeps ----------

  // uq_customer_membership_customer_user
  ghost predicate MembersUnique(db: Db) {
    forall m, n :: m in db.members && n in db.members && m != n ==>
      db.members[m].customer != db.members[n].customer || db.members[m].user != db.members[n].user
  }

  // uq_workspace_membership_customer_membership_workspace
  ghost predicate GrantsUnique(db: Db) {
    forall g, h :: g in db.grants && h in db.grants && g != h ==>
      db.grants[g].member != db.grants[h].member || db.grants[g].workspace != db.grants[h].workspace
  }

  // The bootstrap index mirrors the memberships exactly.
  ghost predicate IndexMirrors(db: Db) {
    forall user, customer :: IndexRow(user, customer) in db.index <==> HasMember(db, customer, user)
  }

  // No workspace membership outlives its customer membership or crosses customers.
  ghost predicate GrantsAttached(db: Db) {
    forall g :: g in db.grants ==> Attached(db, db.grants[g])
  }

  ghost predicate Attached(db: Db, g: Grant) {
    && g.member in db.members && g.workspace in db.workspaces
    && db.members[g.member].customer == g.customer == db.workspaces[g.workspace].customer
  }

  // The tenant index knows every workspace's customer, and no other workspace.
  ghost predicate TenantsMirror(db: Db) {
    db.tenants == map w | w in db.workspaces :: db.workspaces[w].customer
  }

  ghost predicate OwnersKept(db: Db) {
    && (forall c :: c in db.customers ==> HasOwner(db, c))
    && (forall m :: m in db.members ==> db.members[m].customer in db.customers)
  }

  ghost predicate HasOwner(db: Db, customer: Id) {
    exists m :: m in db.members && db.members[m].customer == customer && db.members[m].role == CustomerOwner
  }

  ghost predicate Good(db: Db) {
    MembersUnique(db) && GrantsUnique(db) && IndexMirrors(db) && TenantsMirror(db) && GrantsAttached(db) && OwnersKept(db)
  }

  // With two owners, there is one besides any given row.
  lemma AnotherOwner(db: Db, customer: Id, member: Id)
    requires |Owners(db, customer)| > 1
    ensures exists m :: m in db.members && m != member && db.members[m].customer == customer && db.members[m].role == CustomerOwner
  {
    var others := Owners(db, customer) - {member};
    assert Owners(db, customer) <= others + {member};
    if others == {} { SubsetSize(Owners(db, customer), {member}); }
    var m :| m in others;
  }

  lemma {:induction false} SubsetSize<T>(a: set<T>, b: set<T>)
    requires a <= b
    ensures |a| <= |b|
  {
    assert b == a + (b - a);
  }

  // ---------- A new member ----------

  ghost predicate AddsMember(db: Db, after: Db, customer: Id, user: Id, role: CustomerRole, member: Id) {
    && member !in db.members && !HasMember(db, customer, user) && (customer in db.customers || role == CustomerOwner)
    && after == db.(customers := db.customers + {customer},
                    members := db.members[member := Member(customer, user, role)],
                    index := db.index + {IndexRow(user, customer)})
  }

  lemma AddingMirrors(db: Db, after: Db, customer: Id, user: Id, role: CustomerRole, member: Id)
    requires AddsMember(db, after, customer, user, role, member) && IndexMirrors(db)
    ensures IndexMirrors(after)
  {
    forall u, c
      ensures HasMember(after, c, u) <==> HasMember(db, c, u) || (c, u) == (customer, user)
    {
      assert member in after.members && after.members[member] == Member(customer, user, role);
      if HasMember(db, c, u) {
        var m :| m in db.members && db.members[m].customer == c && db.members[m].user == u;
        assert m in after.members;
      }
    }
  }

  lemma AddingKeepsOwners(db: Db, after: Db, customer: Id, user: Id, role: CustomerRole, member: Id)
    requires AddsMember(db, after, customer, user, role, member) && OwnersKept(db)
    ensures OwnersKept(after)
  {
    forall c | c in after.customers
      ensures HasOwner(after, c)
    {
      if c in db.customers {
        assert HasOwner(db, c);
        var m :| m in db.members && db.members[m].customer == c && db.members[m].role == CustomerOwner;
        assert m in after.members;
      } else {
        assert member in after.members;
      }
    }
  }

  lemma AddingKeepsUnique(db: Db, after: Db, customer: Id, user: Id, role: CustomerRole, member: Id)
    requires AddsMember(db, after, customer, user, role, member) && MembersUnique(db) && GrantsAttached(db)
    ensures MembersUnique(after) && GrantsAttached(after)
  {
    forall g | g in after.grants
      ensures Attached(after, after.grants[g])
    {
      assert Attached(db, db.grants[g]);
    }
  }

  lemma AddingKeepsGood(db: Db, after: Db, customer: Id, user: Id, role: CustomerRole, member: Id)
    requires AddsMember(db, after, customer, user, role, member) && Good(db)
    ensures Good(after)
  {
    AddingMirrors(db, after, customer, user, role, member);
    AddingKeepsOwners(db, after, customer, user, role, member);
    AddingKeepsUnique(db, after, customer, user, role, member);
  }

  // ---------- A changed role, a removed member ----------

  // After the guard has passed there is an owner besides the row that is given up.
  lemma OwnerSurvives(db: Db, member: Id, customer: Id)
    requires OwnersKept(db) && member in db.members && customer in db.customers && !IsLastOwner(db, member)
    ensures exists m :: m in db.members && m != member && db.members[m].customer == customer && db.members[m].role == CustomerOwner
  {
    assert HasOwner(db, customer);
    if db.members[member].customer == customer && db.members[member].role == CustomerOwner {
      AnotherOwner(db, customer, member);
    }
  }

  lemma GivingUpKeepsOwners(db: Db, after: Db, member: Id)
    requires OwnersKept(db) && member in db.members && !IsLastOwner(db, member)
    requires after.customers == db.customers
    requires forall m :: m in db.members && m != member ==> m in after.members && after.members[m] == db.members[m]
    requires forall m :: m in after.members ==> m in db.members && after.members[m].customer == db.members[m].customer
    ensures OwnersKept(after)
  {
    forall c | c in after.customers
      ensures HasOwner(after, c)
    {
      OwnerSurvives(db, member, c);
      var m :| m in db.members && m != member && db.members[m].customer == c && db.members[m].role == CustomerOwner;
      assert m in after.members;
    }
  }

  lemma PromotingKeepsOwners(db: Db, after: Db, member: Id)
    requires OwnersKept(db) && member in db.members
    requires after.customers == db.customers && after.members == db.members[member := db.members[member].(role := CustomerOwner)]
    ensures OwnersKept(after)
  {
    forall c | c in after.customers
      ensures HasOwner(after, c)
    {
      assert HasOwner(db, c);
      var m :| m in db.members && db.members[m].customer == c && db.members[m].role == CustomerOwner;
      assert m in after.members;
    }
  }

  lemma RoleChangeMirrors(db: Db, after: Db, member: Id, role: CustomerRole)
    requires IndexMirrors(db) && member in db.members
    requires after == db.(members := db.members[member := db.members[member].(role := role)])
    ensures IndexMirrors(after)
  {
    forall u, c
      ensures HasMember(after, c, u) <==> HasMember(db, c, u)
    {
      if HasMember(db, c, u) {
        var m :| m in db.members && db.members[m].customer == c && db.members[m].user == u;
        assert m in after.members;
      }
    }
  }

  lemma RoleChangeKeepsRows(db: Db, after: Db, member: Id, role: CustomerRole)
    requires MembersUnique(db) && GrantsAttached(db) && member in db.members
    requires after == db.(members := db.members[member := db.members[member].(role := role)])
    ensures MembersUnique(after) && GrantsAttached(after)
  {
    forall g | g in after.grants
      ensures Attached(after, after.grants[g])
    {
      assert Attached(db, db.grants[g]);
    }
  }

  lemma RoleChangedKeeps(db: Db, member: Id, role: CustomerRole)
    requires Good(db) && RoleChanged(db, member, role).Ok?
    ensures Good(RoleChanged(db, member, role).value)
  {
    var after := RoleChanged(db, member, role).value;
    RoleChangeMirrors(db, after, member, role);
    RoleChangeKeepsRows(db, after, member, role);
    if role == CustomerOwner { PromotingKeepsOwners(db, after, member); } else { GivingUpKeepsOwners(db, after, member); }
  }

  lemma RemovalMirrors(db: Db, member: Id)
    requires IndexMirrors(db) && MembersUnique(db) && Removed(db, member).Ok?
    ensures IndexMirrors(Removed(db, member).value)
  {
    var after := Removed(db, member).value;
    var row := db.members[member];
    assert after.members == db.members - {member};
    assert !HasMember(after, row.customer, row.user);
    forall u, c
      ensures HasMember(after, c, u) <==> HasMember(db, c, u) && (c, u) != (row.customer, row.user)
    {
      if HasMember(db, c, u) && (c, u) != (row.customer, row.user) {
        var m :| m in db.members && db.members[m].customer == c && db.members[m].user == u;
        assert m in after.members;
      }
    }
  }

  lemma RemovalKeepsGrants(db: Db, member: Id)
    requires GrantsAttached(db) && GrantsUnique(db) && Removed(db, member).Ok?
    ensures GrantsAttached(Removed(db, member).value) && GrantsUnique(Removed(db, member).value)
  {
    var after := Removed(db, member).value;
    forall g | g in after.grants
      ensures Attached(after, after.grants[g])
    {
      assert Attached(db, db.grants[g]);
    }
  }

  lemma RemovedKeeps(db: Db, member: Id)
    requires Good(db) && Removed(db, member).Ok?
    ensures Good(Removed(db, member).value)
  {
    RemovalMirrors(db, member);
    RemovalKeepsGrants(db, member);
    GivingUpKeepsOwners(db, Removed(db, member).value, member);
  }

  // ---------- Operations on workspaces ----------

  lemma MembersUntouched(db: Db, after: Db)
    requires after.members == db.members && after.index == db.index && after.customers == db.customers
    ensures MembersUnique(db) ==> MembersUnique(after)
    ensures IndexMirrors(db) ==> IndexMirrors(after)
    ensures OwnersKept(db) ==> OwnersKept(after)
  {
    assert forall c, u :: HasMember(after, c, u) == HasMember(db, c, u);
    assert forall c :: HasOwner(after, c) == HasOwner(db, c);
  }

  lemma WorkspaceOpsKeep(db: Db, op: Op)
    requires Good(db) && Apply(db, op).Ok?
    requires op.CreateWorkspace? || op.AddWorkspaceMember? || op.ChangeWorkspaceMemberRole? || op.RemoveWorkspaceMember? || op.SetArchived?
    ensures Good(Apply(db, op).value)
  {
    var after := Apply(db, op).value;
    MembersUntouched(db, after);
    TenantsKept(db, op);
    GrantsKept(db, op);
  }

  lemma TenantsKept(db: Db, op: Op)
    requires TenantsMirror(db) && Apply(db, op).Ok?
    ensures TenantsMirror(Apply(db, op).value)
  {
    var after := Apply(db, op).value;
    assert after.tenants.Keys == after.workspaces.Keys;
    forall w | w in after.workspaces
      ensures after.tenants[w] == after.workspaces[w].customer
    {
      if w in db.workspaces { assert db.tenants[w] == db.workspaces[w].customer; }
    }
  }

  lemma GrantsKept(db: Db, op: Op)
    requires GrantsAttached(db) && GrantsUnique(db) && Apply(db, op).Ok?
    requires op.CreateWorkspace? || op.AddWorkspaceMember? || op.ChangeWorkspaceMemberRole? || op.RemoveWorkspaceMember? || op.SetArchived?
    ensures GrantsAttached(Apply(db, op).value) && GrantsUnique(Apply(db, op).value)
  {
    var after := Apply(db, op).value;
    forall g | g in after.grants
      ensures Attached(after, after.grants[g])
    {
      if g in db.grants { assert Attached(db, db.grants[g]); }
    }
    if op.AddWorkspaceMember? { assert forall g :: g in db.grants ==> g in after.grants && after.grants[g] == db.grants[g]; }
  }

  lemma ApplyKeepsGood(db: Db, op: Op)
    requires Good(db) && Apply(db, op).Ok?
    ensures Good(Apply(db, op).value)
  {
    match op
    case CreateCustomerWithOwner(customer, owner, member) =>
      AddingKeepsGood(db, Apply(db, op).value, customer, owner, CustomerOwner, member);
    case InviteCustomerMember(customer, user, role, member) =>
      AddingKeepsGood(db, Apply(db, op).value, customer, user, role, member);
    case ChangeCustomerMemberRole(member, role) => RoleChangedKeeps(db, member, role);
    case RemoveCustomerMember(member) => RemovedKeeps(db, member);
    case _ => WorkspaceOpsKeep(db, op);
  }

  lemma EmptyIsGood()
    ensures Good(EMPTY)
  {
  }

  lemma {:induction false} RunKeepsGood(db: Db, ops: seq<Op>)
    requires Good(db)
    ensures Good(Run(db, ops))
    decreases |ops|
  {
    if ops != [] {
      if Apply(db, ops[0]).Ok? {
        ApplyKeepsGood(db, ops[0]);
        RunKeepsGood(Apply(db, ops[0]).value, ops[1..]);
      } else {
        RunKeepsGood(db, ops[1..]);
      }
    }
  }

  // From the empty store on, in every reachable state: the unique constraints hold, the index holds
  // (user, customer) exactly when a membership exists, the tenant index mirrors the workspaces, no
  // workspace membership is orphaned or crosses customers, and every customer has an owner.
  lemma ReachableIsGood(ops: seq<Op>)
    ensures Good(Run(EMPTY, ops))
  {
    EmptyIsGood();
    RunKeepsGood(EMPTY, ops);
  }
}
