/**
  The membership tables as the session sees them: the operations that change them, the authorization
  resolver (backend/src/doda/application/authz_service.py), and the listings that must agree with it.
*/
module Directory {
  import opened Wrappers
  import opened Roles
  import opened Membership

  datatype WorkspaceContext = WorkspaceContext(customer: Id, workspace: Id, user: Id, role: WorkspaceRole)

  datatype Denial = WorkspaceNotFound | NoMembership | AuditorHasNoRole

  // ---------- The resolver ----------

  function CustomerRoleOf(db: Db, customer: Id, user: Id): Option<CustomerRole>
    requires MembersUnique(db)
  {
    if HasMember(db, customer, user) then
      var m :| m in db.members && db.members[m].customer == customer && db.members[m].user == user;
      Some(db.members[m].role)
    else None
  }

  // The join of the resolver: the user's rows in one workspace, whatever the customer.
  predicate IsRow(db: Db, g: Id, workspace: Id, user: Id) {
    && g in db.grants && db.grants[g].workspace == workspace
    && db.grants[g].member in db.members && db.members[db.grants[g].member].user == user
  }

  // There is at most one, so "the first row" is the row.
  lemma RowUnique(db: Db, workspace: Id, user: Id)
    requires Good(db)
    ensures forall g, h :: IsRow(db, g, workspace, user) && IsRow(db, h, workspace, user) ==> g == h
  {
    forall g, h | IsRow(db, g, workspace, user) && IsRow(db, h, workspace, user)
      ensures g == h
    {
      assert Attached(db, db.grants[g]) && Attached(db, db.grants[h]);
    }
  }

  // get_workspace_context
  function GetWorkspaceContext(db: Db, user: Id, workspace: Id, allowArchived: bool): Result<WorkspaceContext, Denial>
    requires Good(db)
  {
    if workspace !in db.workspaces || (db.workspaces[workspace].archived && !allowArchived) then Err(WorkspaceNotFound)
    else
      var customer := db.workspaces[workspace].customer;
      if CustomerRoleOf(db, customer, user) == Some(CustomerOwner) then
        Ok(WorkspaceContext(customer, workspace, user, WorkspaceAdmin))
      else if !exists g :: g in db.grants && IsRow(db, g, workspace, user) then Err(NoMembership)
      else
        RowUnique(db, workspace, user);
        var g :| g in db.grants && IsRow(db, g, workspace, user);
        if db.members[db.grants[g].member].role == Auditor then Err(AuditorHasNoRole)
        else Ok(WorkspaceContext(customer, workspace, user, db.grants[g].role))
  }

  // Who may enter: an owner of the workspace's customer, as administrator; or a member who is no
  // auditor, in the role granted.
  lemma ResolvesIff(db: Db, user: Id, workspace: Id, allowArchived: bool, role: WorkspaceRole)
    requires Good(db) && workspace in db.workspaces
    ensures var ws := db.workspaces[workspace];
      var customerRole := CustomerRoleOf(db, ws.customer, user);
      GetWorkspaceContext(db, user, workspace, allowArchived) == Ok(WorkspaceContext(ws.customer, workspace, user, role)) <==>
        && (!ws.archived || allowArchived)
        && (if customerRole == Some(CustomerOwner) then role == WorkspaceAdmin
            else customerRole == Some(PlainMember) && exists g :: IsRow(db, g, workspace, user) && db.grants[g].role == role)
  {
    RowUnique(db, workspace, user);
    forall g | IsRow(db, g, workspace, user)
      ensures CustomerRoleOf(db, db.workspaces[workspace].customer, user) == Some(db.members[db.grants[g].member].role)
    {
      assert Attached(db, db.grants[g]);
    }
  }

  // ---------- The tables ----------

  datatype Entry = Entry(customer: Id, workspace: Id, role: WorkspaceRole)

  // The authoritative answer behind a listed entry.
  ghost predicate Resolves(db: Db, user: Id, e: Entry)
    requires Good(db)
  {
    GetWorkspaceContext(db, user, e.workspace, false) == Ok(WorkspaceContext(e.customer, e.workspace, user, e.role))
  }

  ghost predicate EachWorkspaceOnce(entries: seq<Entry>) {
    forall i, j :: 0 <= i < j < |entries| ==> entries[i].workspace != entries[j].workspace
  }

  ghost predicate NoRepeats(s: seq<Id>) { forall i, j :: 0 <= i < j < |s| ==> s[i] != s[j] }

  // The rows of a query come in some order, each once.
  method InSomeOrder(ids: set<Id>) returns (rows: seq<Id>)
    ensures NoRepeats(rows) && forall id :: id in rows <==> id in ids
  {
    rows := [];
    var left := ids;
    while left != {}
      invariant left <= ids && NoRepeats(rows)
      invariant forall id :: id in rows <==> id in ids - left
      decreases |left|
    {
      var id :| id in left;
      ghost var before := rows;
      rows := rows + [id];
      left := left - {id};
      assert forall x :: x in rows <==> x in before || x == id;
    }
  }

  class Directory {
    var customers: set<Id>
    var members: map<Id, Member>
    var grants: map<Id, Grant>
    var workspaces: map<Id, Workspace>
    var index: set<IndexRow>
    var tenants: map<Id, Id>

    function View(): Db
      reads this
    {
      Db(customers, members, grants, workspaces, index, tenants)
    }

    constructor ()
      ensures View() == EMPTY
    {
      customers, members, grants, workspaces, index, tenants := {}, map[], map[], map[], {}, map[];
    }

    method CreateCustomerWithOwner(customer: Id, owner: Id, member: Id) returns (refused: Option<Refusal>)
      modifies this
      ensures match Created(old(View()), customer, owner, member)
        case Ok(after) => refused == None && View() == after
        case Err(e) => refused == Some(e) && View() == old(View())
    {
      if customer in customers || member in members || HasMember(View(), customer, owner) || IndexRow(owner, customer) in index {
        return Some(DuplicateKey);
      }
      customers := customers + {customer};
      members := members[member := Member(customer, owner, CustomerOwner)];
      index := index + {IndexRow(owner, customer)};
      return None;
    }

    method InviteCustomerMember(customer: Id, user: Id, role: CustomerRole, member: Id) returns (refused: Option<Refusal>)
      modifies this
      ensures match Invited(old(View()), customer, user, role, member)
        case Ok(after) => refused == None && View() == after
        case Err(e) => refused == Some(e) && View() == old(View())
    {
      if member in members { return Some(DuplicateKey); }
      if customer !in customers { return Some(NotFound); }
      if HasMember(View(), customer, user) { return Some(DuplicateMembership); }
      members := members[member := Member(customer, user, role)];
      if IndexRow(user, customer) !in index {
        index := index + {IndexRow(user, customer)};
      }
      return None;
    }

    method ChangeCustomerMemberRole(member: Id, role: CustomerRole) returns (refused: Option<Refusal>)
      modifies this`members
      ensures match RoleChanged(old(View()), member, role)
        case Ok(after) => refused == None && View() == after
        case Err(e) => refused == Some(e) && View() == old(View())
    {
      if member !in members { return Some(NotFound); }
      var row := members[member];
      if row.role == CustomerOwner && role != CustomerOwner {
        var owners := Owners(View(), row.customer);
        if |owners| <= 1 { return Some(LastOwner); }
      }
      members := members[member := row.(role := role)];
      return None;
    }

    method RemoveCustomerMember(member: Id) returns (refused: Option<Refusal>)
      modifies this`members, this`grants, this`index
      ensures match Removed(old(View()), member)
        case Ok(after) => refused == None && View() == after
        case Err(e) => refused == Some(e) && View() == old(View())
    {
      if member !in members { return Some(NotFound); }
      var row := members[member];
      if row.role == CustomerOwner {
        var owners := Owners(View(), row.customer);
        if |owners| <= 1 { return Some(LastOwner); }
      }
      var orphaned := InSomeOrder(set g | g in grants && grants[g].member == member);
      ghost var before := grants;
      for i := 0 to |orphaned|
        invariant members == old(members) && index == old(index)
        invariant grants == map g | g in before && g !in orphaned[..i] :: before[g]
      {
        grants := grants - {orphaned[i]};
      }
      assert orphaned[..|orphaned|] == orphaned;
      assert grants == map g | g in before && before[g].member != member :: before[g];
      members := members - {member};
      if !HasMember(View(), row.customer, row.user) {
        index := index - {IndexRow(row.user, row.customer)};
      }
      return None;
    }

    method CreateWorkspace(customer: Id, workspace: Id) returns (refused: Option<Refusal>)
      modifies this`workspaces, this`tenants
      ensures match WorkspaceCreated(old(View()), customer, workspace)
        case Ok(after) => refused == None && View() == after
        case Err(e) => refused == Some(e) && View() == old(View())
    {
      if workspace in workspaces || workspace in tenants { return Some(DuplicateKey); }
      workspaces := workspaces[workspace := Workspace(customer, false)];
      tenants := tenants[workspace := customer];
      return None;
    }

    method AddWorkspaceMember(workspace: Id, member: Id, role: WorkspaceRole, grant: Id) returns (refused: Option<Refusal>)
      modifies this`grants
      ensures match WorkspaceMemberAdded(old(View()), workspace, member, role, grant)
        case Ok(after) => refused == None && View() == after
        case Err(e) => refused == Some(e) && View() == old(View())
    {
      if workspace !in workspaces || member !in members { return Some(NotFound); }
      if members[member].customer != workspaces[workspace].customer { return Some(CrossCustomer); }
      if members[member].role == Auditor { return Some(AuditorRole); }
      if grant in grants || HasGrant(View(), member, workspace) { return Some(DuplicateWorkspaceMembership); }
      grants := grants[grant := Grant(workspaces[workspace].customer, member, workspace, role)];
      return None;
    }

    method ChangeWorkspaceMemberRole(grant: Id, role: WorkspaceRole) returns (refused: Option<Refusal>)
      modifies this`grants
      ensures match WorkspaceRoleChanged(old(View()), grant, role)
        case Ok(after) => refused == None && View() == after
        case Err(e) => refused == Some(e) && View() == old(View())
    {
      if grant !in grants { return Some(NotFound); }
      grants := grants[grant := grants[grant].(role := role)];
      return None;
    }

    method RemoveWorkspaceMember(grant: Id) returns (refused: Option<Refusal>)
      modifies this`grants
      ensures match WorkspaceMemberRemoved(old(View()), grant)
        case Ok(after) => refused == None && View() == after
        case Err(e) => refused == Some(e) && View() == old(View())
      ensures refused.None? <==> grant in old(grants)
      ensures grants == old(grants) - {grant}
    {
      if grant !in grants { return Some(NotFound); }
      grants := grants - {grant};
      return None;
    }

    method SetArchived(workspace: Id, archived: bool) returns (refused: Option<Refusal>)
      modifies this`workspaces
      ensures match ArchivedSet(old(View()), workspace, archived)
        case Ok(after) => refused == None && View() == after
        case Err(e) => refused == Some(e) && View() == old(View())
    {
      if workspace !in workspaces { return Some(NotFound); }
      workspaces := workspaces[workspace := workspaces[workspace].(archived := archived)];
      return None;
    }

    // ---------- list_my_workspaces ----------

    method ListAsOwner(user: Id, customer: Id) returns (entries: seq<Entry>)
      requires Good(View()) && CustomerRoleOf(View(), customer, user) == Some(CustomerOwner)
      ensures EachWorkspaceOnce(entries)
      ensures forall e: Entry :: e in entries <==> e.customer == customer && Resolves(View(), user, e)
    {
      var rows := InSomeOrder(set w | w in workspaces && workspaces[w].customer == customer && !workspaces[w].archived);
      entries := [];
      for i := 0 to |rows|
        invariant |entries| == i
        invariant forall j :: 0 <= j < i ==> entries[j] == Entry(customer, rows[j], WorkspaceAdmin)
      {
        entries := entries + [Entry(customer, rows[i], WorkspaceAdmin)];
      }
      forall e: Entry | e in entries
        ensures e.customer == customer && Resolves(View(), user, e)
      {
        assert e.workspace in rows;
        ResolvesIff(View(), user, e.workspace, false, e.role);
      }
      forall e: Entry | e.customer == customer && Resolves(View(), user, e)
        ensures e in entries
      {
        ResolvesIff(View(), user, e.workspace, false, e.role);
        assert e.workspace in rows;
        var j :| 0 <= j < |rows| && rows[j] == e.workspace;
        assert entries[j] == e;
      }
    }

    method ListAsMember(user: Id, customer: Id) returns (entries: seq<Entry>)
      requires Good(View()) && CustomerRoleOf(View(), customer, user) !in {Some(CustomerOwner), Some(Auditor)}
      ensures EachWorkspaceOnce(entries)
      ensures forall e: Entry :: e in entries <==> e.customer == customer && Resolves(View(), user, e)
    {
      var rows := InSomeOrder(set g | g in grants && IsOpenRow(View(), g, customer, user));
      assert forall j :: 0 <= j < |rows| ==> rows[j] in rows;
      entries := [];
      for i := 0 to |rows|
        invariant |entries| == i
        invariant forall j :: 0 <= j < i ==> entries[j] == Entry(customer, grants[rows[j]].workspace, grants[rows[j]].role)
      {
        entries := entries + [Entry(customer, grants[rows[i]].workspace, grants[rows[i]].role)];
      }
      forall e: Entry
        ensures e in entries <==> e.customer == customer && Resolves(View(), user, e)
      {
        MemberEntries(View(), user, customer, e);
        if e.customer == customer && Resolves(View(), user, e) {
          var g :| IsOpenRow(View(), g, customer, user) && e == Entry(customer, View().grants[g].workspace, View().grants[g].role);
          assert g in rows;
          var j :| 0 <= j < |rows| && rows[j] == g;
          assert entries[j] == e;
        }
      }
      forall i, j | 0 <= i < j < |entries|
        ensures entries[i].workspace != entries[j].workspace
      {
        RowUnique(View(), entries[i].workspace, user);
        assert IsOpenRow(View(), rows[i], customer, user) && IsOpenRow(View(), rows[j], customer, user);
      }
    }

    // Each workspace the resolver lets the user into is listed exactly once, in the role it resolves
    // to, and no other is.
    method ListMyWorkspaces(user: Id) returns (entries: seq<Entry>)
      requires Good(View())
      ensures EachWorkspaceOnce(entries)
      ensures forall e: Entry :: e in entries <==> Resolves(View(), user, e)
    {
      var customerIds := InSomeOrder(set row | row in index && row.user == user :: row.customer);
      entries := [];
      for i := 0 to |customerIds|
        invariant EachWorkspaceOnce(entries)
        invariant forall e: Entry :: e in entries <==> e.customer in customerIds[..i] && Resolves(View(), user, e)
      {
        var role := CustomerRoleOf(View(), customerIds[i], user);
        var more := [];
        if role == Some(Auditor) {
          AuditorEntersNothing(View(), user, customerIds[i]);
        } else if role == Some(CustomerOwner) {
          more := ListAsOwner(user, customerIds[i]);
        } else {
          more := ListAsMember(user, customerIds[i]);
        }
        OtherCustomer(View(), user, customerIds[..i], customerIds[i], entries, more);
        entries := entries + more;
      }
      forall e: Entry | Resolves(View(), user, e)
        ensures e.customer in customerIds[..|customerIds|]
      {
        IndexFinds(View(), user, e);
        assert IndexRow(user, e.customer).customer in customerIds;
        assert customerIds[..|customerIds|] == customerIds;
      }
    }

    // ---------- list_workspace_members ----------

    method ListRows(workspace: Id) returns (roster: seq<RosterEntry>)
      requires Good(View()) && workspace in workspaces
      ensures RosterUpTo(View(), workspace, [], roster)
    {
      var rows := InSomeOrder(set g | g in grants && InRoster(View(), g, workspace));
      assert forall j :: 0 <= j < |rows| ==> rows[j] in rows;
      roster := [];
      for i := 0 to |rows|
        invariant |roster| == i && forall j :: 0 <= j < i ==> roster[j] == RowEntry(View(), rows[j])
      {
        roster := roster + [RowEntry(View(), rows[i])];
      }
      RowsListed(View(), workspace, rows, roster);
    }

    // The rows of the workspace, and the owners who have none, as administrators.
    method ListWorkspaceMembers(workspace: Id) returns (roster: seq<RosterEntry>)
      requires Good(View()) && workspace in workspaces
      ensures EachUserOnce(roster)
      ensures forall e: RosterEntry :: e in roster <==> Listed(View(), workspace, e)
    {
      roster := ListRows(workspace);
      RowUsers(View(), workspace, roster);
      var explicitUsers := set e | e in roster :: e.user;
      var owners := InSomeOrder(Owners(View(), workspaces[workspace].customer));
      assert forall j :: 0 <= j < |owners| ==> owners[j] in owners;
      assert owners[..0] == [];
      for i := 0 to |owners|
        invariant RosterUpTo(View(), workspace, owners[..i], roster)
      {
        assert owners[i] in members;
        NextOwner(View(), workspace, owners, i, roster);
        if members[owners[i]].user !in explicitUsers {
          roster := roster + [RosterEntry(None, members[owners[i]].user, WorkspaceAdmin)];
        }
      }
      assert owners[..|owners|] == owners;
      AllOwnersDone(View(), workspace, owners, roster);
    }
  }

  datatype RosterEntry = RosterEntry(grant: Option<Id>, user: Id, role: WorkspaceRole)

  ghost predicate EachUserOnce(roster: seq<RosterEntry>) {
    forall i, j :: 0 <= i < j < |roster| ==> roster[i].user != roster[j].user
  }

  predicate InRoster(db: Db, g: Id, workspace: Id) {
    g in db.grants && db.grants[g].workspace == workspace && db.grants[g].member in db.members
  }

  function RowEntry(db: Db, g: Id): RosterEntry
    requires g in db.grants && db.grants[g].member in db.members
  {
    RosterEntry(Some(g), db.members[db.grants[g].member].user, db.grants[g].role)
  }

  predicate HasRow(db: Db, workspace: Id, user: Id) { exists g :: g in db.grants && IsRow(db, g, workspace, user) }

  ghost predicate Listed(db: Db, workspace: Id, e: RosterEntry)
    requires workspace in db.workspaces
  {
    match e.grant
    case Some(g) => InRoster(db, g, workspace) && e == RowEntry(db, g)
    case None =>
      && e.role == WorkspaceAdmin && !HasRow(db, workspace, e.user)
      && exists m :: m in Owners(db, db.workspaces[workspace].customer) && db.members[m].user == e.user
  }

  // The listing with the given owners looked at.
  ghost predicate RosterUpTo(db: Db, workspace: Id, owners: seq<Id>, roster: seq<RosterEntry>)
    requires workspace in db.workspaces
  {
    && EachUserOnce(roster)
    && forall e: RosterEntry :: e in roster <==>
         Listed(db, workspace, e) && (e.grant.Some? || exists m :: m in owners && m in db.members && db.members[m].user == e.user)
  }

  lemma RowsListed(db: Db, workspace: Id, rows: seq<Id>, roster: seq<RosterEntry>)
    requires Good(db) && workspace in db.workspaces
    requires NoRepeats(rows) && forall g :: g in rows <==> InRoster(db, g, workspace)
    requires |roster| == |rows| && forall j :: 0 <= j < |rows| ==> InRoster(db, rows[j], workspace) && roster[j] == RowEntry(db, rows[j])
    ensures RosterUpTo(db, workspace, [], roster)
  {
    forall e: RosterEntry
      ensures e in roster <==> e.grant.Some? && Listed(db, workspace, e)
    {
      if e.grant.Some? && Listed(db, workspace, e) {
        var j :| 0 <= j < |rows| && rows[j] == e.grant.value;
        assert roster[j] == e;
      }
    }
    forall i, j | 0 <= i < j < |roster|
      ensures roster[i].user != roster[j].user
    {
      RowUnique(db, workspace, roster[i].user);
      assert IsRow(db, rows[i], workspace, roster[i].user) && IsRow(db, rows[j], workspace, roster[j].user);
    }
  }

  lemma RowUsers(db: Db, workspace: Id, roster: seq<RosterEntry>)
    requires Good(db) && workspace in db.workspaces && RosterUpTo(db, workspace, [], roster)
    ensures forall user :: user in (set e | e in roster :: e.user) <==> HasRow(db, workspace, user)
  {
    forall user
      ensures user in (set e | e in roster :: e.user) <==> HasRow(db, workspace, user)
    {
      if HasRow(db, workspace, user) {
        var g :| g in db.grants && IsRow(db, g, workspace, user);
        assert Listed(db, workspace, RowEntry(db, g));
        assert RowEntry(db, g) in roster;
      }
    }
  }

  lemma NextOwner(db: Db, workspace: Id, owners: seq<Id>, i: nat, roster: seq<RosterEntry>)
    requires Good(db) && workspace in db.workspaces && i < |owners| && NoRepeats(owners)
    requires forall m :: m in owners ==> m in Owners(db, db.workspaces[workspace].customer)
    requires RosterUpTo(db, workspace, owners[..i], roster) && owners[i] in db.members
    ensures var user := db.members[owners[i]].user;
      RosterUpTo(db, workspace, owners[..i + 1],
                 if HasRow(db, workspace, user) then roster else roster + [RosterEntry(None, user, WorkspaceAdmin)])
  {
    var user := db.members[owners[i]].user;
    assert owners[..i + 1] == owners[..i] + [owners[i]];
    if !HasRow(db, workspace, user) {
      var e := RosterEntry(None, user, WorkspaceAdmin);
      assert owners[i] in owners && owners[i] in Owners(db, db.workspaces[workspace].customer);
      assert Listed(db, workspace, e);
      assert owners[i] in owners[..i + 1];
      forall j | 0 <= j < |roster|
        ensures roster[j].user != user
      {
        NotYetListed(db, workspace, owners, i, roster, j);
      }
    }
  }

  lemma NotYetListed(db: Db, workspace: Id, owners: seq<Id>, i: nat, roster: seq<RosterEntry>, j: nat)
    requires Good(db) && workspace in db.workspaces && i < |owners| && NoRepeats(owners) && j < |roster|
    requires forall m :: m in owners ==> m in Owners(db, db.workspaces[workspace].customer)
    requires RosterUpTo(db, workspace, owners[..i], roster) && owners[i] in db.members
    requires !HasRow(db, workspace, db.members[owners[i]].user)
    ensures roster[j].user != db.members[owners[i]].user
  {
    var e := roster[j];
    assert e in roster;
    match e.grant
    case Some(g) => assert IsRow(db, g, workspace, e.user);
    case None =>
      var m :| m in owners[..i] && m in db.members && db.members[m].user == e.user;
      assert m in owners && m != owners[i] && owners[i] in owners;
      assert m in Owners(db, db.workspaces[workspace].customer) && owners[i] in Owners(db, db.workspaces[workspace].customer);
  }

  lemma AllOwnersDone(db: Db, workspace: Id, owners: seq<Id>, roster: seq<RosterEntry>)
    requires Good(db) && workspace in db.workspaces && RosterUpTo(db, workspace, owners, roster)
    requires forall m :: m in Owners(db, db.workspaces[workspace].customer) ==> m in owners
    ensures forall e: RosterEntry :: e in roster <==> Listed(db, workspace, e)
  {
  }

  // Whoever the resolver lets in is on the roster.
  lemma EntrantsAreListed(db: Db, workspace: Id, user: Id)
    requires Good(db) && GetWorkspaceContext(db, user, workspace, true).Ok?
    ensures exists e: RosterEntry :: Listed(db, workspace, e) && e.user == user
  {
    var role := GetWorkspaceContext(db, user, workspace, true).value.role;
    ResolvesIff(db, user, workspace, true, role);
    if HasRow(db, workspace, user) {
      var g :| g in db.grants && IsRow(db, g, workspace, user);
      var e := RowEntry(db, g);
      assert Listed(db, workspace, e) && e.user == user;
    } else {
      var customer := db.workspaces[workspace].customer;
      assert CustomerRoleOf(db, customer, user) == Some(CustomerOwner);
      var m :| m in db.members && db.members[m].customer == customer && db.members[m].user == user;
      assert m in Owners(db, customer);
      var e := RosterEntry(None, user, WorkspaceAdmin);
      assert Listed(db, workspace, e) && e.user == user;
    }
  }

  // The roster shows rows as they are stored, so it differs from the resolver for auditors with a stale
  // row and for owners with a plain member's row, and for nobody else.
  lemma RosterAgreesIff(db: Db, workspace: Id, e: RosterEntry)
    requires Good(db) && workspace in db.workspaces && Listed(db, workspace, e)
    ensures var customer := db.workspaces[workspace].customer;
      var customerRole := CustomerRoleOf(db, customer, e.user);
      GetWorkspaceContext(db, e.user, workspace, true) == Ok(WorkspaceContext(customer, workspace, e.user, e.role)) <==>
        customerRole != Some(Auditor) && (customerRole == Some(CustomerOwner) ==> e.role == WorkspaceAdmin)
  {
    var customer := db.workspaces[workspace].customer;
    ResolvesIff(db, e.user, workspace, true, e.role);
    match e.grant
    case Some(g) =>
      assert IsRow(db, g, workspace, e.user) && Attached(db, db.grants[g]);
      assert HasMember(db, customer, e.user);
    case None =>
      var m :| m in Owners(db, customer) && db.members[m].user == e.user;
      assert CustomerRoleOf(db, customer, e.user) == Some(CustomerOwner);
  }

  // The join of list_my_workspaces.
  predicate IsOpenRow(db: Db, g: Id, customer: Id, user: Id) {
    && g in db.grants && db.grants[g].member in db.members && db.grants[g].workspace in db.workspaces
    && db.members[db.grants[g].member].customer == customer && db.members[db.grants[g].member].user == user
    && !db.workspaces[db.grants[g].workspace].archived
  }

  lemma MemberEntries(db: Db, user: Id, customer: Id, e: Entry)
    requires Good(db) && CustomerRoleOf(db, customer, user) !in {Some(CustomerOwner), Some(Auditor)}
    ensures e.customer == customer && Resolves(db, user, e) <==>
      exists g :: IsOpenRow(db, g, customer, user) && e == Entry(customer, db.grants[g].workspace, db.grants[g].role)
  {
    if e.workspace in db.workspaces { ResolvesIff(db, user, e.workspace, false, e.role); }
    forall g | g in db.grants
      ensures Attached(db, db.grants[g])
    {
    }
  }

  lemma AuditorEntersNothing(db: Db, user: Id, customer: Id)
    requires Good(db) && CustomerRoleOf(db, customer, user) == Some(Auditor)
    ensures forall e: Entry :: e.customer == customer ==> !Resolves(db, user, e)
  {
    forall e: Entry | e.customer == customer
      ensures !Resolves(db, user, e)
    {
      if e.workspace in db.workspaces { ResolvesIff(db, user, e.workspace, false, e.role); }
    }
  }

  lemma EntryOfItsCustomer(db: Db, user: Id, e: Entry)
    requires Good(db) && Resolves(db, user, e)
    ensures e.workspace in db.workspaces && db.workspaces[e.workspace].customer == e.customer
  {
  }

  // A workspace belongs to one customer, so the parts of the listing do not overlap.
  lemma OtherCustomer(db: Db, user: Id, done: seq<Id>, customer: Id, entries: seq<Entry>, more: seq<Entry>)
    requires Good(db) && customer !in done && EachWorkspaceOnce(entries) && EachWorkspaceOnce(more)
    requires forall e :: e in entries ==> e.customer in done && Resolves(db, user, e)
    requires forall e :: e in more ==> e.customer == customer && Resolves(db, user, e)
    ensures EachWorkspaceOnce(entries + more)
  {
    forall i, j | 0 <= i < j < |entries + more|
      ensures (entries + more)[i].workspace != (entries + more)[j].workspace
    {
      var n := |entries|;
      if i < n <= j {
        assert entries[i] in entries && more[j - n] in more;
        EntryOfItsCustomer(db, user, entries[i]);
        EntryOfItsCustomer(db, user, more[j - n]);
      }
    }
  }

  lemma IndexFinds(db: Db, user: Id, e: Entry)
    requires Good(db) && Resolves(db, user, e)
    ensures IndexRow(user, e.customer) in db.index
  {
    ResolvesIff(db, user, e.workspace, false, e.role);
    assert HasMember(db, e.customer, user);
  }
}
