/**
  The store as the program holds it: tables that the repository's methods
  change in place (internal/store/repositories/orgs.go and invitations.go). Each
  method is one transaction, written in the order of its statements with the
  rollback spelled out, and proved to do exactly what OrgStore.Apply says.
 */
module OrgDb {
  import opened Authz
  import opened OrgStore

  class Tables {
    var orgs: map<Id, Org>
    var accounts: map<Id, Account>
    var members: map<Id, Member>
    var roles: map<Id, Role>
    var invitations: map<Id, Invitation>

    function View(): Store
      reads this
    {
      Store(orgs, accounts, members, roles, invitations)
    }

    constructor (s: Store)
      ensures View() == s
    {
      orgs, accounts, members, roles, invitations := s.orgs, s.accounts, s.members, s.roles, s.invitations;
    }

    // applyOwnerGuard
    method ApplyOwnerGuard(o: Id, m: Id, losing: bool) returns (refusal: Option<OrgError>)
      ensures refusal == Guarded(View(), o, m, losing)
    {
      if !OrgLive(View(), o) { return Some(ErrNotFound); }
      var state := OwnerStateOf(View(), o, m);
      if !losing || !state.subjectHoldsOwner { return None; }
      if state.owners <= 1 { return Some(ErrLastOwner); }
      return None;
    }

    // ownedRoleIDs: every id once, and the count of those the organization owns.
    method OwnedRoleIDs(o: Id, ids: seq<Id>) returns (unique: set<Id>, ok: bool)
      ensures unique == IdsOf(ids)
      ensures ok <==> RolesOwned(View(), o, unique)
    {
      unique := {};
      for i := 0 to |ids|
        invariant unique == IdsOf(ids[..i])
      {
        unique := unique + {ids[i]};
        assert ids[..i + 1] == ids[..i] + [ids[i]];
      }
      assert ids[..|ids|] == ids;
      var owned := set r | r in unique && IsRole(View(), o, r);
      ok := |owned| == |unique|;
      SameSize(owned, unique);
    }

    method SetMemberStatus(o: Id, m: Id, status: Status, losing: bool) returns (answer: Answer)
      modifies this
      ensures (View(), answer) == Apply(old(View()), SetStatus(o, m, status, losing))
    {
      var refusal := ApplyOwnerGuard(o, m, losing);
      if refusal.Some? { return Err(refusal.value); }
      if m !in members || members[m].org != o { return Err(ErrNotFound); }
      members := members[m := members[m].(status := status)];
      return Done;
    }

    method RemoveMember(o: Id, m: Id, losing: bool) returns (answer: Answer)
      modifies this
      ensures (View(), answer) == Apply(old(View()), Remove(o, m, losing))
    {
      var refusal := ApplyOwnerGuard(o, m, losing);
      if refusal.Some? { return Err(refusal.value); }
      if m !in members || members[m].org != o { return Err(ErrNotFound); }
      members := members - {m};
      return Done;
    }

    // The old assignments go first; a role that is not this organization's rolls
    // the whole change back.
    method ReplaceMemberRoles(o: Id, m: Id, ids: seq<Id>, losing: bool) returns (answer: Answer)
      modifies this
      ensures (View(), answer) == Apply(old(View()), ReplaceRoles(o, m, IdsOf(ids), losing))
    {
      var before := members;
      var refusal := ApplyOwnerGuard(o, m, losing);
      if refusal.Some? { return Err(refusal.value); }
      if m !in members || members[m].org != o { return Err(ErrNotFound); }
      members := members[m := members[m].(roles := {})];
      var unique, ok := OwnedRoleIDs(o, ids);
      if !ok {
        members := before;
        return Err(ErrNotFound);
      }
      members := members[m := members[m].(roles := unique)];
      assert members == before[m := before[m].(roles := unique)];
      return Done;
    }

    method AddMember(o: Id, user: Id, ids: seq<Id>, id: Id) returns (answer: Answer)
      modifies this
      ensures (View(), answer) == Apply(old(View()), OrgStore.AddMember(o, user, IdsOf(ids), id, false))
    {
      var unique, ok := OwnedRoleIDs(o, ids);
      if Joined(View(), o, user) { return Err(ErrAlreadyMember); }
      if user !in accounts || o !in orgs || !ok { return Err(ErrNotFound); }
      if id in members { return Err(ErrStore); }
      members := members[id := Member(o, user, Active, unique)];
      return if AccountLive(View(), user) then Done else Err(ErrNotFound);
    }

    // The shipped roles, materialised one after another.
    method MaterialiseRoles(o: Id, ids: ShippedIds) returns (made: map<Id, Role>)
      ensures made == ShippedRows(o, ids)
    {
      var todo := [ids.owner, ids.admin, ids.member, ids.viewer];
      made := map[];
      for i := 0 to |todo|
        invariant made.Keys == IdsOf(todo[..i])
        invariant forall r :: r in made ==> made[r] == Shipped(o, DefinitionFor(ids, r))
      {
        assert todo[..i + 1] == todo[..i] + [todo[i]];
        made := made[todo[i] := Shipped(o, DefinitionFor(ids, todo[i]))];
      }
      assert todo[..|todo|] == todo && IdsOf(todo) == IdSet(ids);
    }

    method CreateOrganization(o: Id, slug: string, protected: bool, ids: ShippedIds) returns (answer: Answer)
      modifies this
      ensures (View(), answer) == Apply(old(View()), CreateOrg(o, slug, protected, ids))
    {
      if o in orgs || !AllDiffer(ids) || IdSet(ids) * roles.Keys != {} { return Err(ErrStore); }
      if Slugged(View(), slug) != {} { return Err(ErrSlugTaken); }
      orgs := orgs[o := Org(slug, true, protected)];
      var made := MaterialiseRoles(o, ids);
      roles := roles + made;
      return Done;
    }

    method CreateRole(o: Id, key: string, perms: seq<Permission>, id: Id) returns (answer: Answer)
      modifies this
      ensures (View(), answer) == Apply(old(View()), OrgStore.CreateRole(o, key, perms, id))
    {
      if !ValidRoleKey(key) || o !in orgs || id in roles { return Err(ErrStore); }
      if RolesNamed(View(), o, key) != {} { return Err(ErrRoleKeyTaken); }
      roles := roles[id := Role(o, key, false, perms)];
      return Done;
    }

    method ReplaceRolePermissions(o: Id, r: Id, perms: seq<Permission>) returns (answer: Answer)
      modifies this
      ensures (View(), answer) == Apply(old(View()), ReplacePerms(o, r, perms))
    {
      if !IsRole(View(), o, r) { return Err(ErrNotFound); }
      roles := roles[r := roles[r].(perms := [])];
      roles := roles[r := roles[r].(perms := perms)];
      assert roles == old(roles)[r := old(roles)[r].(perms := perms)];
      return Done;
    }

    // The cascade runs through the invitations one row at a time.
    method DeleteRole(o: Id, r: Id) returns (answer: Answer)
      modifies this
      ensures (View(), answer) == Apply(old(View()), OrgStore.DeleteRole(o, r))
    {
      if !OrgLive(View(), o) || !IsRole(View(), o, r) { return Err(ErrNotFound); }
      if roles[r].shipped { return Err(ErrRoleProtected); }
      if |Holders(View(), r)| > 0 { return Err(ErrRoleInUse); }
      var before := View();
      roles := roles - {r};
      var todo := invitations.Keys;
      while todo != {}
        invariant todo <= invitations.Keys == before.invitations.Keys
        invariant View() == before.(roles := before.roles - {r}, invitations := invitations)
        invariant forall i :: i in invitations ==>
          invitations[i] == if i in todo then before.invitations[i] else Forget(before.invitations, r)[i]
        decreases todo
      {
        var i :| i in todo;
        invitations := invitations[i := invitations[i].(roles := invitations[i].roles - {r})];
        todo := todo - {i};
      }
      assert invitations == Forget(before.invitations, r);
      return Done;
    }

    method InviteMember(o: Id, email: string, h: TokenHash, ids: seq<Id>, expires: int, id: Id) returns (answer: Answer)
      modifies this
      ensures (View(), answer) == Apply(old(View()), OrgStore.InviteMember(o, email, h, IdsOf(ids), expires, id))
    {
      if AddressJoined(View(), o, email) { return Err(ErrAlreadyMember); }
      if AddressInvited(View(), o, email) || HashTaken(View(), h) { return Err(ErrAlreadyMember); }
      if o !in orgs || id in invitations { return Err(ErrStore); }
      var before := invitations;
      invitations := invitations[id := Invitation(o, email, h, expires, false, {})];
      var unique, ok := OwnedRoleIDs(o, ids);
      if !ok {
        invitations := before;
        return Err(ErrNotFound);
      }
      invitations := invitations[id := invitations[id].(roles := unique)];
      assert invitations == before[id := Invitation(o, email, h, expires, false, unique)];
      return if OrgLive(View(), o) then Done else Err(ErrNotFound);
    }

    method ReissueInvitation(o: Id, i: Id, h: TokenHash, expires: int) returns (answer: Answer)
      modifies this
      ensures (View(), answer) == Apply(old(View()), Reissue(o, i, h, expires))
    {
      if !Open(View(), o, i) { return Err(ErrNotFound); }
      if exists j :: j in invitations && j != i && invitations[j].hash == h { return Err(ErrRoleKeyTaken); }
      invitations := invitations[i := invitations[i].(hash := h, expires := expires)];
      return if OrgLive(View(), o) then Done else Err(ErrNotFound);
    }

    method WithdrawInvitation(o: Id, i: Id) returns (answer: Answer)
      modifies this
      ensures (View(), answer) == Apply(old(View()), Withdraw(o, i))
    {
      if !Open(View(), o, i) { return Err(ErrNotFound); }
      invitations := invitations - {i};
      return Done;
    }

    method DeclineInvitation(i: Id) returns (answer: Answer)
      modifies this
      ensures (View(), answer) == Apply(old(View()), Decline(i))
    {
      if i !in invitations || invitations[i].accepted { return Err(ErrNotFound); }
      invitations := invitations - {i};
      return Done;
    }

    method AcceptInvitation(i: Id, user: Id, email: string, id: Id) returns (answer: Answer)
      modifies this
      ensures (View(), answer) == Apply(old(View()), Accept(i, user, email, id))
    {
      if i !in invitations || invitations[i].accepted { return Err(ErrNotFound); }
      var inv := invitations[i];
      if !OrgLive(View(), inv.org) { return Err(ErrNotFound); }
      if Joined(View(), inv.org, user) { return Err(ErrAlreadyMember); }
      if user !in accounts || id in members { return Err(ErrStore); }
      if !RolesOwned(View(), inv.org, inv.roles) { return Err(ErrNotFound); }
      members := members[id := Member(inv.org, user, Active, inv.roles)];
      invitations := invitations[i := inv.(accepted := true)];
      return Done;
    }
  }

  lemma {:induction false} SameSize(part: set<Id>, whole: set<Id>)
    requires part <= whole
    ensures |part| == |whole| <==> part == whole
  {
    assert |whole - part| == |whole| - |part|;
  }
}
