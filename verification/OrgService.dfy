/**
  The service methods of internal/domain/orgs over the tables: each is proved to
  be the call of OrgCalls run alone, so what those calls keep over every
  interleaving is kept by these methods.
 */
module OrgService {
  import opened Authz
  import opened OrgStore
  import opened OrgCalls
  import OrgDb
  import opened OrgBatch
  import OrgJoin
  import Address
  import Sorting

  // ----------------------------------------------- calls alone, in one line each

  // ensureCanAffectMember
  function Rank(s: Store, g: Grant, m: Id): Option<OrgError>
    requires m in s.members
  {
    if Self(g, s.members[m].user) || CanAffect(g, MemberPerms(s, g.org, m)) then None
        else Some(Denied(ErrInsufficientRank))
  }

  lemma {:induction false} AloneStatus(s: Store, g: Grant, m: Id, status: Status)
    ensures Alone(s, StatusA(g, m, status), 0, NIL, 0)
            == if status != Active && status != Suspended then (s, Err(ErrInvalidStatus))
               else if !IsMember(s, g.org, m) then (s, Err(ErrNotFound))
               else match Rank(s, g, m)
                 case Some(e) => (s, Err(e))
                 case None => Apply(s, SetStatus(g.org, m, status, status != Active))
  {
    AloneNext(s, StatusA(g, m, status), 0, NIL, 0);
    AloneNext(s, StatusB(g, m, status), 0, NIL, 0);
    AloneReady(s, SetStatus(g.org, m, status, status != Active), 0, NIL, 0);
  }

  lemma {:induction false} AloneRemove(s: Store, g: Grant, m: Id)
    ensures Alone(s, RemoveA(g, m), 0, NIL, 0)
            == if IsMember(s, g.org, m) && Rank(s, g, m).Some? then (s, Err(Rank(s, g, m).value))
               else Apply(s, Remove(g.org, m, true))
  {
    AloneNext(s, RemoveA(g, m), 0, NIL, 0);
    AloneNext(s, RemoveB(g, m), 0, NIL, 0);
    AloneReady(s, Remove(g.org, m, true), 0, NIL, 0);
  }

  lemma {:induction false} AloneSetRoles(s: Store, g: Grant, m: Id, ids: seq<Id>)
    ensures Alone(s, RolesA(g, m, ids), 0, NIL, 0)
            == if !IsMember(s, g.org, m) then (s, Err(ErrNotFound))
               else match Rank(s, g, m)
                 case Some(e) => (s, Err(e))
                 case None => Alone(s, RolesC(g, m, ids, 0), 0, NIL, 0)
  {
    AloneNext(s, RolesA(g, m, ids), 0, NIL, 0);
    AloneNext(s, RolesB(g, m, ids), 0, NIL, 0);
  }

  // JoinDefaultOrganization by itself is the joining function.
  lemma {:induction false} AloneJoin(s: Store, o: Id, user: Id, email: string, now: int, id: Id)
    ensures Alone(s, JoinA(o, user, email), now, id, 0) == OrgJoin.Join(s, o, user, email, now, id)
  {
    AloneNext(s, JoinA(o, user, email), now, id, 0);
    if !OrgJoin.Belongs(s, o, user) { AloneJoinB(s, o, user, email, now, id); }
  }

  lemma {:induction false} AloneJoinB(s: Store, o: Id, user: Id, email: string, now: int, id: Id)
    ensures Alone(s, JoinB(o, user, email), now, id, 0)
            == if OrgJoin.OfferUnreadable(s, email, now) then (s, Err(ErrNotFound))
               else if OrgJoin.OfferedHere(s, o, email, now) then (s, Done)
               else if RolesNamed(s, o, OrgJoin.MEMBER) == {} then (s, Err(ErrNotFound))
               else Apply(s, AddMember(o, user, RolesNamed(s, o, OrgJoin.MEMBER), id, true))
  {
    AloneNext(s, JoinB(o, user, email), now, id, 0);
    if !OrgJoin.OfferUnreadable(s, email, now) && !OrgJoin.OfferedHere(s, o, email, now) {
      AloneJoinC(s, o, user, now, id);
    }
  }

  lemma {:induction false} AloneJoinC(s: Store, o: Id, user: Id, now: int, id: Id)
    ensures Alone(s, JoinC(o, user), now, id, 0)
            == if RolesNamed(s, o, OrgJoin.MEMBER) == {} then (s, Err(ErrNotFound))
               else Apply(s, AddMember(o, user, RolesNamed(s, o, OrgJoin.MEMBER), id, true))
  {
    AloneNext(s, JoinC(o, user), now, id, 0);
    AloneReady(s, AddMember(o, user, RolesNamed(s, o, OrgJoin.MEMBER), NIL, true), now, id, 0);
  }

  // ---------------------------------------------------------------- the service

  class Service {
    const db: OrgDb.Tables

    constructor (tables: OrgDb.Tables)
      ensures db == tables
    {
      db := tables;
    }

    // MemberPermissions: one row per key, in the query's order.
    method MemberPermissions(o: Id, m: Id) returns (perms: seq<Permission>)
      ensures (set p | p in perms) == MemberPerms(db.View(), o, m)
    {
      perms := [];
      var todo := MemberPerms(db.View(), o, m);
      while todo != {}
        invariant (set p | p in perms) + todo == MemberPerms(db.View(), o, m)
        decreases todo
      {
        var p :| p in todo;
        perms, todo := perms + [p], todo - {p};
      }
    }

    method EnsureCanAffectMember(g: Grant, m: Id) returns (refusal: Option<OrgError>)
      requires m in db.members
      ensures refusal == Rank(db.View(), g, m)
    {
      if db.members[m].user != NIL && db.members[m].user == g.actor { return None; }
      var perms := MemberPermissions(g.org, m);
      var err := EnsureCanAffect(g, perms);
      if err.Some? { return Some(Denied(err.value)); }
      return None;
    }

    method EnsureRolesAreGrantable(g: Grant, ids: seq<Id>) returns (refusal: Option<OrgError>)
      ensures refusal == Assignable(db.View(), g, ids)
    {
      assert ids[0..] == ids;
      for i := 0 to |ids|
        invariant Assignable(db.View(), g, ids) == Assignable(db.View(), g, ids[i..])
      {
        assert ids[i..][0] == ids[i] && ids[i..][1..] == ids[i + 1..];
        if !IsRole(db.View(), g.org, ids[i]) { return Some(ErrNotFound); }
        var err := EnsureCanGrant(g, ReadPerms(db.roles[ids[i]]));
        if err.Some? { return Some(Denied(err.value)); }
      }
      return None;
    }

    method SetMemberStatus(g: Grant, m: Id, status: Status) returns (answer: Answer)
      modifies db
      ensures (db.View(), answer) == Alone(old(db.View()), StatusA(g, m, status), 0, NIL, 0)
    {
      AloneStatus(db.View(), g, m, status);
      if status != Active && status != Suspended { return Err(ErrInvalidStatus); }
      if !IsMember(db.View(), g.org, m) { return Err(ErrNotFound); }
      var refusal := EnsureCanAffectMember(g, m);
      if refusal.Some? { return Err(refusal.value); }
      answer := db.SetMemberStatus(g.org, m, status, status != Active);
    }

    // A membership whose account is gone is not a member, and is still removable.
    method RemoveMember(g: Grant, m: Id) returns (answer: Answer)
      modifies db
      ensures (db.View(), answer) == Alone(old(db.View()), RemoveA(g, m), 0, NIL, 0)
    {
      AloneRemove(db.View(), g, m);
      if IsMember(db.View(), g.org, m) {
        var refusal := EnsureCanAffectMember(g, m);
        if refusal.Some? { return Err(refusal.value); }
      }
      answer := db.RemoveMember(g.org, m, true);
    }

    method ReplacingDropsOwner(o: Id, ids: seq<Id>) returns (drops: bool)
      ensures drops == DropsOwner(db.View(), o, IdsOf(ids))
    {
      var owner := RolesNamed(db.View(), o, OWNER);
      if owner == {} { return false; }
      drops := forall r :: r in owner ==> r !in ids;
      assert drops <==> forall r :: r in owner ==> r !in owner * IdsOf(ids);
    }

    method SetMemberRoles(g: Grant, m: Id, ids: seq<Id>) returns (answer: Answer)
      modifies db
      ensures (db.View(), answer) == Alone(old(db.View()), RolesA(g, m, ids), 0, NIL, 0)
    {
      AloneSetRoles(db.View(), g, m, ids);
      AloneRoles(db.View(), g, m, ids, 0, 0, NIL, 0);
      assert ids[0..] == ids;
      if !IsMember(db.View(), g.org, m) { return Err(ErrNotFound); }
      var refusal := EnsureCanAffectMember(g, m);
      if refusal.Some? { return Err(refusal.value); }
      refusal := EnsureRolesAreGrantable(g, ids);
      if refusal.Some? { return Err(refusal.value); }
      var losing := ReplacingDropsOwner(g.org, ids);
      answer := db.ReplaceMemberRoles(g.org, m, ids, losing);
    }

    // ensureOrganizationScoped
    method EnsureOrganizationScoped(perms: seq<Permission>) returns (err: Option<Error>)
      ensures err == Scoped(perms)
    {
      for i := 0 to |perms|
        invariant Scoped(perms) == Scoped(perms[i..])
      {
        if !Known(perms[i]) { return Some(ErrUnknownPermission); }
        if ScopeOf(perms[i]) != OrganizationScope { return Some(ErrWrongScope); }
      }
      return None;
    }

    method DedupePermissions(perms: seq<Permission>) returns (out: seq<Permission>)
      ensures out == Dedupe(perms)
    {
      out := [];
      for i := 0 to |perms|
        invariant out == Dedupe(perms[..i])
      {
        assert perms[..i + 1][..i] == perms[..i];
        if perms[i] !in out { out := out + [perms[i]]; }
      }
      assert perms[..|perms|] == perms;
    }

    method CreateRole(g: Grant, key: string, perms: seq<Permission>, id: Id) returns (answer: Answer)
      modifies db
      ensures (db.View(), answer) == Alone(old(db.View()), CreateA(g, key, perms), 0, id, 0)
    {
      AloneNext(db.View(), CreateA(g, key, perms), 0, id, 0);
      AloneReady(db.View(), OrgStore.CreateRole(g.org, Address.Trim(key), Dedupe(perms), NIL), 0, id, 0);
      var err := EnsureOrganizationScoped(perms);
      if err.Some? { return Err(Denied(err.value)); }
      err := EnsureCanGrant(g, perms);
      if err.Some? { return Err(Denied(err.value)); }
      var clean := DedupePermissions(perms);
      answer := db.CreateRole(g.org, Address.Trim(key), clean, id);
    }

    method SetRolePermissions(g: Grant, r: Id, perms: seq<Permission>) returns (answer: Answer)
      modifies db
      ensures (db.View(), answer) == Alone(old(db.View()), PermsA(g, r, perms), 0, NIL, 0)
    {
      AloneNext(db.View(), PermsA(g, r, perms), 0, NIL, 0);
      AloneReady(db.View(), ReplacePerms(g.org, r, Dedupe(perms)), 0, NIL, 0);
      if !IsRole(db.View(), g.org, r) { return Err(ErrNotFound); }
      if db.roles[r].shipped { return Err(ErrRoleProtected); }
      var err := EnsureOrganizationScoped(perms);
      if err.Some? { return Err(Denied(err.value)); }
      err := EnsureCanGrant(g, perms);
      if err.Some? { return Err(Denied(err.value)); }
      var clean := DedupePermissions(perms);
      answer := db.ReplaceRolePermissions(g.org, r, clean);
    }

    method DeleteRole(g: Grant, r: Id) returns (answer: Answer)
      modifies db
      ensures (db.View(), answer) == Alone(old(db.View()), DeleteA(g, r), 0, NIL, 0)
    {
      AloneNext(db.View(), DeleteA(g, r), 0, NIL, 0);
      AloneReady(db.View(), OrgStore.DeleteRole(g.org, r), 0, NIL, 0);
      if !IsRole(db.View(), g.org, r) { return Err(ErrNotFound); }
      if db.roles[r].shipped { return Err(ErrRoleProtected); }
      answer := db.DeleteRole(g.org, r);
    }

    method Invite(g: Grant, email: string, ids: seq<Id>, now: int, id: Id, token: Token) returns (answer: Answer)
      modifies db
      ensures (db.View(), answer) == Alone(old(db.View()), InviteA(g, email, ids, 0), now, id, token)
    {
      AloneInvite(db.View(), g, email, ids, 0, now, id, token);
      assert ids[0..] == ids;
      if Address.Normalize(email) == "" { return Err(ErrInvalidEmail); }
      var refusal := EnsureRolesAreGrantable(g, ids);
      if refusal.Some? { return Err(refusal.value); }
      answer := db.InviteMember(g.org, Address.Normalize(email), Sha256(token), ids, now + INVITATION_TTL, id);
    }

    // The two lookups of pendingInvitation. First() picks a row; the unique index
    // on the hash leaves it one to pick.
    method PendingInvitation(tk: Token, now: int) returns (found: Option<Id>, unfit: OrgError)
      requires Unique(db.View())
      ensures found == Lookup(db.View(), tk, Some(now))
      ensures found.None? ==> unfit == Unfit(db.View(), Lookup(db.View(), tk, None), now)
    {
      found := InvitationByToken(tk, Some(now));
      unfit := ErrNotFound;
      if found.None? {
        var expired := InvitationByToken(tk, None);
        if expired.Some? && db.invitations[expired.value].expires < now { unfit := ErrInvitationExpired; }
      }
    }

    method InvitationByToken(tk: Token, now: Option<int>) returns (found: Option<Id>)
      requires Unique(db.View())
      ensures found == Lookup(db.View(), tk, now)
    {
      var rows := set i | i in db.invitations && Found(db.View(), tk, now, i);
      assert forall i :: Found(db.View(), tk, now, i) <==> i in rows;
      if rows == {} { return None; }
      var i :| i in rows;
      return Some(i);
    }

    method AcceptInvitation(user: Id, email: string, tk: Token, now: int, id: Id) returns (answer: Answer)
      requires Unique(db.View())
      modifies db
      ensures (db.View(), answer) == Alone(old(db.View()), AcceptA(user, email, tk), now, id, 0)
    {
      AloneAccept(db.View(), user, email, tk, now, id, 0);
      var found, unfit := PendingInvitation(tk, now);
      if found.None? { return Err(unfit); }
      if db.invitations[found.value].email != Address.Normalize(email) { return Err(ErrAddressMismatch); }
      answer := db.AcceptInvitation(found.value, user, email, id);
    }

    method DeclineInvitation(tk: Token, now: int) returns (answer: Answer)
      requires Unique(db.View())
      modifies db
      ensures (db.View(), answer) == Alone(old(db.View()), DeclineA(tk), now, NIL, 0)
    {
      AloneNext(db.View(), DeclineA(tk), now, NIL, 0);
      AloneNext(db.View(), AcceptB(tk, now), now, NIL, 0);
      var found, unfit := PendingInvitation(tk, now);
      if found.None? { return Err(unfit); }
      AloneReady(db.View(), Decline(found.value), now, NIL, 0);
      answer := db.DeclineInvitation(found.value);
    }

    method Reissue(g: Grant, i: Id, now: int, token: Token) returns (answer: Answer)
      modifies db
      ensures (db.View(), answer) == Alone(old(db.View()), ReissueA(g, i), now, NIL, token)
    {
      AloneNext(db.View(), ReissueA(g, i), now, NIL, token);
      AloneReady(db.View(), OrgStore.Reissue(g.org, i, Sha256(token), now + INVITATION_TTL), now, NIL, token);
      answer := db.ReissueInvitation(g.org, i, Sha256(token), now + INVITATION_TTL);
    }

    method MembershipsForUser(user: Id) returns (mine: seq<Id>)
      ensures forall m :: m in mine <==>
          m in db.members && db.members[m].user == user && OrgLive(db.View(), db.members[m].org)
    {
      mine := [];
      var rows := set m | m in db.members && db.members[m].user == user && OrgLive(db.View(), db.members[m].org);
      var todo := rows;
      while todo != {}
        invariant todo <= rows && forall m :: m in mine <==> m in rows - todo
        decreases todo
      {
        var m :| m in todo;
        mine, todo := mine + [m], todo - {m};
      }
    }

    method Leave(user: Id, m: Id) returns (answer: Answer)
      modifies db
      ensures (db.View(), answer) == Alone(old(db.View()), LeaveA(user, m), 0, NIL, 0)
    {
      AloneNext(db.View(), LeaveA(user, m), 0, NIL, 0);
      var mine := MembershipsForUser(user);
      for i := 0 to |mine|
        invariant db.View() == old(db.View())
        invariant m !in mine[..i]
      {
        if mine[i] != m {
          assert mine[..i + 1] == mine[..i] + [mine[i]];
          continue;
        }
        AloneReady(db.View(), Remove(db.members[m].org, m, true), 0, NIL, 0);
        answer := db.RemoveMember(db.members[m].org, m, true);
        return;
      }
      assert mine[..|mine|] == mine;
      return Err(ErrNotFound);
    }

    method MemberByUser(o: Id, user: Id) returns (found: Option<Id>)
      requires Unique(db.View())
      ensures found == MemberOf(db.View(), o, user)
    {
      var rows := set m | m in db.members && IsMember(db.View(), o, m) && db.members[m].user == user;
      assert forall m :: IsMember(db.View(), o, m) && db.members[m].user == user <==> m in rows;
      if rows == {} { return None; }
      var m :| m in rows;
      return Some(m);
    }

    method GrantOwnership(o: Id, user: Id, id: Id) returns (answer: Answer)
      requires Unique(db.View())
      modifies db
      ensures (db.View(), answer) == Alone(old(db.View()), OwnA(o, user), 0, id, 0)
    {
      AloneOwn(db.View(), o, user, 0, id, 0);
      var owner := RolesNamed(db.View(), o, OWNER);
      if owner == {} { return Err(ErrNotFound); }
      var r :| r in owner;
      assert owner == {r} == IdsOf([r]);
      var found := MemberByUser(o, user);
      if found.Some? {
        answer := db.ReplaceMemberRoles(o, found.value, [r], false);
      } else {
        answer := db.AddMember(o, user, [r], id);
      }
    }

    method AppointOwner(o: Id, user: Id, id: Id) returns (answer: Answer)
      requires Unique(db.View())
      modifies db
      ensures (db.View(), answer) == Alone(old(db.View()), AppointA(o, user), 0, id, 0)
    {
      AloneNext(db.View(), AppointA(o, user), 0, id, 0);
      if !OrgLive(db.View(), o) { return Err(ErrNotFound); }
      answer := GrantOwnership(o, user, id);
    }

    // The open offers to an address, and whether all of them could be read back.
    method InvitationsForEmail(email: string, now: int) returns (offers: seq<Id>, readable: bool)
      ensures readable <==> !OrgJoin.OfferUnreadable(db.View(), email, now)
      ensures forall i :: i in offers ==> OrgJoin.Awaits(db.View(), email, now, i)
      ensures readable ==> forall i :: i in db.invitations && OrgJoin.Awaits(db.View(), email, now, i) ==> i in offers
    {
      offers, readable := [], true;
      var rows := set i | i in db.invitations && OrgJoin.Awaits(db.View(), email, now, i);
      var todo := rows;
      while todo != {}
        invariant todo <= rows && forall i :: i in offers <==> i in rows - todo
        invariant forall i :: i in offers ==> OrgLive(db.View(), db.invitations[i].org)
        decreases todo
      {
        var i :| i in todo;
        if !OrgLive(db.View(), db.invitations[i].org) { return offers, false; }
        offers, todo := offers + [i], todo - {i};
      }
    }

    method HasRowIn(o: Id, user: Id, email: string, now: int) returns (presence: OrgJoin.Presence)
      ensures presence == OrgJoin.RowIn(db.View(), o, user, email, now)
    {
      var mine := MembershipsForUser(user);
      for i := 0 to |mine|
        invariant forall j :: 0 <= j < i ==> mine[j] in db.members && db.members[mine[j]].org != o
      {
        assert mine[i] in mine;
        if db.members[mine[i]].org == o { return OrgJoin.Present; }
      }
      assert !OrgJoin.Belongs(db.View(), o, user);
      var offers, readable := InvitationsForEmail(email, now);
      if !readable { return OrgJoin.Broken; }
      for i := 0 to |offers|
        invariant forall j :: 0 <= j < i ==> offers[j] in db.invitations && db.invitations[offers[j]].org != o
      {
        assert offers[i] in offers;
        if db.invitations[offers[i]].org == o { return OrgJoin.Present; }
      }
      assert !OrgJoin.OfferedHere(db.View(), o, email, now);
      return OrgJoin.Absent;
    }

    // The rest of the program at work on the same tables.
    method Others(txs: seq<Tx>)
      modifies db
      ensures db.View() == OrgJoin.Meanwhile(old(db.View()), txs)
    {
      for k := 0 to |txs|
        invariant db.View() == OrgJoin.Meanwhile(old(db.View()), txs[..k])
      {
        assert txs[..k + 1][..k] == txs[..k];
        var s := Apply(db.View(), txs[k]).0;
        db.orgs, db.accounts, db.members := s.orgs, s.accounts, s.members;
        db.roles, db.invitations := s.roles, s.invitations;
      }
      assert txs[..|txs|] == txs;
    }

    method OrganizationBySlug(slug: string) returns (e: OrgJoin.Ensured)
      requires UniqueSlugs(db.View())
      ensures e == OrgJoin.Look(db.View(), slug)
    {
      var found := Slugged(db.View(), slug);
      if found == {} { return OrgJoin.Failed(ErrNotFound); }
      var there :| there in found;
      OrgJoin.OneSlugged(db.View(), slug, there);
      return OrgJoin.Ensured(there);
    }

    // Found, or created with its shipped roles; a refused creation looks again.
    // first and second: what others commit before the creation and after it.
    method EnsureDefaultOrganization(o: Id, ids: ShippedIds, first: seq<Tx>, second: seq<Tx>)
      returns (e: OrgJoin.Ensured)
      requires Unique(db.View())
      modifies db
      ensures (db.View(), e) == OrgJoin.Ensure(old(db.View()), o, ids, first, second) && Unique(db.View())
    {
      e := OrganizationBySlug(OrgJoin.DEFAULT_SLUG);
      if e.Ensured? { return; }
      OrgJoin.MeanwhileUnique(db.View(), first);
      Others(first);
      ApplyKeepsUnique(db.View(), CreateOrg(o, OrgJoin.DEFAULT_SLUG, true, ids));
      var answer := db.CreateOrganization(o, OrgJoin.DEFAULT_SLUG, true, ids);
      if answer.Done? { return OrgJoin.Ensured(o); }
      if answer.error != ErrSlugTaken { return OrgJoin.Failed(answer.error); }
      OrgJoin.MeanwhileUnique(db.View(), second);
      Others(second);
      e := OrganizationBySlug(OrgJoin.DEFAULT_SLUG);
    }

    // An account that turns out to be a member already has nothing left to do.
    method Join(o: Id, user: Id, email: string, now: int, id: Id) returns (answer: Answer)
      requires Unique(db.View())
      modifies db
      ensures (db.View(), answer) == Alone(old(db.View()), JoinA(o, user, email), now, id, 0)
    {
      AloneJoin(db.View(), o, user, email, now, id);
      var waiting := HasRowIn(o, user, email, now);
      if waiting.Present? { return Done; }
      if waiting.Broken? { return Err(ErrNotFound); }
      var role := RolesNamed(db.View(), o, OrgJoin.MEMBER);
      if role == {} { return Err(ErrNotFound); }
      var r :| r in role;
      assert role == {r} == IdsOf([r]);
      answer := db.AddMember(o, user, [r], id);
      if answer == Err(ErrAlreadyMember) { return Done; }
    }

    // org and ids: what a default organization made here would get.
    method JoinDefaultOrganization(
      user: Id, email: string, now: int, id: Id, org: Id, ids: ShippedIds, first: seq<Tx>, second: seq<Tx>)
      returns (answer: Answer)
      requires Unique(db.View())
      modifies db
      ensures var (s, e) := OrgJoin.Ensure(old(db.View()), org, ids, first, second);
              (db.View(), answer)
              == if e.Failed? then (s, Err(e.error)) else Alone(s, JoinA(e.org, user, email), now, id, 0)
    {
      var e := EnsureDefaultOrganization(org, ids, first, second);
      if e.Failed? { return Err(e.error); }
      answer := Join(e.org, user, email, now, id);
    }

    // The loop that fills the seen map.
    method CheckBatch(emails: seq<string>) returns (err: Option<OrgError>)
      ensures err == BatchError(emails)
    {
      if |emails| == 0 || |emails| > MAX_INVITES { return Some(ErrInvalidBatch); }
      var seen: set<string> := {};
      for i := 0 to |emails|
        invariant ScanError(emails, 0) == ScanError(emails, i)
        invariant forall e :: e in seen <==> exists j :: 0 <= j < i && Address.Normalize(emails[j]) == e
      {
        var normalized := Address.Normalize(emails[i]);
        if normalized == "" { return Some(ErrInvalidEmail); }
        if normalized in seen { return Some(ErrInvalidBatch); }
        seen := seen + {normalized};
      }
      return None;
    }

    // A refused request writes nothing. Otherwise the store is what inviting each
    // address in order makes of it, up to the first answer that is about the whole
    // request, and every outcome stands at its address's position.
    method InviteMany(g: Grant, emails: seq<string>, ids: seq<Id>, draws: seq<Draw>)
      returns (outcomes: seq<Outcome>, answer: Answer)
      requires |emails| <= |draws|
      modifies db
      ensures BatchError(emails).Some? ==> answer == Err(BatchError(emails).value)
      ensures BatchError(emails).None? && Assignable(old(db.View()), g, ids).Some? ==>
                answer == Err(Assignable(old(db.View()), g, ids).value)
      ensures BatchError(emails).Some? || Assignable(old(db.View()), g, ids).Some? ==>
                db.View() == old(db.View()) && outcomes == []
      ensures answer == Done ==>
                && db.View() == Folded(old(db.View()), g, emails, ids, draws) && |outcomes| == |emails|
                && Told(old(db.View()), g, emails, ids, draws, outcomes)
      ensures BatchError(emails).None? && Assignable(old(db.View()), g, ids).None? && answer != Done ==>
                exists k :: 0 <= k < |emails| && StoppedAt(old(db.View()), g, emails, ids, draws, k, db.View(), answer)
    {
      var err := CheckBatch(emails);
      if err.Some? { return [], Err(err.value); }
      err := EnsureRolesAreGrantable(g, ids);
      if err.Some? { return [], Err(err.value); }
      outcomes, answer := SendAll(g, emails, ids, draws);
    }

    method SendAll(g: Grant, emails: seq<string>, ids: seq<Id>, draws: seq<Draw>)
      returns (outcomes: seq<Outcome>, answer: Answer)
      requires |emails| <= |draws|
      modifies db
      ensures answer == Done ==>
                && db.View() == Folded(old(db.View()), g, emails, ids, draws) && |outcomes| == |emails|
                && Told(old(db.View()), g, emails, ids, draws, outcomes)
      ensures answer != Done ==>
                exists k :: 0 <= k < |emails| && StoppedAt(old(db.View()), g, emails, ids, draws, k, db.View(), answer)
    {
      outcomes := [];
      ghost var start := db.View();
      assert emails[..0] == [];
      for i := 0 to |emails|
        invariant db.View() == Folded(start, g, emails[..i], ids, draws)
        invariant |outcomes| == i && Told(start, g, emails, ids, draws, outcomes)
      {
        outcomes, answer := SendOne(g, emails, ids, draws, outcomes, start);
        if !Continues(answer) {
          assert StoppedAt(start, g, emails, ids, draws, i, db.View(), answer);
          return [], answer;
        }
      }
      assert emails[..|emails|] == emails;
      answer := Done;
    }

    // One address, and what it is told.
    method SendOne(
      g: Grant, emails: seq<string>, ids: seq<Id>, draws: seq<Draw>, outcomes: seq<Outcome>, ghost start: Store)
      returns (more: seq<Outcome>, answer: Answer)
      requires |outcomes| < |emails| <= |draws| && Told(start, g, emails, ids, draws, outcomes)
      requires db.View() == Folded(start, g, emails[..|outcomes|], ids, draws)
      modifies db
      ensures db.View() == Folded(start, g, emails[..|outcomes| + 1], ids, draws)
      ensures answer == AnswerAt(start, g, emails, ids, draws, |outcomes|)
      ensures Continues(answer) ==> |more| == |outcomes| + 1 && Told(start, g, emails, ids, draws, more)
    {
      ghost var was := db.View();
      var outcome;
      answer, outcome := SendSingle(g, emails[|outcomes|], ids, draws[|outcomes|]);
      OneMore(start, was, db.View(), g, emails, ids, draws, outcomes, answer);
      more := if Continues(answer) then outcomes + [outcome] else [];
    }

    method SendSingle(g: Grant, email: string, ids: seq<Id>, d: Draw) returns (answer: Answer, outcome: Outcome)
      modifies db
      ensures (db.View(), answer) == Single(old(db.View()), g, email, ids, d)
      ensures Continues(answer) ==> outcome == OutcomeOf(email, d, answer)
    {
      answer := Invite(g, email, ids, d.now, d.id, d.token);
      match answer
      case Done => outcome := Outcome(Address.Normalize(email), Some((d.id, d.token)), None);
      case Err(e) => outcome := Outcome(Address.Normalize(email), None, Some(e));
    }
  }
}
