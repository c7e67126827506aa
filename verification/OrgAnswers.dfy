/**
  When each organization request goes through and what it then leaves in the
  tables, by the rows it finds and the grant it comes with; and what every role that
  is ever stored was asked for with (internal/domain/orgs).
 */
module OrgAnswers {
  import opened Authz
  import opened OrgStore
  import opened OrgCalls
  import opened OrgSafety
  import OrgRegistration
  import OrgService
  import Address
  import Sorting

  // The caller may change this membership: it is their own, or carries no catalog
  // permission they lack.
  predicate MayChange(s: Store, g: Grant, m: Id)
    requires m in s.members
  {
    Self(g, s.members[m].user) || forall p :: p in MemberPerms(s, g.org, m) && Known(p) ==> p in g.perms
  }

  // ------------------------------------------------------------------ members

  lemma {:induction false} StatusIff(s: Store, g: Grant, m: Id, status: Status)
    ensures var (t, answer) := Alone(s, StatusA(g, m, status), 0, NIL, 0);
            if status in {Active, Suspended} && OrgLive(s, g.org) && IsMember(s, g.org, m) && MayChange(s, g, m)
               && !(status == Suspended && Owners(s, g.org) == {m})
            then answer == Done && t == s.(members := s.members[m := s.members[m].(status := status)])
            else answer != Done && t == s
  {
    OrgService.AloneStatus(s, g, m, status);
    var tx := SetStatus(g.org, m, status, status != Active);
    LastOwnerRefusedIff(s, tx);
    if Apply(s, tx).1 != Done { RefusedChangesNothing(s, tx); }
  }

  lemma {:induction false} RemoveIff(s: Store, g: Grant, m: Id)
    ensures var (t, answer) := Alone(s, RemoveA(g, m), 0, NIL, 0);
            if OrgLive(s, g.org) && m in s.members && s.members[m].org == g.org && Owners(s, g.org) != {m}
               && (AccountLive(s, s.members[m].user) ==> MayChange(s, g, m))
            then answer == Done && t == s.(members := s.members - {m})
            else answer != Done && t == s
  {
    OrgService.AloneRemove(s, g, m);
    LastOwnerRefusedIff(s, Remove(g.org, m, true));
    if Apply(s, Remove(g.org, m, true)).1 != Done { RefusedChangesNothing(s, Remove(g.org, m, true)); }
  }

  lemma {:induction false} RolesIff(s: Store, g: Grant, m: Id, ids: seq<Id>)
    ensures var (t, answer) := Alone(s, RolesA(g, m, ids), 0, NIL, 0);
            if OrgLive(s, g.org) && IsMember(s, g.org, m) && MayChange(s, g, m) && WithinGrant(s, g, ids)
               && !(DropsOwner(s, g.org, IdsOf(ids)) && Owners(s, g.org) == {m})
            then answer == Done && t == s.(members := s.members[m := s.members[m].(roles := IdsOf(ids))])
            else answer != Done && t == s
  {
    OrgService.AloneSetRoles(s, g, m, ids);
    AloneRoles(s, g, m, ids, 0, 0, NIL, 0);
    assert ids[0..] == ids;
    AssignableIff(s, g, ids);
    var tx := ReplaceRoles(g.org, m, IdsOf(ids), DropsOwner(s, g.org, IdsOf(ids)));
    LastOwnerRefusedIff(s, tx);
    if Apply(s, tx).1 != Done { RefusedChangesNothing(s, tx); }
  }

  // Every role is the organization's and carries only what the caller holds.
  predicate WithinGrant(s: Store, g: Grant, ids: seq<Id>) {
    forall r :: r in ids ==> IsRole(s, g.org, r) && forall p :: p in s.roles[r].perms ==> Known(p) && p in g.perms
  }

  lemma {:induction false} LeaveIff(s: Store, user: Id, m: Id)
    ensures var (t, answer) := Alone(s, LeaveA(user, m), 0, NIL, 0);
            if m in s.members && s.members[m].user == user && OrgLive(s, s.members[m].org)
               && Owners(s, s.members[m].org) != {m}
            then answer == Done && t == s.(members := s.members - {m})
            else answer != Done && t == s
  {
    AloneNext(s, LeaveA(user, m), 0, NIL, 0);
    if m in s.members {
      var tx := Remove(s.members[m].org, m, true);
      AloneReady(s, tx, 0, NIL, 0);
      LastOwnerRefusedIff(s, tx);
      if Apply(s, tx).1 != Done { RefusedChangesNothing(s, tx); }
    }
  }

  // Appointing an owner of a live organization succeeds for every live account, and
  // leaves its membership with the owner role and no other.
  lemma {:induction false} AppointIff(s: Store, o: Id, user: Id, own: Id, id: Id)
    requires Unique(s) && OwnerRole(s, o, own) && OrgLive(s, o) && id !in s.members
    ensures var (t, answer) := Alone(s, AppointA(o, user), 0, id, 0);
            if AccountLive(s, user) then
              && answer == Done
              && exists m :: m in t.members && t.members[m].user == user && t.members[m].org == o
                   && t.members[m].roles == {own} && t == s.(members := s.members[m := t.members[m]])
            else answer != Done
  {
    AloneNext(s, AppointA(o, user), 0, id, 0);
    AloneOwn(s, o, user, 0, id, 0);
    OnlyOwnerRole(s, o, own);
    var t := Alone(s, AppointA(o, user), 0, id, 0).0;
    var found := MemberOf(s, o, user);
    if found.Some? {
      assert t.members[found.value].roles == {own};
    } else if AccountLive(s, user) {
      assert t.members[id] == Member(o, user, Active, {own});
    }
  }

  // -------------------------------------------------------------------- roles

  // A role is made if and only if its trimmed key is valid and free there, and every
  // permission is organization-scoped and the caller's; then exactly it is added,
  // custom, with exactly these permissions.
  lemma {:induction false} CreateRoleIff(s: Store, g: Grant, key: string, perms: seq<Permission>, id: Id)
    requires id !in s.roles
    ensures var (t, answer) := Alone(s, CreateA(g, key, perms), 0, id, 0);
            if ValidRoleKey(Address.Trim(key)) && RolesNamed(s, g.org, Address.Trim(key)) == {} && g.org in s.orgs
               && forall p :: p in perms ==> OrgScoped(p) && p in g.perms
            then
              && answer == Done && id in t.roles && t == s.(roles := s.roles[id := t.roles[id]])
              && t.roles[id] == Role(g.org, Address.Trim(key), false, t.roles[id].perms)
              && Sorting.Distinct(t.roles[id].perms) && forall p :: p in t.roles[id].perms <==> p in perms
            else answer != Done && t == s
  {
    AloneNext(s, CreateA(g, key, perms), 0, id, 0);
    MayStoreIff(g, perms);
    AloneReady(s, CreateRole(g.org, Address.Trim(key), Dedupe(perms), NIL), 0, id, 0);
  }

  // An organization's own custom role is deleted if and only if nobody holds it;
  // open and accepted invitations lose it, and nothing else changes.
  lemma {:induction false} DeleteRoleIff(s: Store, g: Grant, r: Id)
    ensures var (t, answer) := Alone(s, DeleteA(g, r), 0, NIL, 0);
            if OrgLive(s, g.org) && IsRole(s, g.org, r) && !s.roles[r].shipped
               && forall m :: m in s.members ==> r !in s.members[m].roles
            then
              && answer == Done && t == s.(roles := s.roles - {r}, invitations := t.invitations)
              && t.invitations.Keys == s.invitations.Keys
              && forall i :: i in s.invitations ==>
                   t.invitations[i] == s.invitations[i].(roles := s.invitations[i].roles - {r})
            else answer != Done && t == s
  {
    AloneNext(s, DeleteA(g, r), 0, NIL, 0);
    AloneReady(s, DeleteRole(g.org, r), 0, NIL, 0);
    if OrgLive(s, g.org) && IsRole(s, g.org, r) && !s.roles[r].shipped { DeleteRefusedWhileHeld(s, g.org, r); }
  }

  // -------------------------------------------------------------- invitations

  // What an invitation that goes through stores.
  lemma {:induction false} InvitedRow(s: Store, g: Grant, email: string, ids: seq<Id>, now: int, id: Id, token: Token)
    requires Alone(s, InviteA(g, email, ids, 0), now, id, token).0 != s
    ensures Alone(s, InviteA(g, email, ids, 0), now, id, token).0
            == s.(invitations := s.invitations[id :=
                 Invitation(g.org, Address.Normalize(email), Sha256(token), now + INVITATION_TTL, false, IdsOf(ids))])
  {
    AloneInvite(s, g, email, ids, 0, now, id, token);
  }

  // An unaccepted invitation of the organization gets the new token and a new life;
  // any other is not found.
  lemma {:induction false} ReissueIff(s: Store, g: Grant, i: Id, now: int, token: Token)
    requires !HashTaken(s, Sha256(token))
    ensures var (t, answer) := Alone(s, ReissueA(g, i), now, NIL, token);
            if Open(s, g.org, i) then
              && t == s.(invitations := s.invitations[i :=
                           s.invitations[i].(hash := Sha256(token), expires := now + INVITATION_TTL)])
              && (answer == Done <==> OrgLive(s, g.org))
            else answer == Err(ErrNotFound) && t == s
  {
    AloneNext(s, ReissueA(g, i), now, NIL, token);
    AloneReady(s, Reissue(g.org, i, Sha256(token), now + INVITATION_TTL), now, NIL, token);
  }

  lemma {:induction false} WithdrawIff(s: Store, g: Grant, i: Id, now: int)
    ensures Alone(s, WithdrawA(g, i), now, NIL, 0)
            == if Open(s, g.org, i) then (s.(invitations := s.invitations - {i}), Done) else (s, Err(ErrNotFound))
  {
    AloneNext(s, WithdrawA(g, i), now, NIL, 0);
    AloneReady(s, Withdraw(g.org, i), now, NIL, 0);
  }

  // An unexpired, unaccepted invitation of a live organization with this token.
  predicate Pending(s: Store, tk: Token, now: int, i: Id) {
    && i in s.invitations && s.invitations[i].hash == Sha256(tk) && !s.invitations[i].accepted
    && now < s.invitations[i].expires && OrgLive(s, s.invitations[i].org)
  }

  // The lookup finds it, and nothing else.
  lemma {:induction false} ThePending(s: Store, tk: Token, now: int, i: Id)
    requires Unique(s) && Pending(s, tk, now, i)
    ensures Lookup(s, tk, Some(now)) == Some(i)
  {
    assert Found(s, tk, Some(now), i);
  }

  lemma {:induction false} FoundPending(s: Store, tk: Token, now: int)
    ensures Lookup(s, tk, Some(now)).Some? ==> Pending(s, tk, now, Lookup(s, tk, Some(now)).value)
  {
  }

  // A token that finds a pending invitation: accepted exactly by its address, for an
  // account that does not belong yet; refused by anybody else without a change.
  lemma {:induction false} AcceptIff(s: Store, i: Id, user: Id, email: string, tk: Token, now: int, id: Id)
    requires Unique(s) && Linked(s) && Pending(s, tk, now, i) && user in s.accounts && id !in s.members
    ensures var (t, answer) := Alone(s, AcceptA(user, email, tk), now, id, 0);
            var inv := s.invitations[i];
            if inv.email == Address.Normalize(email) && !Joined(s, inv.org, user) then
              && answer == Done
              && t == s.(members := s.members[id := Member(inv.org, user, Active, inv.roles)],
                         invitations := s.invitations[i := inv.(accepted := true)])
            else answer != Done && t == s
  {
    AloneAccept(s, user, email, tk, now, id, 0);
    ThePending(s, tk, now, i);
    assert RolesOwned(s, s.invitations[i].org, s.invitations[i].roles);
  }

  lemma {:induction false} DeclineIff(s: Store, i: Id, tk: Token, now: int)
    requires Unique(s) && Pending(s, tk, now, i)
    ensures Alone(s, DeclineA(tk), now, NIL, 0) == (s.(invitations := s.invitations - {i}), Done)
  {
    AloneNext(s, DeclineA(tk), now, NIL, 0);
    ThePending(s, tk, now, i);
    AloneReady(s, Decline(i), now, NIL, 0);
  }

  // A token that finds nothing pending changes nothing.
  lemma {:induction false} NothingPending(s: Store, user: Id, email: string, tk: Token, now: int, id: Id)
    requires forall i :: !Pending(s, tk, now, i)
    ensures Alone(s, AcceptA(user, email, tk), now, id, 0).0 == s == Alone(s, DeclineA(tk), now, NIL, 0).0
    ensures Alone(s, AcceptA(user, email, tk), now, id, 0).1 in {Err(ErrNotFound), Err(ErrInvitationExpired)}
    ensures Alone(s, DeclineA(tk), now, NIL, 0).1 in {Err(ErrNotFound), Err(ErrInvitationExpired)}
  {
    FoundPending(s, tk, now);
    assert Lookup(s, tk, Some(now)) == None;
    AloneAccept(s, user, email, tk, now, id, 0);
    AloneNext(s, DeclineA(tk), now, NIL, 0);
    AloneNext(s, AcceptB(tk, now), now, NIL, 0);
  }

  // ------------------------------------------------------------ over whole runs

  // The b-th action begins request n, which writes a role's permissions.
  ghost predicate Asks(w: World, actions: seq<Action>, b: nat, n: nat, c: Call)
    requires b < |actions|
  {
    actions[b] == Begin(n, c) && (c.CreateA? || c.PermsA?) && c.g in Run(w, actions[..b]).grants
  }

  lemma {:induction false} AskedBefore(w: World, actions: seq<Action>, n: nat) returns (b: nat)
    requires Start(w) && n in Run(w, actions).calls
    requires Run(w, actions).calls[n].CreateA? || Run(w, actions).calls[n].PermsA?
    ensures b < |actions| && Asks(w, actions, b, n, Run(w, actions).calls[n])
  {
    assert actions != [];
    var m := |actions| - 1;
    var before := Run(w, actions[..m]);
    if n in before.calls && before.calls[n] == Run(w, actions).calls[n] {
      b := AskedBefore(w, actions[..m], n);
      assert actions[..m][..b] == actions[..b] && actions[..m][b] == actions[b];
    } else {
      BegunNow(before, actions[m], n);
      b := m;
    }
  }

  lemma {:induction false} BegunNow(w: World, a: Action, n: nat)
    requires n in Do(w, a).calls && (Do(w, a).calls[n].CreateA? || Do(w, a).calls[n].PermsA?)
    requires n in w.calls ==> w.calls[n] != Do(w, a).calls[n]
    ensures a == Begin(n, Do(w, a).calls[n]) && Do(w, a).calls[n].g in w.grants
  {
    if a.Step? && a.n in w.calls && !w.calls[a.n].Ready? { NeverAsks(w.store, w.calls[a.n], a.now, a.token); }
  }

  lemma {:induction false} NeverAsks(s: Store, c: Call, now: int, token: Token)
    requires !c.Ready?
    ensures !Next(s, c, now, token).CreateA? && !Next(s, c, now, token).PermsA?
  {
  }

  // What a request for these permissions must have come with.
  ghost predicate CoveredBy(c: Call, tx: Tx) {
    && (tx.CreateRole? ==> c.CreateA? && tx.org == c.g.org && tx.key == Address.Trim(c.key) && Same(c, tx.perms))
    && (tx.ReplacePerms? ==> c.PermsA? && tx.org == c.g.org && tx.role == c.r && Same(c, tx.perms))
  }

  ghost predicate Same(c: Call, perms: seq<Permission>)
    requires c.CreateA? || c.PermsA?
  {
    (forall p :: p in perms <==> p in c.perms) && forall p :: p in perms ==> OrgScoped(p) && p in c.g.perms
  }

  lemma {:induction false} WritesCovered(s: Store, c: Call, now: int, token: Token)
    requires !c.Ready? && Next(s, c, now, token).Ready?
    ensures CoveredBy(c, Next(s, c, now, token).tx)
  {
    if c.CreateA? || c.PermsA? { MayStoreIff(c.g, c.perms); }
  }

  // Every role any run stores or rewrites carries exactly the permissions its request
  // was begun with, each of them organization-scoped and in the grant the middleware
  // had resolved for that request.
  lemma {:induction false} RolesWithinGrant(w: World, actions: seq<Action>, k: nat) returns (b: nat, c: Call)
    requires Start(w) && k < |actions|
    requires var tx := TxOf(Run(w, actions[..k]), actions[k]);
             tx.Some? && (tx.value.CreateRole? || tx.value.ReplacePerms?)
    ensures b < k && Asks(w, actions, b, actions[k].n, c)
    ensures CoveredBy(c, TxOf(Run(w, actions[..k]), actions[k]).value)
  {
    b, c := WriterAsked(w, actions, k, actions[k].n);
  }

  lemma {:induction false} WriterAsked(w: World, actions: seq<Action>, k: nat, n: nat) returns (b: nat, c: Call)
    requires Start(w) && k <= |actions| && n in Run(w, actions[..k]).calls && Run(w, actions[..k]).calls[n].Ready?
    requires Run(w, actions[..k]).calls[n].tx.CreateRole? || Run(w, actions[..k]).calls[n].tx.ReplacePerms?
    ensures b < k && Asks(w, actions, b, n, c) && CoveredBy(c, Run(w, actions[..k]).calls[n].tx)
  {
    var i;
    i, c := OrgRegistration.ReadBefore(w, actions[..k], n);
    assert actions[..k][..i] == actions[..i] && actions[..k][i] == actions[i];
    WritesCovered(Run(w, actions[..i]).store, c, actions[i].now, actions[i].token);
    b := AskedBefore(w, actions[..i], n);
    assert actions[..i][..b] == actions[..b] && actions[..i][b] == actions[b];
  }
}
