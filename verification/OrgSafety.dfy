/**
  What every interleaving keeps: shipped roles, the last owner, and the scope of
  the permissions an organization role may carry.
 */
module OrgSafety {
  import opened Authz
  import opened OrgStore
  import opened OrgCalls

  // ------------------------------------------------------------ shipped roles

  ghost predicate NoEdit(w: World, r: Id) {
    forall n :: n in w.calls && w.calls[n].Ready? && w.calls[n].tx.ReplacePerms? ==> w.calls[n].tx.role != r
  }

  lemma {:induction false} ApplyKeepsShipped(s: Store, tx: Tx, r: Id)
    requires r in s.roles && s.roles[r].shipped
    requires tx.ReplacePerms? ==> tx.role != r
    ensures r in Apply(s, tx).0.roles && Apply(s, tx).0.roles[r] == s.roles[r]
  {
    match tx
    case CreateOrg(o, slug, protected, ids) => CreateOrgKeepsRoles(s, o, slug, protected, ids, r);
    case _ =>
  }

  lemma {:induction false} CreateOrgKeepsRoles(
    s: Store, o: Id, slug: string, protected: bool, ids: ShippedIds, r: Id)
    requires r in s.roles
    ensures var s' := CreateOrgTx(s, o, slug, protected, ids).0; r in s'.roles && s'.roles[r] == s.roles[r]
  {
    assert r in IdSet(ids) ==> r in IdSet(ids) * s.roles.Keys;
  }

  lemma {:induction false} DoKeepsShipped(w: World, a: Action, r: Id)
    requires r in w.store.roles && w.store.roles[r].shipped && NoEdit(w, r)
    ensures r in Do(w, a).store.roles && Do(w, a).store.roles[r] == w.store.roles[r] && NoEdit(Do(w, a), r)
  {
    match a
    case Step(n, now, id, token) =>
      if n in w.calls && w.calls[n].Ready? {
        ApplyKeepsShipped(w.store, WithId(w.calls[n].tx, id), r);
      }
    case Elsewhere(tx) => if IsElsewhere(tx) { ApplyKeepsShipped(w.store, tx, r); }
    case _ =>
  }

  // A shipped role is never deleted, re-keyed or given other permissions.
  lemma {:induction false} ShippedRolesSurvive(w: World, actions: seq<Action>, r: Id)
    requires Start(w) && r in w.store.roles && w.store.roles[r].shipped
    ensures r in Run(w, actions).store.roles && Run(w, actions).store.roles[r] == w.store.roles[r]
    ensures NoEdit(Run(w, actions), r)
  {
    if actions != [] {
      ShippedRolesSurvive(w, actions[..|actions| - 1], r);
      DoKeepsShipped(Run(w, actions[..|actions| - 1]), actions[|actions| - 1], r);
    }
  }

  lemma {:induction false} RunStaysSane(w: World, actions: seq<Action>)
    requires Start(w)
    ensures Sane(Run(w, actions)) && w.ids <= Run(w, actions).ids
  {
    if actions != [] {
      RunStaysSane(w, actions[..|actions| - 1]);
      DoStaysSane(Run(w, actions[..|actions| - 1]), actions[|actions| - 1]);
    }
  }

  // ------------------------------------------------------------ deleting a role

  // Whatever was assigned since the role was read, a deletion that goes through
  // leaves every membership, its permissions and every other role as they were.
  // Invitations lose the role, and only that.
  lemma {:induction false} DeletingARoleTakesNothingAway(s: Store, o: Id, r: Id, m: Id, i: Id)
    requires Apply(s, DeleteRole(o, r)).1 == Done
    ensures var s' := Apply(s, DeleteRole(o, r)).0;
            && r !in s'.roles && s'.members == s.members
            && (m in s.members ==> MemberPerms(s', s.members[m].org, m) == MemberPerms(s, s.members[m].org, m))
            && (forall q :: q in s.roles && q != r ==> q in s'.roles && s'.roles[q] == s.roles[q])
            && s'.invitations.Keys == s.invitations.Keys
            && (i in s.invitations ==>
                  s'.invitations[i] == s.invitations[i].(roles := s.invitations[i].roles - {r}))
  {
    var s' := Apply(s, DeleteRole(o, r)).0;
    assert Holders(s, r) == {};
    if m in s.members {
      assert r !in s.members[m].roles by { assert m !in Holders(s, r); }
      var o' := s.members[m].org;
      forall p ensures p in MemberPerms(s', o', m) <==> p in MemberPerms(s, o', m) {
        if p in MemberPerms(s, o', m) {
          var q :| q in s.members[m].roles && q in s.roles && p in s.roles[q].perms;
          assert q in s'.roles && s'.roles[q] == s.roles[q];
        }
      }
    }
  }

  // The deletion is refused exactly while somebody holds the role.
  lemma {:induction false} DeleteRefusedWhileHeld(s: Store, o: Id, r: Id)
    requires OrgLive(s, o) && IsRole(s, o, r) && !s.roles[r].shipped
    ensures Apply(s, DeleteRole(o, r)).1 == Err(ErrRoleInUse)
            <==> exists m :: m in s.members && r in s.members[m].roles
    ensures Apply(s, DeleteRole(o, r)).1 == Done
            <==> forall m :: m in s.members ==> r !in s.members[m].roles
  {
    if exists m :: m in s.members && r in s.members[m].roles {
      var m :| m in s.members && r in s.members[m].roles;
      assert m in Holders(s, r);
    } else {
      assert Holders(s, r) == {};
    }
  }

  // ---------------------------------------------------------------- last owner

  // own is the organization's shipped owner role.
  ghost predicate OwnerRole(s: Store, o: Id, own: Id) {
    own in s.roles && s.roles[own].org == o && s.roles[own].key == OWNER && s.roles[own].shipped
  }

  lemma {:induction false} OnlyOwnerRole(s: Store, o: Id, own: Id)
    requires Unique(s) && OwnerRole(s, o, own)
    ensures RolesNamed(s, o, OWNER) == {own}
  {
  }

  // The guard's losing flag says what the change does to the subject.
  predicate HonestTx(tx: Tx, o: Id, own: Id) {
    match tx
    case SetStatus(_, _, status, losing) => losing == (status != Active)
    case Remove(_, _, losing) => losing
    case ReplaceRoles(org, _, ids, losing) => org == o ==> losing == (own !in ids)
    case _ => true
  }

  predicate Honest(c: Call, o: Id, own: Id) {
    match c
    case Ready(tx) => HonestTx(tx, o, own) && !IsElsewhere(tx)
    case OwnB(org, _, owner) => org == o ==> owner == {own}
    case _ => true
  }

  ghost predicate AllHonest(w: World, o: Id, own: Id) {
    forall n :: n in w.calls ==> Honest(w.calls[n], o, own)
  }

  lemma {:induction false} NextIsHonest(s: Store, c: Call, now: int, token: Token, o: Id, own: Id)
    requires Unique(s) && OwnerRole(s, o, own) && Honest(c, o, own)
    ensures Honest(Next(s, c, now, token), o, own)
  {
    OnlyOwnerRole(s, o, own);
    if c.RolesC? {
      RolesAreHonest(s, c, now, token, o, own);
    } else if !c.Ready? {
      OthersAreHonest(s, c, now, token, o, own);
    }
  }

  lemma {:induction false} RolesAreHonest(s: Store, c: Call, now: int, token: Token, o: Id, own: Id)
    requires RolesNamed(s, o, OWNER) == {own} && c.RolesC?
    ensures Honest(Next(s, c, now, token), o, own)
  {
  }

  lemma {:induction false} OthersAreHonest(s: Store, c: Call, now: int, token: Token, o: Id, own: Id)
    requires RolesNamed(s, o, OWNER) == {own} && Honest(c, o, own) && !c.RolesC? && !c.Ready?
    ensures Honest(Next(s, c, now, token), o, own)
  {
  }

  // A membership that is untouched, with its roles and account, stays an owner.
  lemma {:induction false} OwnerUntouched(s: Store, s': Store, o: Id, m: Id)
    requires m in Owners(s, o)
    requires m in s'.members && s'.members[m] == s.members[m] && AccountLive(s', s.members[m].user)
    requires forall r :: r in s.members[m].roles && r in s.roles ==> r in s'.roles && s'.roles[r].key == s.roles[r].key
    ensures m in Owners(s', o)
  {
    var r :| r in s.members[m].roles && r in s.roles && s.roles[r].key == OWNER;
    assert s'.roles[r].key == OWNER;
  }

  lemma {:induction false} AnotherOwner(s: Store, o: Id, m: Id)
    requires Owners(s, o) != {} && OwnerGuard(true, OwnerStateOf(s, o, m)) == None
    ensures exists x :: x in Owners(s, o) && x != m
  {
    if m in Owners(s, o) {
      assert |Owners(s, o) - {m}| == |Owners(s, o)| - 1;
      assert Owners(s, o) - {m} != {};
      var x :| x in Owners(s, o) - {m};
    } else {
      var x :| x in Owners(s, o);
    }
  }

  // The three guarded changes, on the subject's own organization.
  lemma {:induction false} GuardedKeepsAnOwner(s: Store, tx: Tx, o: Id, own: Id) returns (x: Id)
    requires Linked(s) && OwnerRole(s, o, own) && Owners(s, o) != {} && HonestTx(tx, o, own)
    requires tx.SetStatus? || tx.Remove? || tx.ReplaceRoles?
    ensures x in Owners(Apply(s, tx).0, o)
  {
    var s' := Apply(s, tx).0;
    var m := tx.member;
    if s' == s || tx.org != o {
      x :| x in Owners(s, o);
      OwnerUntouched(s, s', o, x);
    } else if tx.losing {
      AnotherOwner(s, o, m);
      x :| x in Owners(s, o) && x != m;
      OwnerUntouched(s, s', o, x);
    } else {
      x :| x in Owners(s, o);
      if x != m {
        OwnerUntouched(s, s', o, x);
      } else if tx.ReplaceRoles? {
        assert own in s'.members[m].roles && own in s'.roles && s'.roles[own].key == OWNER;
        assert HoldsKey(s', s'.members[m].roles, OWNER);
      } else {
        OwnerUntouched(s, s', o, x);
      }
    }
  }

  lemma {:induction false} OthersKeepOwners(s: Store, tx: Tx, o: Id, x: Id)
    requires Linked(s) && x in Owners(s, o)
    requires !tx.SetStatus? && !tx.Remove? && !tx.ReplaceRoles? && !tx.DeleteAccount?
    ensures x in Owners(Apply(s, tx).0, o)
  {
    var s' := Apply(s, tx).0;
    if tx.DeleteRole? && s' != s {
      assert Holders(s, tx.role) == {};
      assert x !in Holders(s, tx.role);
    }
    forall r | r in s.members[x].roles && r in s.roles ensures r in s'.roles && s'.roles[r].key == s.roles[r].key {
      RoleKeepsItsKey(s, tx, r);
    }
    OwnerUntouched(s, s', o, x);
  }

  lemma {:induction false} RoleKeepsItsKey(s: Store, tx: Tx, r: Id)
    requires r in s.roles && (tx.DeleteRole? && tx.role == r ==> Apply(s, tx).0 == s)
    ensures r in Apply(s, tx).0.roles && Apply(s, tx).0.roles[r].key == s.roles[r].key
  {
    match tx
    case CreateOrg(o, slug, protected, ids) => CreateOrgKeepsRoles(s, o, slug, protected, ids, r);
    case _ =>
  }

  lemma {:induction false} ApplyKeepsAnOwner(s: Store, tx: Tx, o: Id, own: Id)
    requires Linked(s) && OwnerRole(s, o, own) && Owners(s, o) != {} && HonestTx(tx, o, own)
    requires !tx.DeleteAccount?
    ensures Owners(Apply(s, tx).0, o) != {}
  {
    if tx.SetStatus? || tx.Remove? || tx.ReplaceRoles? {
      var x := GuardedKeepsAnOwner(s, tx, o, own);
    } else {
      var x :| x in Owners(s, o);
      OthersKeepOwners(s, tx, o, x);
    }
  }

  lemma {:induction false} OnlyOwner(s: Store, o: Id, m: Id)
    ensures (m in Owners(s, o) && |Owners(s, o)| <= 1) <==> Owners(s, o) == {m}
  {
    if m in Owners(s, o) && |Owners(s, o)| <= 1 {
      assert |Owners(s, o) - {m}| == |Owners(s, o)| - 1;
      assert Owners(s, o) - {m} == {};
    }
  }

  // The three guarded changes are refused for the last owner's sake exactly when
  // they take the capability from the one owner there is; they go through exactly
  // when the membership is there and that is not so, and then no other row moves.
  lemma {:induction false} LastOwnerRefusedIff(s: Store, tx: Tx)
    requires tx.SetStatus? || tx.Remove? || tx.ReplaceRoles?
    ensures Apply(s, tx).1 == Err(ErrLastOwner) <==> OrgLive(s, tx.org) && tx.losing && Owners(s, tx.org) == {tx.member}
    ensures Apply(s, tx).1 == Done
            <==> OrgLive(s, tx.org) && tx.member in s.members && s.members[tx.member].org == tx.org
                 && !(tx.losing && Owners(s, tx.org) == {tx.member})
                     && (tx.ReplaceRoles? ==> RolesOwned(s, tx.org, tx.roles))
    ensures var s' := Apply(s, tx).0;
            && s' == s.(members := s'.members)
            && (forall m | m != tx.member :: m in s'.members <==> m in s.members)
            && (forall m | m != tx.member && m in s.members :: s'.members[m] == s.members[m])
    ensures Apply(s, tx).1 == Done ==>
              var s', m := Apply(s, tx).0, tx.member;
              match tx
              case SetStatus(_, _, status, _) => m in s'.members && s'.members[m] == s.members[m].(status := status)
              case ReplaceRoles(_, _, ids, _) => m in s'.members && s'.members[m] == s.members[m].(roles := ids)
              case _ => m !in s'.members
  {
    OnlyOwner(s, tx.org, tx.member);
  }

  // A transaction that commits and whose row is then not found again: a deleted
  // account joined, or an invitation sent or reissued for a retired organization.
  predicate CommitsUnseen(s: Store, tx: Tx) {
    match tx
    case AddMember(o, user, ids, id, _) =>
      && !Joined(s, o, user) && user in s.accounts && o in s.orgs && RolesOwned(s, o, ids) && id !in s.members
      && !AccountLive(s, user)
    case InviteMember(o, email, h, ids, expires, id) =>
      && !AddressJoined(s, o, email) && !AddressInvited(s, o, email) && !HashTaken(s, h)
      && o in s.orgs && id !in s.invitations && RolesOwned(s, o, ids) && !OrgLive(s, o)
    case Reissue(o, i, h, expires) =>
      && Open(s, o, i) && (forall j :: j in s.invitations && j != i ==> s.invitations[j].hash != h)
      && (s.invitations[i].hash != h || s.invitations[i].expires != expires) && !OrgLive(s, o)
    case _ => false
  }

  // A refused transaction leaves the store as it was, with exactly three
  // exceptions: the write stands, and reading it back finds nothing.
  lemma {:induction false} RefusedChangesNothing(s: Store, tx: Tx)
    requires Apply(s, tx).1 != Done
    ensures Apply(s, tx).0 == s <==> !CommitsUnseen(s, tx)
    ensures CommitsUnseen(s, tx) ==> Apply(s, tx).1 == Err(ErrNotFound)
  {
    var s' := Apply(s, tx).0;
    match tx
    case AddMember(_, _, _, id, _) => assert CommitsUnseen(s, tx) ==> id in s'.members && id !in s.members;
    case InviteMember(_, _, _, _, _, id) => assert CommitsUnseen(s, tx) ==>
        id in s'.invitations && id !in s.invitations;
    case Reissue(_, i, h, expires) => ReissueUnseen(s, tx);
    case _ =>
  }

  lemma {:induction false} ReissueUnseen(s: Store, tx: Tx)
    requires tx.Reissue? && Apply(s, tx).1 != Done
    ensures Apply(s, tx).0 == s <==> !CommitsUnseen(s, tx)
    ensures CommitsUnseen(s, tx) ==> Apply(s, tx).1 == Err(ErrNotFound)
  {
    var s' := Apply(s, tx).0;
    if Open(s, tx.org, tx.inv) && s'.invitations != s.invitations {
      assert s'.invitations[tx.inv] == s.invitations[tx.inv].(hash := tx.hash, expires := tx.expires);
    }
    if CommitsUnseen(s, tx) {
      assert s'.invitations[tx.inv] != s.invitations[tx.inv];
    } else if Open(s, tx.org, tx.inv) {
      assert s.invitations[tx.inv := s.invitations[tx.inv]] == s.invitations;
    }
  }

  // What runs keep about one organization and its owner role.
  ghost predicate Governed(w: World, o: Id, own: Id) {
    Sane(w) && OwnerRole(w.store, o, own) && NoEdit(w, own) && AllHonest(w, o, own)
  }

  lemma {:induction false} DoStaysHonest(w: World, a: Action, o: Id, own: Id)
    requires Governed(w, o, own)
    ensures AllHonest(Do(w, a), o, own)
  {
    if a.Step? && a.n in w.calls && !w.calls[a.n].Ready? {
      NextIsHonest(w.store, w.calls[a.n], a.now, a.token, o, own);
    }
  }

  lemma {:induction false} DoStaysGoverned(w: World, a: Action, o: Id, own: Id)
    requires Governed(w, o, own)
    ensures Governed(Do(w, a), o, own)
  {
    DoStaysSane(w, a);
    DoKeepsShipped(w, a, own);
    DoStaysHonest(w, a, o, own);
  }

  lemma {:induction false} RunStaysGoverned(w: World, actions: seq<Action>, o: Id, own: Id)
    requires Start(w) && OwnerRole(w.store, o, own)
    ensures Governed(Run(w, actions), o, own)
  {
    if actions != [] {
      RunStaysGoverned(w, actions[..|actions| - 1], o, own);
      DoStaysGoverned(Run(w, actions[..|actions| - 1]), actions[|actions| - 1], o, own);
    }
  }

  // The losing flag a role replacement fixed before its transaction is still
  // right whenever that transaction runs.
  lemma {:induction false} LosingFlagStaysRight(w: World, actions: seq<Action>, o: Id, own: Id, n: nat)
    requires Start(w) && OwnerRole(w.store, o, own)
    requires var end := Run(w, actions);
             n in end.calls && end.calls[n].Ready? && end.calls[n].tx.ReplaceRoles? && end.calls[n].tx.org == o
    ensures var end := Run(w, actions);
            end.calls[n].tx.losing
            <==> forall r :: r in end.calls[n].tx.roles ==>
                !(IsRole(end.store, o, r) && end.store.roles[r].key == OWNER)
  {
    RunStaysGoverned(w, actions, o, own);
    OnlyOwnerRole(Run(w, actions).store, o, own);
    var end := Run(w, actions);
    assert Honest(end.calls[n], o, own);
    forall r | IsRole(end.store, o, r) && end.store.roles[r].key == OWNER ensures r == own {
      assert r in RolesNamed(end.store, o, OWNER);
    }
  }

  lemma {:induction false} StepKeepsAnOwner(w: World, a: Action, o: Id, own: Id)
    requires Governed(w, o, own) && Owners(w.store, o) != {} && a.Step?
    ensures Owners(Do(w, a).store, o) != {}
  {
    if a.n in w.calls && w.calls[a.n].Ready? {
      assert Honest(w.calls[a.n], o, own);
      ApplyKeepsAnOwner(w.store, WithId(w.calls[a.n].tx, a.id), o, own);
    }
  }

  lemma {:induction false} DeletionEndsOnlyOwnOwnership(s: Store, user: Id, o: Id, m: Id)
    requires m in Owners(s, o) && s.members[m].user != user
    ensures m in Owners(Apply(s, DeleteAccount(user)).0, o)
  {
    OwnerUntouched(s, Apply(s, DeleteAccount(user)).0, o, m);
  }

  // Only deleting the account of the one remaining owner leaves an organization
  // without one.
  lemma {:induction false} OnlyDeletionEndsOwnership(w: World, a: Action, o: Id, own: Id)
    requires Governed(w, o, own) && Owners(w.store, o) != {} && Owners(Do(w, a).store, o) == {}
    ensures a.Elsewhere? && a.tx.DeleteAccount?
    ensures forall m :: m in Owners(w.store, o) ==> w.store.members[m].user == a.tx.user
  {
    if a.Step? {
      StepKeepsAnOwner(w, a, o, own);
    } else if a.Elsewhere? && IsElsewhere(a.tx) {
      if a.tx.DeleteAccount? {
        forall m | m in Owners(w.store, o) ensures w.store.members[m].user == a.tx.user {
          if w.store.members[m].user != a.tx.user {
            DeletionEndsOnlyOwnOwnership(w.store, a.tx.user, o, m);
          }
        }
      } else {
        ApplyKeepsAnOwner(w.store, a.tx, o, own);
      }
    }
  }

  // However many requests overlap, an organization that has an active owner with
  // a live account keeps one until an account is deleted.
  lemma {:induction false} LastOwnerKept(w: World, actions: seq<Action>, o: Id, own: Id)
    requires Start(w) && OwnerRole(w.store, o, own) && Owners(w.store, o) != {}
    requires forall a :: a in actions ==> !(a.Elsewhere? && a.tx.DeleteAccount?)
    ensures Owners(Run(w, actions).store, o) != {}
  {
    if actions != [] {
      var n := |actions| - 1;
      var before := Run(w, actions[..n]);
      LastOwnerKept(w, actions[..n], o, own);
      RunStaysGoverned(w, actions[..n], o, own);
      if Owners(Do(before, actions[n]).store, o) == {} {
        OnlyDeletionEndsOwnership(before, actions[n], o, own);
      }
    }
  }

  // ------------------------------------------------------------ grantOwnership

  // Appointing an owner can succeed and leave no active owner behind: it does so
  // exactly when the account already was a suspended member.
  lemma {:induction false} AppointedIsActiveIff(s: Store, o: Id, user: Id, own: Id, now: int, id: Id, token: Token)
    requires Unique(s) && OwnerRole(s, o, own)
    requires Alone(s, OwnA(o, user), now, id, token).1 == Done
    ensures var s' := Alone(s, OwnA(o, user), now, id, token).0;
            (exists m :: m in Owners(s', o) && s'.members[m].user == user)
            <==> (forall m :: IsMember(s, o, m) && s.members[m].user == user ==> s.members[m].status == Active)
  {
    OnlyOwnerRole(s, o, own);
    AloneOwn(s, o, user, now, id, token);
    var found := MemberOf(s, o, user);
    if found.Some? {
      MemberAppointed(s, o, user, own, found.value);
    } else {
      StrangerAppointed(s, o, user, own, id);
    }
  }

  lemma {:induction false} MemberAppointed(s: Store, o: Id, user: Id, own: Id, m: Id)
    requires Unique(s) && OwnerRole(s, o, own) && IsMember(s, o, m) && s.members[m].user == user
    requires Apply(s, ReplaceRoles(o, m, {own}, false)).1 == Done
    ensures var s' := Apply(s, ReplaceRoles(o, m, {own}, false)).0;
            (exists n :: n in Owners(s', o) && s'.members[n].user == user) <==> s.members[m].status == Active
    ensures forall n :: IsMember(s, o, n) && s.members[n].user == user ==> n == m
  {
    var s' := Apply(s, ReplaceRoles(o, m, {own}, false)).0;
    assert own in s'.members[m].roles && s'.roles[own].key == OWNER;
    assert m in Owners(s', o) <==> s.members[m].status == Active;
    assert forall n :: n in s'.members && s'.members[n].org == o && s'.members[n].user == user ==> n == m;
  }

  lemma {:induction false} StrangerAppointed(s: Store, o: Id, user: Id, own: Id, id: Id)
    requires OwnerRole(s, o, own) && forall m :: IsMember(s, o, m) ==> s.members[m].user != user
    requires Apply(s, AddMember(o, user, {own}, id, false)).1 == Done
    ensures var s' := Apply(s, AddMember(o, user, {own}, id, false)).0;
            id in Owners(s', o) && s'.members[id].user == user
  {
    var s' := Apply(s, AddMember(o, user, {own}, id, false)).0;
    assert own in s'.members[id].roles && s'.roles[own].key == OWNER;
  }
}
