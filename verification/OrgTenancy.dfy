/**
  Tenant isolation: what runs under grants for one organization can see, and
  what they can touch.
 */
module OrgTenancy {
  import opened Authz
  import opened OrgStore
  import opened OrgCalls
  import opened OrgSafety
  import opened OrgInvitations

  // The rows of organization a.
  function OrgRow(s: Store, a: Id): Option<Org> { if a in s.orgs then Some(s.orgs[a]) else None }

  function MemberRow(s: Store, a: Id, m: Id): Option<Member> {
    if m in s.members && s.members[m].org == a then Some(s.members[m]) else None
  }

  function RoleRow(s: Store, a: Id, r: Id): Option<Role> {
    if r in s.roles && s.roles[r].org == a then Some(s.roles[r]) else None
  }

  function InvitationRow(s: Store, a: Id, i: Id): Option<Invitation> {
    if i in s.invitations && s.invitations[i].org == a then Some(s.invitations[i]) else None
  }

  ghost predicate SameMembers(s: Store, t: Store, a: Id) { forall m :: MemberRow(s, a, m) == MemberRow(t, a, m) }
  ghost predicate SameRoles(s: Store, t: Store, a: Id) { forall r :: RoleRow(s, a, r) == RoleRow(t, a, r) }
  ghost predicate SameInvitations(s: Store, t: Store, a: Id) {
    forall i :: InvitationRow(s, a, i) == InvitationRow(t, a, i)
  }

  // The two stores hold the same rows of organization a.
  ghost predicate SameRows(s: Store, t: Store, a: Id) {
    OrgRow(s, a) == OrgRow(t, a) && SameMembers(s, t, a) && SameRoles(s, t, a) && SameInvitations(s, t, a)
  }

  ghost predicate Agree(s: Store, t: Store, a: Id) { SameRows(s, t, a) && s.accounts == t.accounts }

  // Transactions asked for under grants for a, or on the accounts.
  predicate TxFor(tx: Tx, a: Id) {
    match tx
    case SetStatus(o, _, _, _) => o == a
    case Remove(o, _, _) => o == a
    case ReplaceRoles(o, _, _, _) => o == a
    case AddMember(o, _, _, _, _) => o == a
    case CreateRole(o, _, _, _) => o == a
    case ReplacePerms(o, _, _) => o == a
    case DeleteRole(o, _) => o == a
    case InviteMember(o, _, _, _, _, _) => o == a
    case Reissue(o, _, _, _) => o == a
    case Withdraw(o, _) => o == a
    case DeleteOrg(o) => o == a
    case CreateAccount(_, _) => true
    case ChangeEmail(_, _) => true
    case DeleteAccount(_) => true
    case _ => false
  }

  // Its new row has an unused id and, for an invitation, an unused token.
  ghost predicate New(s: Store, tx: Tx) {
    NewIds(tx) !! RowIds(s) && (Mints(Ready(tx)).Some? ==> !InUse(s, Mints(Ready(tx)).value))
  }

  // ------------------------------------------------- reads see the same thing

  lemma {:induction false} SameMember(s: Store, t: Store, a: Id, m: Id)
    requires Agree(s, t, a)
    ensures IsMember(s, a, m) == IsMember(t, a, m)
    ensures (m in s.members && s.members[m].org == a) == (m in t.members && t.members[m].org == a)
    ensures m in s.members && s.members[m].org == a ==> s.members[m] == t.members[m]
  {
    assert MemberRow(s, a, m) == MemberRow(t, a, m);
  }

  lemma {:induction false} SameRole(s: Store, t: Store, a: Id, r: Id)
    requires Agree(s, t, a)
    ensures IsRole(s, a, r) == IsRole(t, a, r)
    ensures IsRole(s, a, r) ==> s.roles[r] == t.roles[r]
  {
    assert RoleRow(s, a, r) == RoleRow(t, a, r);
  }

  lemma {:induction false} SameOwned(s: Store, t: Store, a: Id, ids: set<Id>)
    requires Agree(s, t, a)
    ensures RolesOwned(s, a, ids) == RolesOwned(t, a, ids)
  {
    forall r ensures IsRole(s, a, r) == IsRole(t, a, r) { SameRole(s, t, a, r); }
  }

  lemma {:induction false} SameNamed(s: Store, t: Store, a: Id, key: string)
    requires Agree(s, t, a)
    ensures RolesNamed(s, a, key) == RolesNamed(t, a, key)
  {
    forall r ensures r in RolesNamed(s, a, key) <==> r in RolesNamed(t, a, key) { SameRole(s, t, a, r); }
  }

  // A membership holds only roles of its own organization, so what it carries is
  // visible there.
  lemma {:induction false} CarriedWithin(s: Store, t: Store, a: Id, m: Id)
    requires Agree(s, t, a) && Linked(s)
    ensures m in s.members && s.members[m].org == a ==>
              forall r :: r in s.members[m].roles ==> r in s.roles && r in t.roles && s.roles[r] == t.roles[r]
  {
    if m in s.members && s.members[m].org == a {
      assert RolesOwned(s, a, s.members[m].roles);
      forall r | r in s.members[m].roles ensures r in s.roles && r in t.roles && s.roles[r] == t.roles[r] {
        SameRole(s, t, a, r);
      }
    }
  }

  lemma {:induction false} SamePerms(s: Store, t: Store, a: Id, m: Id)
    requires Agree(s, t, a) && Linked(s)
    ensures MemberPerms(s, a, m) == MemberPerms(t, a, m)
  {
    SameMember(s, t, a, m);
    CarriedWithin(s, t, a, m);
  }

  lemma {:induction false} SameOwner(s: Store, t: Store, a: Id, m: Id)
    requires Agree(s, t, a) && Linked(s)
    ensures (m in s.members && IsOwner(s, a, m)) == (m in t.members && IsOwner(t, a, m))
  {
    SameMember(s, t, a, m);
    CarriedWithin(s, t, a, m);
  }

  lemma {:induction false} SameGuard(s: Store, t: Store, a: Id, m: Id, losing: bool)
    requires Agree(s, t, a) && Linked(s)
    ensures Guarded(s, a, m, losing) == Guarded(t, a, m, losing)
  {
    forall x ensures x in Owners(s, a) <==> x in Owners(t, a) { SameOwner(s, t, a, x); }
    assert Owners(s, a) == Owners(t, a);
  }

  lemma {:induction false} SameGrant(s: Store, t: Store, a: Id, user: Id)
    requires Agree(s, t, a) && Linked(s)
    ensures GrantIn(s, user, a) == GrantIn(t, user, a)
  {
    forall p ensures p in GrantIn(s, user, a).perms <==> p in GrantIn(t, user, a).perms {
      forall m ensures (m in s.members && ActiveIn(s, user, a, m) && p in MemberPerms(s, a, m) && Known(p))
                       <==> (m in t.members && ActiveIn(t, user, a, m) && p in MemberPerms(t, a, m) && Known(p)) {
        SameMember(s, t, a, m);
        SamePerms(s, t, a, m);
      }
    }
  }

  lemma {:induction false} SameMayAssign(s: Store, t: Store, g: Grant, r: Id)
    requires Agree(s, t, g.org)
    ensures MayAssign(s, g, r) == MayAssign(t, g, r)
  {
    SameRole(s, t, g.org, r);
  }

  lemma {:induction false} SameMemberOf(s: Store, t: Store, a: Id, user: Id)
    requires Agree(s, t, a) && Unique(s)
    ensures MemberOf(s, a, user) == MemberOf(t, a, user)
  {
    forall m ensures IsMember(s, a, m) == IsMember(t, a, m) && (IsMember(s, a, m) ==> s.members[m] == t.members[m]) {
      SameMember(s, t, a, m);
    }
  }

  // Reads made on behalf of organization a.
  predicate CallFor(c: Call, a: Id) {
    match c
    case StatusA(g, _, _) => g.org == a
    case StatusB(g, _, _) => g.org == a
    case RemoveA(g, _) => g.org == a
    case RemoveB(g, _) => g.org == a
    case RolesA(g, _, _) => g.org == a
    case RolesB(g, _, _) => g.org == a
    case RolesC(g, _, _, _) => g.org == a
    case CreateA(g, _, _) => g.org == a
    case PermsA(g, _, _) => g.org == a
    case DeleteA(g, _) => g.org == a
    case InviteA(g, _, _, _) => g.org == a
    case ReissueA(g, _) => g.org == a
    case WithdrawA(g, _) => g.org == a
    case AppointA(o, _) => o == a
    case OwnA(o, _) => o == a
    case OwnB(o, _, _) => o == a
    case Ready(tx) => TxFor(tx, a)
    case Finished(_) => true
    case _ => false
  }

  lemma {:induction false} NextStaysFor(s: Store, c: Call, now: int, token: Token, a: Id)
    requires CallFor(c, a)
    ensures CallFor(Next(s, c, now, token), a)
  {
  }

  lemma {:induction false} NextAgrees(s: Store, t: Store, c: Call, now: int, token: Token, a: Id)
    requires Agree(s, t, a) && Linked(s) && Unique(s) && CallFor(c, a)
    ensures Next(s, c, now, token) == Next(t, c, now, token)
  {
    match c
    case StatusA(g, m, _) => SameMember(s, t, a, m);
    case StatusB(g, m, _) => SamePerms(s, t, a, m);
    case RemoveA(g, m) => SameMember(s, t, a, m);
    case RemoveB(g, m) => SamePerms(s, t, a, m);
    case RolesA(g, m, _) => SameMember(s, t, a, m);
    case RolesB(g, m, _) => SamePerms(s, t, a, m);
    case RolesC(g, _, ids, k) => SameNamed(s, t, a, OWNER); if k < |ids| { SameMayAssign(s, t, g, ids[k]); }
    case PermsA(_, r, _) => SameRole(s, t, a, r);
    case DeleteA(_, r) => SameRole(s, t, a, r);
    case InviteA(g, _, ids, k) => if k < |ids| { SameMayAssign(s, t, g, ids[k]); }
    case AppointA(_, _) =>
    case OwnA(_, _) => SameNamed(s, t, a, OWNER);
    case OwnB(_, user, _) => SameMemberOf(s, t, a, user);
    case _ =>
  }

  // ---------------------------------------------------------- one transaction

  ghost predicate Alike(s: Store, t: Store, tx: Tx, a: Id) {
    Apply(s, tx).1 == Apply(t, tx).1 && Agree(Apply(s, tx).0, Apply(t, tx).0, a)
  }

  // Both stores change the same one membership, or neither does.
  lemma {:induction false} MembershipsAlike(s: Store, t: Store, tx: Tx, a: Id)
    requires Agree(s, t, a) && Linked(s) && TxFor(tx, a) && (tx.SetStatus? || tx.Remove? || tx.ReplaceRoles?)
    ensures Alike(s, t, tx, a)
  {
    SameAnswer(s, t, tx, a);
    forall m ensures MemberRow(Apply(s, tx).0, a, m) == MemberRow(Apply(t, tx).0, a, m) {
      assert MemberRow(s, a, m) == MemberRow(t, a, m);
      SubjectRow(s, tx, a, m);
      SubjectRow(t, tx, a, m);
    }
    MembersOnly(s, tx);
    MembersOnly(t, tx);
    SameTables(s, t, Apply(s, tx).0, Apply(t, tx).0, a);
  }

  lemma {:induction false} SameAnswer(s: Store, t: Store, tx: Tx, a: Id)
    requires Agree(s, t, a) && Linked(s) && TxFor(tx, a) && (tx.SetStatus? || tx.Remove? || tx.ReplaceRoles?)
    ensures Apply(s, tx).1 == Apply(t, tx).1
  {
    SameGuard(s, t, a, tx.member, tx.losing);
    SameMember(s, t, a, tx.member);
    if tx.ReplaceRoles? { SameOwned(s, t, a, tx.roles); }
  }

  // What one of the guarded changes does to each row.
  lemma {:induction false} SubjectRow(s: Store, tx: Tx, a: Id, m: Id)
    requires TxFor(tx, a) && (tx.SetStatus? || tx.Remove? || tx.ReplaceRoles?)
    ensures var was, now := MemberRow(s, a, m), MemberRow(Apply(s, tx).0, a, m);
            if Apply(s, tx).1 != Done || m != tx.member then now == was
            else was.Some? && now == match tx {
              case SetStatus(_, _, status, _) => Some(was.value.(status := status))
              case ReplaceRoles(_, _, ids, _) => Some(was.value.(roles := ids))
              case _ => None
            }
  {
  }

  lemma {:induction false} MembersOnly(s: Store, tx: Tx)
    requires tx.SetStatus? || tx.Remove? || tx.ReplaceRoles?
    ensures Apply(s, tx).0 == s.(members := Apply(s, tx).0.members)
  {
  }

  // Tables a transaction did not touch still agree.
  lemma {:induction false} SameTables(s: Store, t: Store, s': Store, t': Store, a: Id)
    requires Agree(s, t, a)
    ensures s'.orgs == s.orgs && t'.orgs == t.orgs ==> OrgRow(s', a) == OrgRow(t', a)
    ensures s'.members == s.members && t'.members == t.members ==> SameMembers(s', t', a)
    ensures s'.roles == s.roles && t'.roles == t.roles ==> SameRoles(s', t', a)
    ensures s'.invitations == s.invitations && t'.invitations == t.invitations ==> SameInvitations(s', t', a)
  {
    if s'.members == s.members && t'.members == t.members {
      forall m ensures MemberRow(s', a, m) == MemberRow(t', a, m) { assert MemberRow(s, a, m) == MemberRow(t, a, m); }
    }
    if s'.roles == s.roles && t'.roles == t.roles {
      forall r ensures RoleRow(s', a, r) == RoleRow(t', a, r) { assert RoleRow(s, a, r) == RoleRow(t, a, r); }
    }
    if s'.invitations == s.invitations && t'.invitations == t.invitations {
      forall i ensures InvitationRow(s', a, i) == InvitationRow(t', a, i) {
        assert InvitationRow(s, a, i) == InvitationRow(t, a, i);
      }
    }
  }

  lemma {:induction false} JoiningAlike(s: Store, t: Store, tx: Tx, a: Id)
    requires Agree(s, t, a) && TxFor(tx, a) && New(s, tx) && New(t, tx) && tx.AddMember?
    ensures Alike(s, t, tx, a)
  {
    var s', t' := Apply(s, tx).0, Apply(t, tx).0;
    SameOwned(s, t, a, tx.roles);
    assert OrgRow(s, a) == OrgRow(t, a);
    assert tx.id !in RowIds(s) && tx.id !in RowIds(t);
    SameJoined(s, t, a, tx.user);
    forall m ensures MemberRow(s', a, m) == MemberRow(t', a, m) {
      assert MemberRow(s, a, m) == MemberRow(t, a, m);
    }
    SameTables(s, t, s', t', a);
  }

  lemma {:induction false} SameJoined(s: Store, t: Store, a: Id, user: Id)
    requires Agree(s, t, a)
    ensures Joined(s, a, user) == Joined(t, a, user)
  {
    forall m ensures (m in s.members && s.members[m].org == a && s.members[m].user == user)
                     == (m in t.members && t.members[m].org == a && t.members[m].user == user) {
      SameMember(s, t, a, m);
    }
  }

  lemma {:induction false} CreationAlike(s: Store, t: Store, tx: Tx, a: Id)
    requires Agree(s, t, a) && New(s, tx) && New(t, tx) && tx.CreateRole? && tx.org == a
    ensures Alike(s, t, tx, a)
  {
    var s', t' := Apply(s, tx).0, Apply(t, tx).0;
    SameCreation(s, t, tx, a);
    forall r ensures RoleRow(s', a, r) == RoleRow(t', a, r) {
      assert RoleRow(s, a, r) == RoleRow(t, a, r);
    }
    SameTables(s, t, s', t', a);
  }

  lemma {:induction false} SameCreation(s: Store, t: Store, tx: Tx, a: Id)
    requires Agree(s, t, a) && New(s, tx) && New(t, tx) && tx.CreateRole? && tx.org == a
    ensures Apply(s, tx).1 == Apply(t, tx).1
    ensures Apply(s, tx).0.orgs == s.orgs && Apply(s, tx).0.members == s.members
    ensures Apply(s, tx).0.invitations == s.invitations && Apply(s, tx).0.accounts == s.accounts
  {
    SameNamed(s, t, a, tx.key);
    assert OrgRow(s, a) == OrgRow(t, a);
    assert tx.id !in RowIds(s) && tx.id !in RowIds(t);
  }

  lemma {:induction false} RewriteAlike(s: Store, t: Store, a: Id, r: Id, perms: seq<Permission>)
    requires Agree(s, t, a)
    ensures Alike(s, t, ReplacePerms(a, r, perms), a)
  {
    var s', t' := ReplacePermsTx(s, a, r, perms).0, ReplacePermsTx(t, a, r, perms).0;
    SameRole(s, t, a, r);
    forall q ensures RoleRow(s', a, q) == RoleRow(t', a, q) {
      assert RoleRow(s, a, q) == RoleRow(t, a, q);
    }
    SameTables(s, t, s', t', a);
  }

  lemma {:induction false} SameHolders(s: Store, t: Store, a: Id, r: Id)
    requires Agree(s, t, a) && Linked(s) && Linked(t) && IsRole(s, a, r)
    ensures Holders(s, r) == Holders(t, r)
  {
    SameRole(s, t, a, r);
    forall m ensures m in Holders(s, r) <==> m in Holders(t, r) {
      SameMember(s, t, a, m);
    }
  }

  lemma {:induction false} DeletionAlike(s: Store, t: Store, a: Id, r: Id)
    requires Agree(s, t, a) && Linked(s) && Linked(t)
    ensures Alike(s, t, DeleteRole(a, r), a)
  {
    var s', t' := Apply(s, DeleteRole(a, r)).0, Apply(t, DeleteRole(a, r)).0;
    SameRole(s, t, a, r);
    assert OrgRow(s, a) == OrgRow(t, a);
    if IsRole(s, a, r) { SameHolders(s, t, a, r); }
    forall q ensures RoleRow(s', a, q) == RoleRow(t', a, q) {
      assert RoleRow(s, a, q) == RoleRow(t, a, q);
    }
    forall i ensures InvitationRow(s', a, i) == InvitationRow(t', a, i) {
      assert InvitationRow(s, a, i) == InvitationRow(t, a, i);
    }
    SameTables(s, t, s', t', a);
  }

  lemma {:induction false} SameAddress(s: Store, t: Store, a: Id, email: string)
    requires Agree(s, t, a)
    ensures AddressJoined(s, a, email) == AddressJoined(t, a, email)
    ensures AddressInvited(s, a, email) == AddressInvited(t, a, email)
  {
    forall m
      ensures (m in s.members && s.members[m].org == a && s.members[m].user in s.accounts
              && s.accounts[s.members[m].user].email == email)
                     == (m in t.members && t.members[m].org == a && t.members[m].user in t.accounts
                         && t.accounts[t.members[m].user].email == email) {
      SameMember(s, t, a, m);
    }
    forall i ensures (i in s.invitations && s.invitations[i].org == a && s.invitations[i].email == email)
                     == (i in t.invitations && t.invitations[i].org == a && t.invitations[i].email == email) {
      assert InvitationRow(s, a, i) == InvitationRow(t, a, i);
    }
  }

  lemma {:induction false} InvitingAlike(s: Store, t: Store, tx: Tx, a: Id)
    requires Agree(s, t, a) && TxFor(tx, a) && New(s, tx) && New(t, tx) && tx.InviteMember?
    ensures Alike(s, t, tx, a)
  {
    var s', t' := Apply(s, tx).0, Apply(t, tx).0;
    SameInvitation(s, t, tx, a);
    InvitedRow(s, tx, a);
    InvitedRow(t, tx, a);
    forall i ensures InvitationRow(s', a, i) == InvitationRow(t', a, i) {
      assert InvitationRow(s, a, i) == InvitationRow(t, a, i);
    }
    SameTables(s, t, s', t', a);
  }

  // The transaction writes a new invitation, whatever it is answered.
  predicate Sends(s: Store, tx: Tx)
    requires tx.InviteMember?
  {
    && !AddressJoined(s, tx.org, tx.email) && !AddressInvited(s, tx.org, tx.email) && !HashTaken(s, tx.hash)
    && tx.org in s.orgs && tx.id !in s.invitations && RolesOwned(s, tx.org, tx.roles)
  }

  // What inviting does to each row, and that it leaves every other table alone.
  lemma {:induction false} InvitedRow(s: Store, tx: Tx, a: Id)
    requires TxFor(tx, a) && tx.InviteMember?
    ensures Apply(s, tx).0 == s.(invitations := Apply(s, tx).0.invitations)
    ensures forall i :: InvitationRow(Apply(s, tx).0, a, i)
              == if Sends(s, tx) && i == tx.id
                 then Some(Invitation(a, tx.email, tx.hash, tx.expires, false, tx.roles)) else InvitationRow(s, a, i)
  {
  }

  lemma {:induction false} SameInvitation(s: Store, t: Store, tx: Tx, a: Id)
    requires Agree(s, t, a) && TxFor(tx, a) && New(s, tx) && New(t, tx) && tx.InviteMember?
    ensures Apply(s, tx).1 == Apply(t, tx).1 && Sends(s, tx) == Sends(t, tx)
  {
    SameAddress(s, t, a, tx.email);
    SameOwned(s, t, a, tx.roles);
    assert OrgRow(s, a) == OrgRow(t, a);
    assert tx.id !in RowIds(s) && tx.id !in RowIds(t);
  }

  lemma {:induction false} ReissueAlike(s: Store, t: Store, a: Id, i: Id, h: TokenHash, expires: int)
    requires Agree(s, t, a) && !HashTaken(s, h) && !HashTaken(t, h)
    ensures Alike(s, t, Reissue(a, i, h, expires), a)
  {
    var s', t' := ReissueTx(s, a, i, h, expires).0, ReissueTx(t, a, i, h, expires).0;
    assert InvitationRow(s, a, i) == InvitationRow(t, a, i) && OrgRow(s, a) == OrgRow(t, a);
    forall k ensures InvitationRow(s', a, k) == InvitationRow(t', a, k) {
      assert InvitationRow(s, a, k) == InvitationRow(t, a, k);
    }
    SameTables(s, t, s', t', a);
  }

  lemma {:induction false} WithdrawAlike(s: Store, t: Store, a: Id, i: Id)
    requires Agree(s, t, a)
    ensures Alike(s, t, Withdraw(a, i), a)
  {
    var s', t' := WithdrawTx(s, a, i).0, WithdrawTx(t, a, i).0;
    assert InvitationRow(s, a, i) == InvitationRow(t, a, i);
    forall k ensures InvitationRow(s', a, k) == InvitationRow(t', a, k) {
      assert InvitationRow(s, a, k) == InvitationRow(t, a, k);
    }
    SameTables(s, t, s', t', a);
  }

  lemma {:induction false} ClosureAlike(s: Store, t: Store, a: Id)
    requires Agree(s, t, a)
    ensures Alike(s, t, DeleteOrg(a), a)
  {
    assert OrgRow(s, a) == OrgRow(t, a);
    SameTables(s, t, DeleteOrgTx(s, a).0, DeleteOrgTx(t, a).0, a);
  }

  // On the accounts both stores do the same thing, and their other tables stay.
  lemma {:induction false} AccountsAlike(s: Store, t: Store, tx: Tx, a: Id)
    requires Agree(s, t, a) && (tx.CreateAccount? || tx.ChangeEmail? || tx.DeleteAccount?)
    ensures Alike(s, t, tx, a)
  {
    AccountsOnly(s, tx);
    AccountsOnly(t, tx);
    SameAccounts(s, t, tx);
    SameTables(s, t, Apply(s, tx).0, Apply(t, tx).0, a);
    assert OrgRow(s, a) == OrgRow(t, a);
  }

  lemma {:induction false} SameAccounts(s: Store, t: Store, tx: Tx)
    requires s.accounts == t.accounts && (tx.CreateAccount? || tx.ChangeEmail? || tx.DeleteAccount?)
    ensures Apply(s, tx).1 == Apply(t, tx).1 && Apply(s, tx).0.accounts == Apply(t, tx).0.accounts
  {
  }

  lemma {:induction false} AccountsOnly(s: Store, tx: Tx)
    requires tx.CreateAccount? || tx.ChangeEmail? || tx.DeleteAccount?
    ensures Apply(s, tx).0 == s.(accounts := Apply(s, tx).0.accounts)
  {
  }

  lemma {:induction false} ApplyAlike(s: Store, t: Store, tx: Tx, a: Id)
    requires Agree(s, t, a) && Linked(s) && Linked(t) && TxFor(tx, a) && New(s, tx) && New(t, tx)
    ensures Alike(s, t, tx, a)
  {
    match tx
    case AddMember(_, _, _, _, _) => JoiningAlike(s, t, tx, a);
    case CreateRole(_, _, _, _) => CreationAlike(s, t, tx, a);
    case ReplacePerms(_, r, perms) => RewriteAlike(s, t, a, r, perms);
    case DeleteRole(_, r) => DeletionAlike(s, t, a, r);
    case InviteMember(_, _, _, _, _, _) => InvitingAlike(s, t, tx, a);
    case Reissue(_, i, h, expires) => ReissueAlike(s, t, a, i, h, expires);
    case Withdraw(_, i) => WithdrawAlike(s, t, a, i);
    case DeleteOrg(_) => ClosureAlike(s, t, a);
    case CreateAccount(_, _) => AccountsAlike(s, t, tx, a);
    case ChangeEmail(_, _) => AccountsAlike(s, t, tx, a);
    case DeleteAccount(_) => AccountsAlike(s, t, tx, a);
    case _ => MembershipsAlike(s, t, tx, a);
  }

  // Every row of every other organization is left as it was.
  lemma {:induction false} OthersUntouched(s: Store, tx: Tx, a: Id, b: Id)
    requires Linked(s) && TxFor(tx, a) && New(s, tx) && b != a
    ensures SameRows(Apply(s, tx).0, s, b)
  {
    var s' := Apply(s, tx).0;
    forall m ensures MemberRow(s', b, m) == MemberRow(s, b, m) { MemberUntouched(s, tx, a, b, m); }
    forall r ensures RoleRow(s', b, r) == RoleRow(s, b, r) { RoleUntouched(s, tx, a, b, r); }
    forall i ensures InvitationRow(s', b, i) == InvitationRow(s, b, i) { InvitationUntouched(s, tx, a, b, i); }
  }

  lemma {:induction false} MemberUntouched(s: Store, tx: Tx, a: Id, b: Id, m: Id)
    requires TxFor(tx, a) && New(s, tx) && b != a
    ensures MemberRow(Apply(s, tx).0, b, m) == MemberRow(s, b, m)
  {
  }

  lemma {:induction false} RoleUntouched(s: Store, tx: Tx, a: Id, b: Id, r: Id)
    requires TxFor(tx, a) && New(s, tx) && b != a
    ensures RoleRow(Apply(s, tx).0, b, r) == RoleRow(s, b, r)
  {
  }

  // A deleted role is struck from invitations, but only its own organization's
  // name it.
  lemma {:induction false} InvitationUntouched(s: Store, tx: Tx, a: Id, b: Id, i: Id)
    requires Linked(s) && TxFor(tx, a) && New(s, tx) && b != a
    ensures InvitationRow(Apply(s, tx).0, b, i) == InvitationRow(s, b, i)
  {
    if i in s.invitations && s.invitations[i].org == b && tx.DeleteRole? {
      assert RolesOwned(s, b, s.invitations[i].roles);
      assert IsRole(s, a, tx.role) ==> s.invitations[i].roles - {tx.role} == s.invitations[i].roles;
    }
  }

  // ------------------------------------------------------------------- runs

  // The requests, and the account changes, a run for organization a consists of.
  predicate ActionFor(x: Action, a: Id) {
    match x
    case Resolve(_, o, _) => o == a
    case Begin(_, call) => CallFor(call, a)
    case Step(_, _, _, _) => true
    case Elsewhere(tx) => TxFor(tx, a)
  }

  ghost predicate CallsFor(w: World, a: Id) { forall n :: n in w.calls ==> CallFor(w.calls[n], a) }

  // Two installations that nobody working in organization a can tell apart.
  ghost predicate Twins(w: World, v: World, a: Id) {
    && Agree(w.store, v.store, a) && w.calls == v.calls && w.grants == v.grants && w.log == v.log
    && w.ids == v.ids && w.tokens == v.tokens
  }

  ghost predicate Fit(w: World, a: Id) { Sane(w) && Minted(w) && CallsFor(w, a) }

  lemma {:induction false} DoStaysFor(w: World, x: Action, a: Id)
    requires CallsFor(w, a) && ActionFor(x, a)
    ensures CallsFor(Do(w, x), a)
  {
    if x.Step? && x.n in w.calls { NextStaysFor(w.store, w.calls[x.n], x.now, x.token, a); }
  }

  lemma {:induction false} DoStaysFit(w: World, x: Action, a: Id)
    requires Fit(w, a) && ActionFor(x, a)
    ensures Fit(Do(w, x), a)
  {
    DoStaysSane(w, x);
    DoStaysMinted(w, x);
    DoStaysFor(w, x, a);
  }

  lemma {:induction false} CommitIsNew(w: World, x: Action)
    requires Sane(w) && Minted(w) && TxOf(w, x).Some?
    ensures New(w.store, TxOf(w, x).value)
  {
    CommitsBringNewIds(w, x);
    if x.Step? { MintsWithId(w.calls[x.n].tx, x.id); }
  }

  lemma {:induction false} CommitIsFor(w: World, x: Action, a: Id)
    requires Fit(w, a) && ActionFor(x, a) && TxOf(w, x).Some?
    ensures TxFor(TxOf(w, x).value, a)
  {
    if x.Step? { assert CallFor(w.calls[x.n], a); }
  }

  lemma {:induction false} CommitStaysTwin(w: World, v: World, x: Action, a: Id)
    requires Fit(w, a) && Fit(v, a) && Twins(w, v, a) && ActionFor(x, a) && TxOf(w, x).Some?
    ensures Twins(Do(w, x), Do(v, x), a)
  {
    var tx := TxOf(w, x).value;
    CommitIsFor(w, x, a);
    CommitIsNew(w, x);
    CommitIsNew(v, x);
    ApplyAlike(w.store, v.store, tx, a);
  }

  lemma {:induction false} ReadStaysTwin(w: World, v: World, x: Action, a: Id)
    requires Fit(w, a) && Fit(v, a) && Twins(w, v, a) && x.Step? && TxOf(w, x).None?
    ensures Twins(Do(w, x), Do(v, x), a)
  {
    if x.n in w.calls {
      assert CallFor(w.calls[x.n], a);
      NextAgrees(w.store, v.store, w.calls[x.n], x.now, x.token, a);
    }
  }

  lemma {:induction false} DoStaysTwin(w: World, v: World, x: Action, a: Id)
    requires Fit(w, a) && Fit(v, a) && Twins(w, v, a) && ActionFor(x, a)
    ensures Twins(Do(w, x), Do(v, x), a)
  {
    if TxOf(w, x).Some? {
      CommitStaysTwin(w, v, x, a);
    } else if x.Step? {
      ReadStaysTwin(w, v, x, a);
    } else {
      QuietStaysTwin(w, v, x, a);
    }
  }

  // Beginning a request, or resolving a grant.
  lemma {:induction false} QuietStaysTwin(w: World, v: World, x: Action, a: Id)
    requires Fit(w, a) && Twins(w, v, a) && ActionFor(x, a) && !x.Step? && TxOf(w, x).None?
    ensures Twins(Do(w, x), Do(v, x), a)
  {
    if x.Resolve? { SameGrant(w.store, v.store, a, x.user); }
  }

  // Two installations that agree on organization a and on the accounts give the
  // same answers, and the same organization a, after any run of requests under
  // grants for a; and the run leaves every row of every other organization alone.
  lemma {:induction false} NonInterference(w: World, v: World, actions: seq<Action>, a: Id)
    requires Start(w) && Start(v) && Agree(w.store, v.store, a) && w.ids == v.ids && w.tokens == v.tokens
    requires forall x :: x in actions ==> ActionFor(x, a)
    ensures Twins(Run(w, actions), Run(v, actions), a)
    ensures forall b | b != a :: SameRows(Run(w, actions).store, w.store, b)
    ensures Fit(Run(w, actions), a) && Fit(Run(v, actions), a)
  {
    if actions != [] {
      var n := |actions| - 1;
      var x := actions[n];
      assert x in actions;
      NonInterference(w, v, actions[..n], a);
      var w1, v1 := Run(w, actions[..n]), Run(v, actions[..n]);
      DoStaysFit(w1, x, a);
      DoStaysFit(v1, x, a);
      DoStaysTwin(w1, v1, x, a);
      forall b | b != a ensures SameRows(Do(w1, x).store, w.store, b) { DoLeavesOthers(w, w1, x, a, b); }
    }
  }

  lemma {:induction false} DoLeavesOthers(w: World, w1: World, x: Action, a: Id, b: Id)
    requires Fit(w1, a) && ActionFor(x, a) && b != a && SameRows(w1.store, w.store, b)
    ensures SameRows(Do(w1, x).store, w.store, b)
  {
    DoCommits(w1, x);
    if TxOf(w1, x).Some? {
      CommitIsFor(w1, x, a);
      CommitIsNew(w1, x);
      OthersUntouched(w1.store, TxOf(w1, x).value, a, b);
      SameRowsChain(Do(w1, x).store, w1.store, w.store, b);
    }
  }

  lemma {:induction false} SameRowsChain(s: Store, t: Store, u: Store, b: Id)
    requires SameRows(s, t, b) && SameRows(t, u, b)
    ensures SameRows(s, u, b)
  {
    forall m ensures MemberRow(s, b, m) == MemberRow(u, b, m) { assert MemberRow(s, b, m) == MemberRow(t, b, m); }
    forall r ensures RoleRow(s, b, r) == RoleRow(u, b, r) { assert RoleRow(s, b, r) == RoleRow(t, b, r); }
    forall i ensures InvitationRow(s, b, i) == InvitationRow(u, b, i) {
      assert InvitationRow(s, b, i) == InvitationRow(t, b, i);
    }
  }
}
