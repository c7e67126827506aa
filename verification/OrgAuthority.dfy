/**
  Authority over whole runs: what a caller may hand out, what they may take
  away, and which scope a role's permissions come from.
 */
module OrgAuthority {
  import opened Authz
  import opened OrgStore
  import opened OrgCalls
  import opened OrgSafety

  // ------------------------------------------------------- no privilege growth

  // A role some membership of the organization holds, or an open invitation promises.
  ghost predicate Reached(s: Store, o: Id, r: Id) {
    || (exists m :: m in s.members && s.members[m].org == o && r in s.members[m].roles)
    || (exists i :: i in s.invitations && s.invitations[i].org == o && !s.invitations[i].accepted
                    && r in s.invitations[i].roles)
  }

  // The organization's authority: the catalog permissions its reached roles carry.
  ghost predicate Carried(s: Store, o: Id, p: Permission) {
    Known(p) && exists r :: r in s.roles && Reached(s, o, r) && p in s.roles[r].perms
  }

  // The role, if it exists, carries nothing outside bound.
  ghost predicate Within(s: Store, r: Id, bound: iset<Permission>) {
    r in s.roles ==> forall p :: p in s.roles[r].perms && Known(p) ==> p in bound
  }

  // The caller's grant, for calls that hold one.
  function GrantOfCall(c: Call): Option<Grant> {
    match c
    case StatusA(g, _, _) => Some(g)
    case StatusB(g, _, _) => Some(g)
    case RemoveA(g, _) => Some(g)
    case RemoveB(g, _) => Some(g)
    case RolesA(g, _, _) => Some(g)
    case RolesB(g, _, _) => Some(g)
    case RolesC(g, _, _, _) => Some(g)
    case CreateA(g, _, _) => Some(g)
    case PermsA(g, _, _) => Some(g)
    case DeleteA(g, _) => Some(g)
    case InviteA(g, _, _, _) => Some(g)
    case ReissueA(g, _) => Some(g)
    case WithdrawA(g, _) => Some(g)
    case _ => None
  }

  // Roles this call has already been allowed to hand out in organization o.
  function Cleared(c: Call, o: Id): set<Id> {
    match c
    case RolesC(g, _, ids, k) => if g.org == o && k <= |ids| then IdsOf(ids[..k]) else {}
    case InviteA(g, _, ids, k) => if g.org == o && k <= |ids| then IdsOf(ids[..k]) else {}
    case Ready(ReplaceRoles(org, _, ids, _)) => if org == o then ids else {}
    case Ready(InviteMember(org, _, _, ids, _, _)) => if org == o then ids else {}
    case _ => {}
  }

  // Provisioning of organization o: the operations that answer to no grant in it.
  predicate Provisions(c: Call, o: Id) {
    match c
    case AppointA(org, _) => org == o
    case OwnA(org, _) => org == o
    case OwnB(org, _, _) => org == o
    case JoinA(org, _, _) => org == o
    case JoinB(org, _, _) => org == o
    case JoinC(org, _) => org == o
    case Ready(AddMember(org, _, _, _, _)) => org == o
    case _ => false
  }

  predicate Progress(c: Call) {
    match c
    case RolesC(_, _, ids, k) => k <= |ids|
    case InviteA(_, _, ids, k) => k <= |ids|
    case Ready(tx) => !IsElsewhere(tx)
    case _ => true
  }

  ghost predicate Bounded(w: World, c: Call, o: Id, bound: iset<Permission>) {
    && Progress(c) && !Provisions(c, o)
    && (GrantOfCall(c).Some? && GrantOfCall(c).value.org == o ==> GrantWithin(GrantOfCall(c).value, bound))
    && (forall r :: r in Cleared(c, o) ==> r in w.ids && Within(w.store, r, bound)
                                           && (r in w.store.roles ==> w.store.roles[r].org == o))
    && (c.Ready? && c.tx.ReplacePerms? && c.tx.org == o ==> forall p :: p in c.tx.perms && Known(p) ==> p in bound)
  }

  ghost predicate GrantWithin(g: Grant, bound: iset<Permission>) { forall p :: p in g.perms ==> p in bound }

  ghost predicate Contained(w: World, o: Id, bound: iset<Permission>) {
    && Sane(w)
    && (forall r :: Reached(w.store, o, r) ==> Within(w.store, r, bound))
    && (forall g :: g in w.grants && g.org == o ==> GrantWithin(g, bound))
    && (forall n :: n in w.calls ==> Bounded(w, w.calls[n], o, bound))
  }

  lemma {:induction false} GrantIsReached(w: World, user: Id, o: Id, bound: iset<Permission>)
    requires Contained(w, o, bound)
    ensures GrantWithin(GrantIn(w.store, user, o), bound)
  {
    var s := w.store;
    forall p | p in GrantIn(s, user, o).perms ensures p in bound {
      var m :| m in s.members && ActiveIn(s, user, o, m) && p in MemberPerms(s, o, m) && Known(p);
      var r :| r in s.members[m].roles && r in s.roles && p in s.roles[r].perms;
      assert Reached(s, o, r);
    }
  }

  lemma {:induction false} NextKeepsItsGrant(s: Store, c: Call, now: int, token: Token)
    ensures var c' := Next(s, c, now, token); GrantOfCall(c') == GrantOfCall(c) || GrantOfCall(c') == None
  {
  }

  lemma {:induction false} NextProgresses(s: Store, c: Call, now: int, token: Token)
    requires Progress(c)
    ensures Progress(Next(s, c, now, token))
  {
  }

  lemma {:induction false} NextProvisionsNothing(s: Store, c: Call, now: int, token: Token, o: Id)
    requires !Provisions(c, o)
    ensures !Provisions(Next(s, c, now, token), o)
  {
  }

  lemma {:induction false} NothingCleared(s: Store, c: Call, now: int, token: Token, o: Id)
    requires !c.RolesC? && !c.InviteA? && !c.Ready? && !Provisions(c, o)
    ensures Cleared(Next(s, c, now, token), o) == {}
  {
    if c.RolesA? || c.RolesB? {
      assert c.ids[..0] == [];
    }
  }

  lemma {:induction false} RolesCleared(
    w: World, c: Call, now: int, token: Token, o: Id, bound: iset<Permission>, r: Id)
    requires Sane(w) && c.RolesC? && Bounded(w, c, o, bound) && r in Cleared(Next(w.store, c, now, token), o)
    ensures r in w.ids && Within(w.store, r, bound) && (r in w.store.roles ==> w.store.roles[r].org == o)
  {
    CheckedIsBounded(w, c.g, c.ids, c.k, o, bound);
  }

  lemma {:induction false} InviteCleared(
    w: World, c: Call, now: int, token: Token, o: Id, bound: iset<Permission>, r: Id)
    requires Sane(w) && c.InviteA? && Bounded(w, c, o, bound) && r in Cleared(Next(w.store, c, now, token), o)
    ensures r in w.ids && Within(w.store, r, bound) && (r in w.store.roles ==> w.store.roles[r].org == o)
  {
    CheckedIsBounded(w, c.g, c.ids, c.k, o, bound);
  }

  lemma {:induction false} NextIsCleared(
    w: World, c: Call, now: int, token: Token, o: Id, bound: iset<Permission>, r: Id)
    requires Sane(w) && Bounded(w, c, o, bound) && r in Cleared(Next(w.store, c, now, token), o)
    ensures r in w.ids && Within(w.store, r, bound) && (r in w.store.roles ==> w.store.roles[r].org == o)
  {
    if c.RolesC? {
      RolesCleared(w, c, now, token, o, bound, r);
    } else if c.InviteA? {
      InviteCleared(w, c, now, token, o, bound, r);
    } else if !c.Ready? {
      NothingCleared(w.store, c, now, token, o);
    }
  }

  lemma {:induction false} NextIsBounded(w: World, c: Call, now: int, token: Token, o: Id, bound: iset<Permission>)
    requires Sane(w) && Bounded(w, c, o, bound)
    ensures Bounded(w, Next(w.store, c, now, token), o, bound)
  {
    var c' := Next(w.store, c, now, token);
    NextKeepsItsGrant(w.store, c, now, token);
    NextProgresses(w.store, c, now, token);
    NextProvisionsNothing(w.store, c, now, token, o);
    forall r | r in Cleared(c', o)
      ensures r in w.ids && Within(w.store, r, bound) && (r in w.store.roles ==> w.store.roles[r].org == o)
    {
      NextIsCleared(w, c, now, token, o, bound, r);
    }
    PermsAreChecked(w.store, c, now, token);
  }

  // A permission rewrite asks only for what its grant holds in its own organization.
  lemma {:induction false} PermsAreChecked(s: Store, c: Call, now: int, token: Token)
    ensures var c' := Next(s, c, now, token);
            c' == c
            || !(c'.Ready? && c'.tx.ReplacePerms?)
            || (c.PermsA? && c'.tx.org == c.g.org && forall p :: p in c'.tx.perms ==> OrgScoped(p) && p in c.g.perms)
  {
    if c.PermsA? { MayStoreIff(c.g, c.perms); }
  }

  lemma {:induction false} CheckedIsBounded(w: World, g: Grant, ids: seq<Id>, k: nat, o: Id, bound: iset<Permission>)
    requires Sane(w) && k <= |ids| && (g.org == o ==> GrantWithin(g, bound))
    ensures k == |ids| ==> IdsOf(ids[..k]) == IdsOf(ids)
    ensures k < |ids| && MayAssign(w.store, g, ids[k]) == None ==>
              && IdsOf(ids[..k + 1]) == IdsOf(ids[..k]) + {ids[k]}
              && ids[k] in w.ids && ids[k] in w.store.roles && w.store.roles[ids[k]].org == g.org
              && (g.org == o ==> Within(w.store, ids[k], bound))
  {
    if k == |ids| {
      assert ids[..k] == ids;
    } else {
      MayAssignIff(w.store, g, ids[k]);
      assert ids[..k + 1] == ids[..k] + [ids[k]];
    }
  }

  // A transaction keeps roles within bound unless it rewrites this one's permissions.
  lemma {:induction false} WithinStays(s: Store, tx: Tx, r: Id, bound: iset<Permission>)
    requires Within(s, r, bound) && (r in s.roles || r !in NewIds(tx))
    requires tx.ReplacePerms? && tx.role == r && IsRole(s, tx.org, r) ==> forall p :: p in tx.perms && Known(p) ==>
        p in bound
    ensures Within(Apply(s, tx).0, r, bound)
    ensures r in Apply(s, tx).0.roles ==> r in s.roles && Apply(s, tx).0.roles[r].org == s.roles[r].org
  {
  }

  // Where a role reached after a transaction comes from.
  lemma {:induction false} ReachedFrom(s: Store, tx: Tx, o: Id, r: Id)
    requires Reached(Apply(s, tx).0, o, r)
    ensures || Reached(s, o, r)
            || (tx.ReplaceRoles? && tx.org == o && r in tx.roles)
            || (tx.InviteMember? && tx.org == o && r in tx.roles)
            || (tx.AddMember? && tx.org == o)
  {
    var s' := Apply(s, tx).0;
    if m :| m in s'.members && s'.members[m].org == o && r in s'.members[m].roles {
      MemberRoleFrom(s, tx, o, r, m);
    } else {
      var i :| i in s'.invitations && s'.invitations[i].org == o && !s'.invitations[i].accepted
                 && r in s'.invitations[i].roles;
      assert i in s.invitations || tx.InviteMember?;
    }
  }

  lemma {:induction false} MemberRoleFrom(s: Store, tx: Tx, o: Id, r: Id, m: Id)
    requires var s' := Apply(s, tx).0; m in s'.members && s'.members[m].org == o && r in s'.members[m].roles
    ensures Reached(s, o, r) || (tx.ReplaceRoles? && tx.org == o && r in tx.roles) || (tx.AddMember? && tx.org == o)
  {
    if tx.Accept? && m == tx.id && m !in s.members {
      assert r in s.invitations[tx.inv].roles;
    }
  }

  // One transaction, asked for by a bounded call or made elsewhere.
  lemma {:induction false} CommitContained(w: World, c: Call, tx: Tx, o: Id, bound: iset<Permission>)
    requires Contained(w, o, bound) && Bounded(w, c, o, bound) && NewIds(tx) !! w.ids
    requires c == Ready(tx) || IsElsewhere(tx)
    ensures forall r :: Reached(Apply(w.store, tx).0, o, r) ==> Within(Apply(w.store, tx).0, r, bound)
  {
    var s' := Apply(w.store, tx).0;
    forall r | Reached(s', o, r) ensures Within(s', r, bound) {
      ReachedFrom(w.store, tx, o, r);
      if Reached(w.store, o, r) {
        ReachedExists(w.store, o, r);
      } else {
        assert r in Cleared(c, o);
      }
      WithinStays(w.store, tx, r, bound);
    }
  }

  lemma {:induction false} ReachedExists(s: Store, o: Id, r: Id)
    requires Linked(s) && Reached(s, o, r)
    ensures IsRole(s, o, r)
  {
    if m :| m in s.members && s.members[m].org == o && r in s.members[m].roles {
      assert RolesOwned(s, s.members[m].org, s.members[m].roles);
    } else {
      var i :| i in s.invitations && s.invitations[i].org == o && r in s.invitations[i].roles;
      assert RolesOwned(s, s.invitations[i].org, s.invitations[i].roles);
    }
  }

  // Calls in flight stay bounded while another transaction commits.
  lemma {:induction false} OthersStayBounded(
    w: World, w': World, c: Call, tx: Tx, other: Call, o: Id, bound: iset<Permission>)
    requires Bounded(w, c, o, bound) && Bounded(w, other, o, bound) && NewIds(tx) !! w.ids && w.ids <= w'.ids
    requires c == Ready(tx) || IsElsewhere(tx)
    requires w'.store == Apply(w.store, tx).0
    ensures Bounded(w', other, o, bound)
  {
    forall r | r in Cleared(other, o)
      ensures Within(w'.store, r, bound) && (r in w'.store.roles ==> w'.store.roles[r].org == o)
    {
      WithinStays(w.store, tx, r, bound);
    }
  }

  // Actions a run of grant-taking operations is made of.
  predicate Granting(a: Action, o: Id) { a.Begin? ==> !Provisions(a.call, o) }

  lemma {:induction false} CallWithIdIsBounded(w: World, tx: Tx, id: Id, o: Id, bound: iset<Permission>)
    requires Bounded(w, Ready(tx), o, bound)
    ensures Bounded(w, Ready(WithId(tx, id)), o, bound)
    ensures NewIds(WithId(tx, id)) <= {id}
  {
    var tx' := WithId(tx, id);
    assert Cleared(Ready(tx'), o) == Cleared(Ready(tx), o);
  }

  // The world after a transaction by this call, or by nobody here.
  lemma {:induction false} CommitStaysContained(w: World, w': World, c: Call, tx: Tx, o: Id, bound: iset<Permission>)
    requires Contained(w, o, bound) && Bounded(w, c, o, bound) && NewIds(tx) !! w.ids
    requires c == Ready(tx) || IsElsewhere(tx)
    requires w'.store == Apply(w.store, tx).0 && w.ids + NewIds(tx) <= w'.ids && w'.grants == w.grants
    requires forall n :: n in w'.calls ==> w'.calls[n].Finished? || (n in w.calls && w'.calls[n] == w.calls[n])
    ensures Contained(w', o, bound)
  {
    SaneAfter(w, w', tx);
    CommitContained(w, c, tx, o, bound);
    CallsStayBounded(w, w', c, tx, o, bound);
  }

  lemma {:induction false} CallsStayBounded(
    w: World, w': World, c: Call, tx: Tx, o: Id, bound: iset<Permission>)
    requires Contained(w, o, bound) && Bounded(w, c, o, bound) && NewIds(tx) !! w.ids && w.ids <= w'.ids
    requires (c == Ready(tx) || IsElsewhere(tx)) && w'.store == Apply(w.store, tx).0
    requires forall n :: n in w'.calls ==> w'.calls[n].Finished? || (n in w.calls && w'.calls[n] == w.calls[n])
    ensures forall n :: n in w'.calls ==> Bounded(w', w'.calls[n], o, bound)
  {
    forall n | n in w'.calls ensures Bounded(w', w'.calls[n], o, bound) {
      if !w'.calls[n].Finished? { OthersStayBounded(w, w', c, tx, w.calls[n], o, bound); }
    }
  }

  lemma {:induction false} ReadStaysContained(
    w: World, w': World, n: nat, now: int, token: Token, o: Id, bound: iset<Permission>)
    requires Contained(w, o, bound) && n in w.calls
    requires w' == w.(calls := w.calls[n := Next(w.store, w.calls[n], now, token)], tokens := w'.tokens)
    ensures Contained(w', o, bound)
  {
    NextIsBounded(w, w.calls[n], now, token, o, bound);
    forall k | k in w'.calls ensures Bounded(w', w'.calls[k], o, bound) {
      assert Bounded(w, w'.calls[k], o, bound);
    }
  }

  lemma {:induction false} ArrivalStaysContained(w: World, n: nat, call: Call, o: Id, bound: iset<Permission>)
    requires Contained(w, o, bound) && n !in w.calls && Arrives(w, call) && !Provisions(call, o)
    ensures Contained(w.(calls := w.calls[n := call]), o, bound)
  {
    var w' := w.(calls := w.calls[n := call]);
    assert Progress(call) && Cleared(call, o) == {};
    forall k | k in w'.calls ensures Bounded(w', w'.calls[k], o, bound) {
      if k != n { assert Bounded(w, w.calls[k], o, bound); }
    }
  }

  lemma {:induction false} GrantStaysContained(w: World, user: Id, org: Id, o: Id, bound: iset<Permission>)
    requires Contained(w, o, bound)
    ensures Contained(w.(grants := w.grants + {GrantIn(w.store, user, org)}), o, bound)
  {
    var w' := w.(grants := w.grants + {GrantIn(w.store, user, org)});
    GrantIsReached(w, user, o, bound);
    forall k | k in w'.calls ensures Bounded(w', w'.calls[k], o, bound) {
      assert Bounded(w, w.calls[k], o, bound);
    }
  }

  lemma {:induction false} StepStaysContained(w: World, a: Action, o: Id, bound: iset<Permission>)
    requires Contained(w, o, bound) && a.Step? && a.n in w.calls && a.id !in w.ids && a.token !in w.tokens
    ensures Contained(Do(w, a), o, bound)
  {
    if w.calls[a.n].Ready? {
      ReadyStaysContained(w, a, o, bound);
    } else {
      ReadStaysContained(w, Do(w, a), a.n, a.now, a.token, o, bound);
    }
  }

  lemma {:induction false} ReadyStaysContained(w: World, a: Action, o: Id, bound: iset<Permission>)
    requires Contained(w, o, bound) && a.Step? && a.n in w.calls && a.id !in w.ids && a.token !in w.tokens
    requires w.calls[a.n].Ready?
    ensures Contained(Do(w, a), o, bound)
  {
    var tx := WithId(w.calls[a.n].tx, a.id);
    CallWithIdIsBounded(w, w.calls[a.n].tx, a.id, o, bound);
    CommitStaysContained(w, Do(w, a), Ready(tx), tx, o, bound);
  }

  lemma {:induction false} ElsewhereStaysContained(w: World, a: Action, o: Id, bound: iset<Permission>)
    requires Contained(w, o, bound) && a.Elsewhere? && TxOf(w, a).Some?
    ensures Contained(Do(w, a), o, bound)
  {
    CommitsBringNewIds(w, a);
    CommitStaysContained(w, Do(w, a), Finished(Done), a.tx, o, bound);
  }

  lemma {:induction false} DoStaysContained(w: World, a: Action, o: Id, bound: iset<Permission>)
    requires Contained(w, o, bound) && Granting(a, o)
    ensures Contained(Do(w, a), o, bound)
  {
    if Do(w, a) == w {
      // Nothing happened.
    } else if a.Resolve? {
      GrantStaysContained(w, a.user, a.org, o, bound);
    } else if a.Begin? {
      ArrivalStaysContained(w, a.n, a.call, o, bound);
    } else if a.Step? {
      StepStaysContained(w, a, o, bound);
    } else {
      ElsewhereStaysContained(w, a, o, bound);
    }
  }

  lemma {:induction false} RunStaysContained(w: World, actions: seq<Action>, o: Id, bound: iset<Permission>)
    requires Contained(w, o, bound) && forall a :: a in actions ==> Granting(a, o)
    ensures Contained(Run(w, actions), o, bound)
  {
    if actions != [] {
      var n := |actions| - 1;
      RunStaysContained(w, actions[..n], o, bound);
      assert actions[n] in actions;
      DoStaysContained(Run(w, actions[..n]), actions[n], o, bound);
    }
  }

  // No run of grant-taking operations, accepted and declined invitations and
  // departures adds a permission to an organization's authority, however checks
  // and writes interleave and however old the grants are.
  lemma {:induction false} NoPrivilegeGrowth(w: World, actions: seq<Action>, o: Id, p: Permission)
    requires Start(w) && forall a :: a in actions ==> Granting(a, o)
    requires Carried(Run(w, actions).store, o, p)
    ensures Carried(w.store, o, p)
  {
    var bound := iset q | Carried(w.store, o, q);
    assert Contained(w, o, bound);
    RunStaysContained(w, actions, o, bound);
    var s := Run(w, actions).store;
    var r :| r in s.roles && Reached(s, o, r) && p in s.roles[r].perms;
    assert Within(s, r, bound);
  }

  // Hence no grant resolved during the run exceeds the authority at its start.
  lemma {:induction false} NoGrantExceedsTheStart(w: World, actions: seq<Action>, g: Grant, p: Permission)
    requires Start(w) && forall a :: a in actions ==> Granting(a, g.org)
    requires g in Run(w, actions).grants && p in g.perms
    ensures Carried(w.store, g.org, p)
  {
    var bound := iset q | Carried(w.store, g.org, q);
    assert Contained(w, g.org, bound);
    RunStaysContained(w, actions, g.org, bound);
    assert GrantWithin(g, bound);
  }
}
