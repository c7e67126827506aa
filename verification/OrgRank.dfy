/**
  Who may act on whom over whole runs, and which scope the permissions of an
  organization's roles come from.
 */
module OrgRank {
  import opened Authz
  import opened OrgStore
  import opened OrgCalls
  import opened OrgSafety
  import opened OrgAuthority

  // ------------------------------------------------------------------- rank

  // The membership being protected, the role it holds, and where both live.
  datatype Holder = Holder(m: Id, r: Id, org: Id, row: Member, role: Role)

  ghost predicate Holds(s: Store, h: Holder) {
    && h.m in s.members && s.members[h.m] == h.row && h.row.org == h.org && AccountLive(s, h.row.user)
    && h.r in h.row.roles && h.r in s.roles && s.roles[h.r] == h.role && h.role.shipped
  }

  ghost predicate Lacks(g: Grant, role: Role) {
    exists p :: p in role.perms && Known(p) && p !in g.perms
  }

  // The membership a request names before its rank check has been made.
  function Subject(c: Call): Option<Id> {
    match c
    case StatusA(_, m, _) => Some(m)
    case StatusB(_, m, _) => Some(m)
    case RemoveA(_, m) => Some(m)
    case RemoveB(_, m) => Some(m)
    case RolesA(_, m, _) => Some(m)
    case RolesB(_, m, _) => Some(m)
    case _ => None
  }

  // An owner being appointed: it answers to no grant and replaces roles.
  predicate Appoints(c: Call, o: Id) {
    match c
    case AppointA(org, _) => org == o
    case OwnA(org, _) => org == o
    case OwnB(org, _, _) => org == o
    case _ => false
  }

  // A call by someone else, whose grant does not reach the role.
  ghost predicate Outranked(c: Call, h: Holder) {
    && (GrantOfCall(c).Some? && GrantOfCall(c).value.org == h.org ==>
          Lacks(GrantOfCall(c).value, h.role)
          && (Subject(c) == Some(h.m) ==> GrantOfCall(c).value.actor != h.row.user))
    && (c.LeaveA? && c.m == h.m ==> c.user != h.row.user)
    && !Appoints(c, h.org)
  }

  // No check on the membership has been passed.
  predicate Spares(c: Call, h: Holder) {
    match c
    case RolesC(g, m, _, _) => g.org == h.org ==> m != h.m
    case Ready(tx) => SparesTx(tx, h)
    case _ => true
  }

  predicate SparesTx(tx: Tx, h: Holder) {
    match tx
    case SetStatus(o, m, _, _) => o == h.org ==> m != h.m
    case Remove(o, m, _) => o == h.org ==> m != h.m
    case ReplaceRoles(o, m, _, _) => o == h.org ==> m != h.m
    case ReplacePerms(_, r, _) => r != h.r
    case DeleteAccount(u) => u != h.row.user
    case _ => true
  }

  ghost predicate AllOutranked(w: World, h: Holder) {
    forall n :: n in w.calls ==> Outranked(w.calls[n], h) && Spares(w.calls[n], h)
  }

  // What the run may contain: requests by others that lack part of the role,
  // no appointment of an owner, and not the deletion of the account.
  ghost predicate ByOthers(a: Action, h: Holder) {
    match a
    case Begin(_, call) => Outranked(call, h)
    case Elsewhere(tx) => tx.DeleteAccount? ==> tx.user != h.row.user
    case _ => true
  }

  // The rank check refuses every such caller.
  lemma {:induction false} RankRefuses(s: Store, g: Grant, h: Holder)
    requires Holds(s, h) && Lacks(g, h.role)
    ensures !CanAffect(g, MemberPerms(s, h.org, h.m))
  {
    var p :| p in h.role.perms && Known(p) && p !in g.perms;
    assert p in MemberPerms(s, h.org, h.m);
  }

  lemma {:induction false} NextKeepsSubject(s: Store, c: Call, now: int, token: Token)
    ensures var c' := Next(s, c, now, token); Subject(c') == None || Subject(c') == Subject(c)
    ensures var c' := Next(s, c, now, token); c'.LeaveA? ==> c' == c
  {
  }

  lemma {:induction false} NextAppointsNobody(s: Store, c: Call, now: int, token: Token, o: Id)
    requires !Appoints(c, o)
    ensures !Appoints(Next(s, c, now, token), o)
  {
  }

  lemma {:induction false} NextOutranked(s: Store, c: Call, now: int, token: Token, h: Holder)
    requires Outranked(c, h)
    ensures Outranked(Next(s, c, now, token), h)
  {
    NextKeepsSubject(s, c, now, token);
    NextKeepsItsGrant(s, c, now, token);
    NextAppointsNobody(s, c, now, token, h.org);
  }

  lemma {:induction false} NextSpares(s: Store, c: Call, now: int, token: Token, h: Holder)
    requires Holds(s, h) && Outranked(c, h) && Spares(c, h)
    ensures Spares(Next(s, c, now, token), h)
  {
    var g := GrantOfCall(c);
    if g.Some? && g.value.org == h.org && Subject(c) == Some(h.m) {
      RankRefuses(s, g.value, h);
    }
  }

  lemma {:induction false} SparedStays(s: Store, tx: Tx, h: Holder)
    requires Holds(s, h) && SparesTx(tx, h)
    ensures Holds(Apply(s, tx).0, h)
  {
    ApplyKeepsShipped(s, tx, h.r);
    SparedMember(s, tx, h);
  }

  lemma {:induction false} SparedMember(s: Store, tx: Tx, h: Holder)
    requires Holds(s, h) && SparesTx(tx, h)
    ensures var s' := Apply(s, tx).0;
            h.m in s'.members && s'.members[h.m] == h.row && AccountLive(s', h.row.user)
  {
  }

  lemma {:induction false} StepKeepsRank(w: World, a: Action, h: Holder)
    requires Holds(w.store, h) && AllOutranked(w, h) && a.Step?
    ensures Holds(Do(w, a).store, h) && AllOutranked(Do(w, a), h)
  {
    if a.n in w.calls {
      var c := w.calls[a.n];
      if c.Ready? {
        SparedStays(w.store, WithId(c.tx, a.id), h);
      } else {
        NextOutranked(w.store, c, a.now, a.token, h);
        NextSpares(w.store, c, a.now, a.token, h);
      }
    }
  }

  // While every caller in the organization lacks some permission of a shipped
  // role, nobody else's request, at whatever stage, suspends, reinstates, removes
  // or re-roles a membership that holds it.
  lemma {:induction false} RankIsKept(w: World, actions: seq<Action>, h: Holder)
    requires Start(w) && Holds(w.store, h) && forall a :: a in actions ==> ByOthers(a, h)
    ensures Holds(Run(w, actions).store, h) && AllOutranked(Run(w, actions), h)
  {
    if actions != [] {
      var n := |actions| - 1;
      var a := actions[n];
      RankIsKept(w, actions[..n], h);
      assert a in actions;
      var before := Run(w, actions[..n]);
      if a.Step? {
        StepKeepsRank(before, a, h);
      } else if a.Elsewhere? && IsElsewhere(a.tx) {
        SparedStays(before.store, a.tx, h);
      }
    }
  }

  // Editing a role compares no ranks: it goes through exactly when the role is the
  // organization's own and the caller could have created it with these permissions,
  // whoever holds it, and then the role carries exactly these.
  lemma {:induction false} RoleEditIgnoresRank(
    s: Store, g: Grant, r: Id, perms: seq<Permission>, now: int, id: Id, token: Token)
    ensures Alone(s, PermsA(g, r, perms), now, id, token).1 == Done
            <==> IsRole(s, g.org, r) && !s.roles[r].shipped && forall p :: p in perms ==> OrgScoped(p) && p in g.perms
    ensures var (t, answer) := Alone(s, PermsA(g, r, perms), now, id, token);
            if answer != Done then t == s
            else
              && r in s.roles && r in t.roles && t == s.(roles := s.roles[r := s.roles[r].(perms := t.roles[r].perms)])
              && forall p :: p in t.roles[r].perms <==> p in perms
  {
    AloneNext(s, PermsA(g, r, perms), now, id, token);
    MayStoreIff(g, perms);
    var tx := ReplacePerms(g.org, r, Dedupe(perms));
    assert Alone(s, Ready(tx), now, id, token) == Apply(s, tx);
  }

  // ------------------------------------------- what a lower rank can take away

  // A committed rewrite of this role's permissions.
  predicate Rewritten(log: seq<Event>, o: Id, r: Id) {
    exists e :: e in log && e.answer == Done && e.tx.ReplacePerms? && e.tx.org == o && e.tx.role == r
  }

  // A role nobody rewrites keeps its permissions, if it stays at all.
  ghost predicate RolesTracked(w0: World, w: World) {
    forall r :: r in w0.store.roles && r in w.store.roles ==>
      && w.store.roles[r].org == w0.store.roles[r].org && w.store.roles[r].shipped == w0.store.roles[r].shipped
      && (w.store.roles[r].perms == w0.store.roles[r].perms || Rewritten(w.log, w0.store.roles[r].org, r))
  }

  lemma {:induction false} RoleAfter(s: Store, tx: Tx, r: Id)
    requires r in Apply(s, tx).0.roles && r !in NewIds(tx)
    ensures var now := Apply(s, tx).0.roles[r];
            && r in s.roles && now.org == s.roles[r].org && now.shipped == s.roles[r].shipped
            && (now.perms == s.roles[r].perms
                || (tx.ReplacePerms? && tx.org == now.org && tx.role == r && Apply(s, tx).1 == Done))
  {
  }

  lemma {:induction false} RewrittenGrows(log: seq<Event>, e: Event, o: Id, r: Id)
    requires Rewritten(log, o, r)
    ensures Rewritten(log + [e], o, r)
  {
    var x :| x in log && x.answer == Done && x.tx.ReplacePerms? && x.tx.org == o && x.tx.role == r;
    assert x in log + [e];
  }

  lemma {:induction false} CommitTracks(w0: World, w: World, w': World, tx: Tx)
    requires RolesTracked(w0, w) && w0.store.roles.Keys <= w0.ids <= w.ids && NewIds(tx) !! w.ids
    requires w'.store == Apply(w.store, tx).0 && w'.log == w.log + [Event(tx, Apply(w.store, tx).1)]
    ensures RolesTracked(w0, w')
  {
    forall r | r in w0.store.roles && r in w'.store.roles
      ensures && w'.store.roles[r].org == w0.store.roles[r].org
          && w'.store.roles[r].shipped == w0.store.roles[r].shipped
              && (w'.store.roles[r].perms == w0.store.roles[r].perms || Rewritten(w'.log, w0.store.roles[r].org, r))
    {
      RoleAfter(w.store, tx, r);
      if Rewritten(w.log, w0.store.roles[r].org, r) {
        RewrittenGrows(w.log, Event(tx, Apply(w.store, tx).1), w0.store.roles[r].org, r);
      } else if tx.ReplacePerms? && tx.role == r {
        assert w'.log[|w.log|] in w'.log;
      }
    }
  }

  lemma {:induction false} RunTracks(w: World, actions: seq<Action>)
    requires Start(w)
    ensures RolesTracked(w, Run(w, actions))
  {
    if actions != [] {
      var n := |actions| - 1;
      var mid := Run(w, actions[..n]);
      RunTracks(w, actions[..n]);
      RunStaysSane(w, actions[..n]);
      DoCommits(mid, actions[n]);
      if TxOf(mid, actions[n]).Some? {
        CommitsBringNewIds(mid, actions[n]);
        CommitTracks(w, mid, Do(mid, actions[n]), TxOf(mid, actions[n]).value);
      }
    }
  }

  // The other side of RankIsKept: what such callers can still take from the member
  // goes only through the organization's own roles. A permission the member has
  // lost was carried by no shipped role, and every role of theirs that carried it
  // is still held and has been rewritten.
  lemma {:induction false} RankIsLostThroughRolesOnly(w: World, actions: seq<Action>, h: Holder, p: Permission)
    requires Start(w) && Holds(w.store, h) && forall a :: a in actions ==> ByOthers(a, h)
    requires p in MemberPerms(w.store, h.org, h.m) && p !in MemberPerms(Run(w, actions).store, h.org, h.m)
    ensures p !in h.role.perms
    ensures forall r :: r in h.row.roles && r in w.store.roles && p in w.store.roles[r].perms ==>
              && !w.store.roles[r].shipped && Rewritten(Run(w, actions).log, h.org, r)
              && r in Run(w, actions).store.roles && p !in Run(w, actions).store.roles[r].perms
  {
    RankIsKept(w, actions, h);
    RunStaysSane(w, actions);
    RunTracks(w, actions);
    var s, t := w.store, Run(w, actions).store;
    assert RolesOwned(t, h.org, h.row.roles) && RolesOwned(s, h.org, h.row.roles);
    forall r | r in h.row.roles && r in s.roles && p in s.roles[r].perms
      ensures !s.roles[r].shipped && Rewritten(Run(w, actions).log, h.org, r) && r in t.roles && p !in t.roles[r].perms
    {
      assert IsRole(t, h.org, r);
      if s.roles[r].shipped { ShippedRolesSurvive(w, actions, r); }
    }
  }

  // ------------------------------------------------------------------- scope

  ghost predicate OrgPerms(perms: seq<Permission>) { forall p :: p in perms && Known(p) ==> OrgScoped(p) }

  ghost predicate NoPlatform(s: Store) { forall r :: r in s.roles ==> OrgPerms(s.roles[r].perms) }

  predicate ScopedTx(tx: Tx) {
    match tx
    case CreateRole(_, _, perms, _) => forall p :: p in perms ==> OrgScoped(p)
    case ReplacePerms(_, _, perms) => forall p :: p in perms ==> OrgScoped(p)
    case _ => true
  }

  ghost predicate CallsScoped(w: World) {
    forall n :: n in w.calls && w.calls[n].Ready? ==> ScopedTx(w.calls[n].tx)
  }

  lemma {:induction false} NextIsScoped(s: Store, c: Call, now: int, token: Token)
    requires !c.Ready?
    ensures Next(s, c, now, token).Ready? ==> ScopedTx(Next(s, c, now, token).tx)
  {
    match c
    case CreateA(g, _, perms) => MayStoreIff(g, perms);
    case PermsA(g, _, perms) => MayStoreIff(g, perms);
    case _ =>
  }

  lemma {:induction false} DefinitionScoped(ids: ShippedIds, r: Id, p: Permission)
    requires p in DefinitionFor(ids, r).perms
    ensures OrgScoped(p)
  {
    ShippedRoles(p);
  }

  lemma {:induction false} ApplyIsScoped(s: Store, tx: Tx)
    requires NoPlatform(s) && ScopedTx(tx)
    ensures NoPlatform(Apply(s, tx).0)
  {
    var s' := Apply(s, tx).0;
    if tx.CreateOrg? && s' != s {
      forall r | r in s'.roles ensures OrgPerms(s'.roles[r].perms) {
        if r in IdSet(tx.ids) {
          forall p | p in s'.roles[r].perms ensures OrgScoped(p) { DefinitionScoped(tx.ids, r, p); }
        }
      }
    }
  }

  lemma {:induction false} RunKeepsScope(w: World, actions: seq<Action>)
    requires Start(w) && NoPlatform(w.store)
    ensures NoPlatform(Run(w, actions).store) && CallsScoped(Run(w, actions))
    ensures forall g :: g in Run(w, actions).grants ==> forall p :: p in g.perms ==> OrgScoped(p)
  {
    if actions != [] {
      RunKeepsScope(w, actions[..|actions| - 1]);
      DoKeepsScope(Run(w, actions[..|actions| - 1]), actions[|actions| - 1]);
    }
  }

  ghost predicate GrantsScoped(w: World) {
    forall g :: g in w.grants ==> forall p :: p in g.perms ==> OrgScoped(p)
  }

  lemma {:induction false} GrantIsScoped(s: Store, user: Id, o: Id)
    requires NoPlatform(s)
    ensures forall p :: p in GrantIn(s, user, o).perms ==> OrgScoped(p)
  {
  }

  lemma {:induction false} DoKeepsScope(w: World, a: Action)
    requires NoPlatform(w.store) && CallsScoped(w) && GrantsScoped(w)
    ensures NoPlatform(Do(w, a).store) && CallsScoped(Do(w, a)) && GrantsScoped(Do(w, a))
  {
    match a
    case Resolve(user, o, _) => GrantIsScoped(w.store, user, o);
    case Step(n, now, id, token) =>
      if n in w.calls {
        if w.calls[n].Ready? {
          ApplyIsScoped(w.store, WithId(w.calls[n].tx, id));
        } else {
          NextIsScoped(w.store, w.calls[n], now, token);
        }
      }
    case Elsewhere(tx) => if IsElsewhere(tx) { ApplyIsScoped(w.store, tx); }
    case _ =>
  }

  // ------------------------------------------- the store and the authorizer

  // The rows the authorizer reads describe this store: for each organization
  // the account is active in, the keys its roles there carry, in any order.
  ghost predicate RowsOf(s: Store, user: Id, rows: Rows) {
    && (forall o :: o in rows.active <==> exists m :: m in s.members && ActiveIn(s, user, o, m))
    && (forall o, p :: o in rows.active ==>
          (p in rows.active[o] <==> exists m :: m in s.members && ActiveIn(s, user, o, m) && p in MemberPerms(s, o, m)))
  }

  // The decision for an organization permission carries exactly the grant the
  // runs above speak of.
  lemma {:induction false} DecisionIsTheGrant(s: Store, user: Id, rows: Rows, o: Id, p: Permission)
    requires RowsOf(s, user, rows) && OrgScoped(p) && o != NIL
    ensures p in GrantIn(s, user, o).perms
            <==> Decide(rows, Request(user, o, p)) == Granted(GrantIn(s, user, o))
    ensures Decide(rows, Request(user, o, p)).Granted? <==> p in GrantIn(s, user, o).perms
  {
    if o in rows.active {
      assert GrantOf(user, o, rows.active[o]).perms == GrantIn(s, user, o).perms;
    }
  }
}
