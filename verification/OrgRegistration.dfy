/**
  Registrations among all other requests (internal/domain/orgs/provision.go): what
  one must have read to join, what stops it for good, and what becomes of the
  offers it overlooked and of the default organization.
 */
module OrgRegistration {
  import opened Authz
  import opened OrgStore
  import opened OrgCalls
  import opened OrgSafety
  import OrgJoin
  import OrgInvitations

  // ------------------------------------------------- where a request stands

  // The i-th action lets request n, which stands at c, make its next read.
  ghost predicate Reads(w: World, actions: seq<Action>, i: nat, n: nat, c: Call)
    requires i < |actions|
  {
    var at := Run(w, actions[..i]);
    && actions[i].Step? && actions[i].n == n && actions[i].id !in at.ids && actions[i].token !in at.tokens
    && n in at.calls && at.calls[n] == c && !c.Ready? && !c.Finished?
  }

  // A call no request begins with.
  predicate Midway(c: Call) { c.JoinB? || c.JoinC? || c.Ready? }

  // A request that is midway got there by a read.
  lemma {:induction false} ReadBefore(w: World, actions: seq<Action>, n: nat) returns (i: nat, c: Call)
    requires Start(w) && n in Run(w, actions).calls && Midway(Run(w, actions).calls[n])
    ensures i < |actions| && Reads(w, actions, i, n, c)
    ensures Next(Run(w, actions[..i]).store, c, actions[i].now, actions[i].token) == Run(w, actions).calls[n]
  {
    assert actions != [];
    i := |actions| - 1;
    var before := Run(w, actions[..i]);
    if n in before.calls && before.calls[n] == Run(w, actions).calls[n] {
      var last := i;
      i, c := ReadBefore(w, actions[..last], n);
      assert actions[..last][..i] == actions[..i] && actions[..last][i] == actions[i];
    } else {
      MidwayByReading(before, actions[i], n);
      c := before.calls[n];
    }
  }

  lemma {:induction false} MidwayByReading(w: World, a: Action, n: nat)
    requires n in Do(w, a).calls && Midway(Do(w, a).calls[n])
    requires n in w.calls ==> w.calls[n] != Do(w, a).calls[n]
    ensures a.Step? && a.n == n && a.id !in w.ids && a.token !in w.tokens
    ensures n in w.calls && !w.calls[n].Ready? && !w.calls[n].Finished?
    ensures Next(w.store, w.calls[n], a.now, a.token) == Do(w, a).calls[n]
  {
  }

  // What the read was that led a joining request from c to d.
  ghost predicate Follows(s: Store, c: Call, now: int, d: Call) {
    && (d.JoinB? ==> c == JoinA(d.org, d.user, d.email) && !OrgJoin.Belongs(s, d.org, d.user))
    && (d.JoinC? ==>
          && c.JoinB? && c.org == d.org && c.user == d.user
          && !OrgJoin.OfferUnreadable(s, c.email, now) && !OrgJoin.OfferedHere(s, d.org, c.email, now))
    && (d.Ready? && d.tx.AddMember? && d.tx.lenient ==>
          c == JoinC(d.tx.org, d.tx.user) && d.tx.roles == RolesNamed(s, d.tx.org, OrgJoin.MEMBER))
  }

  lemma {:induction false} NextFollows(s: Store, c: Call, now: int, token: Token)
    requires !c.Ready? && !c.Finished?
    ensures Follows(s, c, now, Next(s, c, now, token))
  {
  }

  lemma {:induction false} LookedBefore(w: World, actions: seq<Action>, k: nat, n: nat) returns (i: nat, c: Call)
    requires Start(w) && k <= |actions| && n in Run(w, actions[..k]).calls && Midway(Run(w, actions[..k]).calls[n])
    ensures i < k && Reads(w, actions, i, n, c)
    ensures Follows(Run(w, actions[..i]).store, c, actions[i].now, Run(w, actions[..k]).calls[n])
  {
    i, c := ReadBefore(w, actions[..k], n);
    assert actions[..k][..i] == actions[..i] && actions[..k][i] == actions[i];
    NextFollows(Run(w, actions[..i]).store, c, actions[i].now, actions[i].token);
  }

  // -------------------------------------------------- what a registration saw

  // Every membership a registration asks for follows three reads of that request,
  // in this order: no membership here; no open offer here to its address, and none
  // from a retired organization; and the plain member role, which is all it gets.
  lemma {:induction false} JoinedAfterLooking(w: World, actions: seq<Action>, k: nat)
    returns (h: nat, i: nat, j: nat, email: string)
    requires Start(w) && k < |actions|
    requires var tx := TxOf(Run(w, actions[..k]), actions[k]);
             tx.Some? && tx.value.AddMember? && tx.value.lenient
    ensures var tx, n := TxOf(Run(w, actions[..k]), actions[k]).value, actions[k].n;
            var (o, u) := (tx.org, tx.user);
            && h < i < j < k
            && Reads(w, actions, h, n, JoinA(o, u, email)) && !OrgJoin.Belongs(Run(w, actions[..h]).store, o, u)
            && Reads(w, actions, i, n, JoinB(o, u, email))
            && !OrgJoin.OfferedHere(Run(w, actions[..i]).store, o, email, actions[i].now)
            && !OrgJoin.OfferUnreadable(Run(w, actions[..i]).store, email, actions[i].now)
            && Reads(w, actions, j, n, JoinC(o, u))
            && tx.roles == RolesNamed(Run(w, actions[..j]).store, o, OrgJoin.MEMBER)
  {
    var n := actions[k].n;
    var c: Call;
    j, c := LookedBefore(w, actions, k, n);
    i, c := LookedBefore(w, actions, j, n);
    email := c.email;
    h, c := LookedBefore(w, actions, i, n);
  }

  // A registration that reads an open offer here ends there, and one that reads an
  // offer of a retired organization fails there; neither ever commits anything.
  lemma {:induction false} OfferStopsJoining(
    w: World, actions: seq<Action>, i: nat, n: nat, o: Id, user: Id, email: string)
    requires i < |actions| && Reads(w, actions, i, n, JoinB(o, user, email))
    requires var s := Run(w, actions[..i]).store;
             OrgJoin.OfferUnreadable(s, email, actions[i].now) || OrgJoin.OfferedHere(s, o, email, actions[i].now)
    ensures n in Run(w, actions).calls
    ensures Run(w, actions).calls[n]
            == if OrgJoin.OfferUnreadable(Run(w, actions[..i]).store, email, actions[i].now)
               then Finished(Err(ErrNotFound)) else Finished(Done)
    ensures forall k :: i <= k < |actions| && actions[k].Step? && actions[k].n == n ==>
        TxOf(Run(w, actions[..k]), actions[k]) == None
  {
    OneMoreAction(w, actions, i);
    EndsNow(Run(w, actions[..i]), actions[i], n, o, user, email);
    forall k | i < k <= |actions| ensures n in Run(w, actions[..k]).calls
      && Run(w, actions[..k]).calls[n] == Run(w, actions[..i + 1]).calls[n]
    {
      StaysFinished(w, actions, i + 1, k, n);
    }
    assert actions[..|actions|] == actions;
  }

  lemma {:induction false} EndsNow(w: World, a: Action, n: nat, o: Id, user: Id, email: string)
    requires n in w.calls && w.calls[n] == JoinB(o, user, email)
    requires a.Step? && a.n == n && a.id !in w.ids && a.token !in w.tokens
    requires OrgJoin.OfferUnreadable(w.store, email, a.now) || OrgJoin.OfferedHere(w.store, o, email, a.now)
    ensures n in Do(w, a).calls && TxOf(w, a) == None
    ensures Do(w, a).calls[n]
            == Finished(if OrgJoin.OfferUnreadable(w.store, email, a.now) then Err(ErrNotFound) else Done)
  {
  }

  lemma {:induction false} StaysFinished(w: World, actions: seq<Action>, i: nat, k: nat, n: nat)
    requires i <= k <= |actions| && n in Run(w, actions[..i]).calls && Run(w, actions[..i]).calls[n].Finished?
    ensures n in Run(w, actions[..k]).calls && Run(w, actions[..k]).calls[n] == Run(w, actions[..i]).calls[n]
  {
    if i < k {
      StaysFinished(w, actions, i, k - 1, n);
      OneMoreAction(w, actions, k - 1);
      FinishedStays(Run(w, actions[..k - 1]), actions[k - 1], n);
    }
  }

  lemma {:induction false} OneMoreAction(w: World, actions: seq<Action>, k: nat)
    requires k < |actions|
    ensures Run(w, actions[..k + 1]) == Do(Run(w, actions[..k]), actions[k])
  {
    assert actions[..k + 1][..k] == actions[..k];
  }

  lemma {:induction false} FinishedStays(w: World, a: Action, n: nat)
    requires n in w.calls && w.calls[n].Finished?
    ensures n in Do(w, a).calls && Do(w, a).calls[n] == w.calls[n]
  {
  }

  // ------------------------------------------- offers to an account that is here

  predicate Removes(e: Event, m: Id) { e.tx.Remove? && e.tx.member == m && e.answer == Done }

  // Since then: membership m was removed, or it stands and its account has accepted
  // no offer of its organization.
  ghost predicate Occupied(was: World, now: World, m: Id, o: Id, user: Id) {
    && |was.log| <= |now.log|
    && ((exists j :: |was.log| <= j < |now.log| && Removes(now.log[j], m)) || Standing(was, now, m, o, user))
  }

  ghost predicate Standing(was: World, now: World, m: Id, o: Id, user: Id) {
    && m in now.store.members && now.store.members[m].org == o && now.store.members[m].user == user
    && forall j :: |was.log| <= j < |now.log| && AcceptedBy(now.log[j], user) ==>
        AcceptedOutside(now.store, now.log[j].tx.inv, o)
  }

  predicate AcceptedBy(e: Event, user: Id) { e.tx.Accept? && e.tx.user == user && e.answer == Done }

  predicate AcceptedOutside(s: Store, i: Id, o: Id) {
    i in s.invitations && s.invitations[i].accepted && s.invitations[i].org != o
  }

  lemma {:induction false} MemberStays(s: Store, tx: Tx, m: Id)
    requires m in s.members
    ensures var (s', answer) := Apply(s, tx);
            || Removes(Event(tx, answer), m)
            || (m in s'.members && s'.members[m].org == s.members[m].org && s'.members[m].user == s.members[m].user)
  {
  }

  lemma {:induction false} StaysOccupied(was: World, w: World, a: Action, m: Id, o: Id, user: Id)
    requires Occupied(was, w, m, o, user)
    ensures Occupied(was, Do(w, a), m, o, user)
  {
    var w' := Do(w, a);
    DoCommits(w, a);
    if TxOf(w, a).Some? {
      var tx := TxOf(w, a).value;
      var e := Event(tx, Apply(w.store, tx).1);
      assert w'.log[|w.log|] == e;
      if j :| |was.log| <= j < |w.log| && Removes(w.log[j], m) {
        assert Removes(w'.log[j], m);
      } else if !Removes(e, m) {
        MemberStays(w.store, tx, m);
        StaysStanding(was, w, w', tx, m, o, user);
      }
    }
  }

  lemma {:induction false} StaysStanding(was: World, w: World, w': World, tx: Tx, m: Id, o: Id, user: Id)
    requires Standing(was, w, m, o, user) && |was.log| <= |w.log|
    requires w'.store == Apply(w.store, tx).0 && w'.log == w.log + [Event(tx, Apply(w.store, tx).1)]
    requires m in w'.store.members && w'.store.members[m].org == o && w'.store.members[m].user == user
    ensures Standing(was, w', m, o, user)
  {
    forall j | |was.log| <= j < |w'.log| && AcceptedBy(w'.log[j], user)
      ensures AcceptedOutside(w'.store, w'.log[j].tx.inv, o)
    {
      if j < |w.log| {
        OrgInvitations.AcceptedForGood(w.store, tx, w.log[j].tx.inv);
        OrgInvitations.ApplyDescends(w.store, tx, w.log[j].tx.inv);
      } else {
        OrgInvitations.AcceptingJoins(w.store, tx.inv, user, tx.email, tx.id);
      }
    }
  }

  // While its membership stands, no offer of the organization can be accepted by
  // the account, whatever roles it promises: an open one is refused. Whoever joined
  // before the offer was made, or while it was being made, has to be removed first.
  lemma {:induction false} MemberCannotAccept(w: World, actions: seq<Action>, m: Id)
    requires m in w.store.members
    ensures var o, user := w.store.members[m].org, w.store.members[m].user; var now := Run(w, actions);
            && Occupied(w, now, m, o, user)
            && (Standing(w, now, m, o, user) && OrgLive(now.store, o) ==>
                  forall i, email, id | i in now.store.invitations && now.store.invitations[i].org == o ::
                    !now.store.invitations[i].accepted ==>
                      Apply(now.store, Accept(i, user, email, id)) == (now.store, Err(ErrAlreadyMember)))
  {
    var o, user := w.store.members[m].org, w.store.members[m].user;
    var now := Run(w, actions);
    RunOccupied(w, actions, m);
    forall i, email, id | i in now.store.invitations && now.store.invitations[i].org == o
      && !now.store.invitations[i].accepted && Standing(w, now, m, o, user) && OrgLive(now.store, o)
      ensures Apply(now.store, Accept(i, user, email, id)) == (now.store, Err(ErrAlreadyMember))
    {
      OrgJoin.LateOfferIsRefused(now.store, i, user, email, id);
    }
  }

  lemma {:induction false} RunOccupied(w: World, actions: seq<Action>, m: Id)
    requires m in w.store.members
    ensures Occupied(w, Run(w, actions), m, w.store.members[m].org, w.store.members[m].user)
  {
    if actions != [] {
      RunOccupied(w, actions[..|actions| - 1], m);
      StaysOccupied(w, Run(w, actions[..|actions| - 1]), actions[|actions| - 1], m,
                    w.store.members[m].org, w.store.members[m].user);
    }
  }

  // -------------------------------------------------- the default organization

  // A protected organization is the same, and live, after every run.
  lemma {:induction false} ProtectedForGood(w: World, actions: seq<Action>, o: Id)
    requires OrgLive(w.store, o) && w.store.orgs[o].protected
    ensures OrgLive(Run(w, actions).store, o) && Run(w, actions).store.orgs[o] == w.store.orgs[o]
  {
    if actions != [] {
      var before, a := Run(w, actions[..|actions| - 1]), actions[|actions| - 1];
      ProtectedForGood(w, actions[..|actions| - 1], o);
      DoCommits(before, a);
      if TxOf(before, a).Some? { OrgJoin.ProtectedStays(before.store, TxOf(before, a).value, o); }
    }
  }

  // Once made, the default organization is the one every later start finds, whatever
  // runs in between and whatever others do then; that start writes nothing.
  lemma {:induction false} DefaultForGood(
    w: World, actions: seq<Action>, o: Id, o2: Id, ids: ShippedIds, first: seq<Tx>, second: seq<Tx>)
    requires Start(w) && OrgLive(w.store, o) && w.store.orgs[o].protected
    requires w.store.orgs[o].slug == OrgJoin.DEFAULT_SLUG
    ensures var s := Run(w, actions).store;
            Unique(s) && OrgJoin.Ensure(s, o2, ids, first, second) == (s, OrgJoin.Ensured(o))
  {
    RunStaysSane(w, actions);
    ProtectedForGood(w, actions, o);
    var s := Run(w, actions).store;
    assert o in Slugged(s, OrgJoin.DEFAULT_SLUG);
    OrgJoin.OneSlugged(s, OrgJoin.DEFAULT_SLUG, o);
  }
}
