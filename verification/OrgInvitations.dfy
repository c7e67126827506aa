/**
  The life of an invitation over whole runs: one membership at most, for the
  address it was sent to, and a token that stops working for good.
 */
module OrgInvitations {
  import opened Authz
  import opened OrgStore
  import opened OrgCalls
  import opened OrgSafety
  import Address

  // ------------------------------------------------------ one transaction each

  // An invitation keeps its organization and address, and its roles only shrink,
  // by roles that no longer exist.
  ghost predicate Descends(s: Store, s': Store, i: Id) {
    i in s.invitations && i in s'.invitations ==>
      && s'.invitations[i].org == s.invitations[i].org
      && s'.invitations[i].email == s.invitations[i].email
      && (s.invitations[i].accepted ==> s'.invitations[i].accepted)
      && s'.invitations[i].roles <= s.invitations[i].roles
      && forall r :: r in s.invitations[i].roles && r in s'.roles ==> r in s'.invitations[i].roles
  }

  lemma {:induction false} ApplyDescends(s: Store, tx: Tx, i: Id)
    ensures Descends(s, Apply(s, tx).0, i)
  {
  }

  // An accepted invitation is never accepted, withdrawn, declined or reissued again.
  lemma {:induction false} AcceptedForGood(s: Store, tx: Tx, i: Id)
    requires i in s.invitations && s.invitations[i].accepted
    ensures i in Apply(s, tx).0.invitations && Apply(s, tx).0.invitations[i].accepted
    ensures tx.Accept? || tx.Decline? || tx.Reissue? || tx.Withdraw? ==> tx.inv == i ==> Apply(s, tx).1 != Done
  {
  }

  // What accepting does: one membership, with the roles stored on the invitation.
  lemma {:induction false} AcceptingJoins(s: Store, i: Id, user: Id, email: string, id: Id)
    requires Apply(s, Accept(i, user, email, id)).1 == Done
    ensures var s' := Apply(s, Accept(i, user, email, id)).0;
            && i in s.invitations && !s.invitations[i].accepted && s'.invitations[i].accepted
            && id !in s.members && s'.members.Keys == s.members.Keys + {id}
            && s'.members[id] == Member(s.invitations[i].org, user, Active, s.invitations[i].roles)
            && (forall m :: m in s.members ==> s'.members[m] == s.members[m])
            && (forall m | m in s'.members && s'.members[m].org == s.invitations[i].org ::
                  s'.members[m].user == user ==> m == id)
  {
  }

  // ------------------------------------------------------------ over whole runs

  predicate Accepts(e: Event, i: Id) { e.tx.Accept? && e.tx.inv == i && e.answer == Done }

  // Once the service has compared addresses, the invitation is this address's.
  ghost predicate Addressed(w: World, c: Call) {
    c.Ready? && c.tx.Accept? ==>
      && c.tx.inv in w.ids
      && (c.tx.inv in w.store.invitations ==> w.store.invitations[c.tx.inv].email == Address.Normalize(c.tx.email))
  }

  ghost predicate AllAddressed(w: World) { forall n :: n in w.calls ==> Addressed(w, w.calls[n]) }

  ghost predicate AcceptedOnce(w: World) {
    && (forall e :: e in w.log && e.tx.Accept? && e.answer == Done ==>
          e.tx.inv in w.store.invitations && w.store.invitations[e.tx.inv].accepted)
    && (forall j, k, i :: 0 <= j < |w.log| && 0 <= k < |w.log| && Accepts(w.log[j], i) && Accepts(w.log[k], i) ==>
        j == k)
  }

  lemma {:induction false} AddressedStays(w: World, w': World, tx: Tx, answer: Answer, c: Call)
    requires Addressed(w, c) && Sane(w) && NewIds(tx) !! w.ids && w.ids <= w'.ids
    requires w'.store == Apply(w.store, tx).0 && w'.log == w.log + [Event(tx, answer)]
    ensures Addressed(w', c)
  {
    if c.Ready? && c.tx.Accept? {
      ApplyDescends(w.store, tx, c.tx.inv);
      if c.tx.inv in w'.store.invitations { InvitationsComeFrom(w.store, tx, c.tx.inv); }
    }
  }

  lemma {:induction false} InvitationsComeFrom(s: Store, tx: Tx, i: Id)
    requires i in Apply(s, tx).0.invitations
    ensures i in s.invitations || i in NewIds(tx)
  {
  }

  lemma {:induction false} NextIsAddressed(w: World, c: Call, now: int, token: Token)
    requires Sane(w) && Addressed(w, c)
    ensures Addressed(w, Next(w.store, c, now, token))
  {
    if !c.AcceptA? && !c.Ready? { NothingAccepted(w.store, c, now, token); }
  }

  lemma {:induction false} NothingAccepted(s: Store, c: Call, now: int, token: Token)
    requires !c.AcceptA? && !c.Ready?
    ensures var c' := Next(s, c, now, token); !c'.AcceptA? && (c'.Ready? ==> !c'.tx.Accept?)
  {
  }

  lemma {:induction false} LogAcceptsOnce(w: World, w': World, tx: Tx)
    requires Sane(w) && AcceptedOnce(w)
    requires w'.store == Apply(w.store, tx).0 && w'.log == w.log + [Event(tx, Apply(w.store, tx).1)]
    ensures AcceptedOnce(w')
  {
    forall e | e in w'.log && e.tx.Accept? && e.answer == Done
      ensures e.tx.inv in w'.store.invitations && w'.store.invitations[e.tx.inv].accepted
    {
      if e in w.log { AcceptedForGood(w.store, tx, e.tx.inv); }
    }
    forall k, i | 0 <= k < |w.log| && Accepts(w.log[k], i) ensures !Accepts(Event(tx, Apply(w.store, tx).1), i) {
      assert w.log[k] in w.log;
      AcceptedForGood(w.store, tx, i);
    }
  }

  lemma {:induction false} ReadStaysAddressed(w: World, a: Action)
    requires Sane(w) && AllAddressed(w) && TxOf(w, a).None?
    ensures AllAddressed(Do(w, a))
  {
    if a.Step? && a.n in w.calls {
      NextIsAddressed(w, w.calls[a.n], a.now, a.token);
    }
    var w' := Do(w, a);
    forall n | n in w'.calls ensures Addressed(w', w'.calls[n]) {
      assert Addressed(w, w'.calls[n]);
    }
  }

  lemma {:induction false} DoStaysAddressed(w: World, a: Action)
    requires Sane(w) && AllAddressed(w) && AcceptedOnce(w)
    ensures AllAddressed(Do(w, a)) && AcceptedOnce(Do(w, a))
  {
    var w' := Do(w, a);
    DoCommits(w, a);
    if TxOf(w, a).None? {
      ReadStaysAddressed(w, a);
    } else {
      var tx := TxOf(w, a).value;
      CommitsBringNewIds(w, a);
      LogAcceptsOnce(w, w', tx);
      forall n | n in w'.calls ensures Addressed(w', w'.calls[n]) {
        if !w'.calls[n].Finished? { AddressedStays(w, w', tx, Apply(w.store, tx).1, w.calls[n]); }
      }
    }
  }

  lemma {:induction false} RunStaysAddressed(w: World, actions: seq<Action>)
    requires Start(w)
    ensures AllAddressed(Run(w, actions)) && AcceptedOnce(Run(w, actions))
  {
    if actions != [] {
      RunStaysAddressed(w, actions[..|actions| - 1]);
      RunStaysSane(w, actions[..|actions| - 1]);
      DoStaysAddressed(Run(w, actions[..|actions| - 1]), actions[|actions| - 1]);
    }
  }

  // However many requests race for it, an invitation is accepted at most once.
  lemma {:induction false} InvitationIsUsedOnce(w: World, actions: seq<Action>, i: Id, j: nat, k: nat)
    requires Start(w) && j < |Run(w, actions).log| && k < |Run(w, actions).log|
    requires Accepts(Run(w, actions).log[j], i) && Accepts(Run(w, actions).log[k], i)
    ensures j == k
  {
    RunStaysAddressed(w, actions);
  }

  // ------------------------------------------------- the accepting account

  // A change of the account's address that went through.
  predicate Moves(e: Event, user: Id) { e.tx.ChangeEmail? && e.tx.user == user && e.answer == Done }

  predicate MovedSince(log: seq<Event>, from: nat, user: Id) { exists j :: from <= j < |log| && Moves(log[j], user) }

  // The account has this address still, unless it was changed since then.
  ghost predicate HeldSince(was: World, now: World, user: Id, email: string) {
    && user in now.store.accounts && |was.log| <= |now.log|
    && (now.store.accounts[user].email == email || MovedSince(now.log, |was.log|, user))
  }

  // The k-th action begins request n: to accept, for this live account, which has
  // this address at that moment.
  ghost predicate BeganAt(w: World, actions: seq<Action>, k: nat, n: nat, user: Id, email: string)
    requires k < |actions|
  {
    var at := Run(w, actions[..k]);
    && actions[k].Begin? && actions[k].n == n && n !in at.calls
    && actions[k].call.AcceptA? && actions[k].call.user == user && actions[k].call.email == email
    && AccountLive(at.store, user) && at.store.accounts[user].email == email
  }

  predicate AcceptsFor(c: Call, user: Id, email: string) {
    || (c.AcceptA? && c.user == user && c.email == email)
    || (c.Ready? && c.tx.Accept? && c.tx.user == user && c.tx.email == email)
  }

  lemma {:induction false} EmailStays(s: Store, tx: Tx, user: Id)
    requires user in s.accounts
    ensures var (s', answer) := Apply(s, tx);
            user in s'.accounts && (s'.accounts[user].email == s.accounts[user].email || Moves(Event(tx, answer), user))
  {
  }

  lemma {:induction false} StaysHeld(was: World, w: World, a: Action, user: Id, email: string)
    requires HeldSince(was, w, user, email)
    ensures HeldSince(was, Do(w, a), user, email)
  {
    DoCommits(w, a);
    var w' := Do(w, a);
    if TxOf(w, a).Some? {
      EmailStays(w.store, TxOf(w, a).value, user);
      assert w'.log[|w.log|] == Event(TxOf(w, a).value, Apply(w.store, TxOf(w, a).value).1);
      if MovedSince(w.log, |was.log|, user) {
        var j :| |was.log| <= j < |w.log| && Moves(w.log[j], user);
        assert Moves(w'.log[j], user);
      }
    }
  }

  lemma {:induction false} RunHolds(w: World, actions: seq<Action>, k: nat, user: Id, email: string)
    requires k <= |actions| && HeldSince(Run(w, actions[..k]), Run(w, actions[..k]), user, email)
    ensures HeldSince(Run(w, actions[..k]), Run(w, actions), user, email)
  {
    var n := |actions| - 1;
    if k == |actions| {
      assert actions[..k] == actions;
    } else {
      assert actions[..n][..k] == actions[..k];
      RunHolds(w, actions[..n], k, user, email);
      StaysHeld(Run(w, actions[..k]), Run(w, actions[..n]), actions[n], user, email);
    }
  }

  // Every request to accept was begun by the account, at the address, it speaks for.
  lemma {:induction false} BegunBefore(w: World, actions: seq<Action>, n: nat, user: Id, email: string) returns (k: nat)
    requires Start(w) && n in Run(w, actions).calls && AcceptsFor(Run(w, actions).calls[n], user, email)
    ensures k < |actions| && BeganAt(w, actions, k, n, user, email)
  {
    assert actions != [];
    k := |actions| - 1;
    var before, a := Run(w, actions[..k]), actions[k];
    if n in before.calls {
      AcceptsAlready(before, a, n, user, email);
      var last := k;
      k := BegunBefore(w, actions[..last], n, user, email);
      BeganInPrefix(w, actions, last, k, n, user, email);
    } else {
      BeginsToAccept(before, a, n, user, email);
    }
  }

  lemma {:induction false} BeganInPrefix(
    w: World, actions: seq<Action>, m: nat, k: nat, n: nat, user: Id, email: string)
    requires k < m <= |actions| && BeganAt(w, actions[..m], k, n, user, email)
    ensures BeganAt(w, actions, k, n, user, email)
  {
    assert actions[..m][..k] == actions[..k];
  }

  lemma {:induction false} BeginsToAccept(w: World, a: Action, n: nat, user: Id, email: string)
    requires n !in w.calls && n in Do(w, a).calls && AcceptsFor(Do(w, a).calls[n], user, email)
    ensures a.Begin? && a.n == n && a.call.AcceptA? && a.call.user == user && a.call.email == email
    ensures AccountLive(w.store, user) && w.store.accounts[user].email == email
  {
  }

  lemma {:induction false} AcceptsAlready(w: World, a: Action, n: nat, user: Id, email: string)
    requires n in w.calls && AcceptsFor(Do(w, a).calls[n], user, email)
    ensures AcceptsFor(w.calls[n], user, email)
  {
    if a.Step? && a.n == n && !w.calls[n].Ready? && !w.calls[n].AcceptA? {
      NothingAccepted(w.store, w.calls[n], a.now, a.token);
    }
  }

  // The one membership an accepted invitation yields carries exactly the roles
  // stored on it, and belongs to the account that asked, whose address when it
  // asked was, normalised, the one invited; and it still is that account's, unless
  // a change of it went through since.
  lemma {:induction false} AcceptedByItsAddress(w: World, actions: seq<Action>, n: nat, id: Id)
    requires Start(w)
    requires var now := Run(w, actions); n in now.calls && now.calls[n].Ready? && now.calls[n].tx.Accept?
    requires var now := Run(w, actions); Apply(now.store, WithId(now.calls[n].tx, id)).1 == Done
    ensures var now := Run(w, actions); var tx := now.calls[n].tx;
            var inv := now.store.invitations[tx.inv];
            && Address.Normalize(tx.email) == inv.email
            && Apply(now.store, WithId(tx, id)).0.members[id] == Member(inv.org, tx.user, Active, inv.roles)
    ensures var now := Run(w, actions); var tx := now.calls[n].tx;
            exists k: nat ::
              && k < |actions| && BeganAt(w, actions, k, n, tx.user, tx.email)
              && HeldSince(Run(w, actions[..k]), now, tx.user, tx.email)
  {
    RunStaysAddressed(w, actions);
    var now := Run(w, actions);
    assert Addressed(now, now.calls[n]);
    var tx := now.calls[n].tx;
    AcceptingJoins(now.store, tx.inv, tx.user, tx.email, id);
    var k := BegunBefore(w, actions, n, tx.user, tx.email);
    RunHolds(w, actions, k, tx.user, tx.email);
  }

  // ------------------------------------------------------ until it is accepted

  lemma {:induction false} RolesComeFrom(s: Store, tx: Tx, r: Id)
    requires r in Apply(s, tx).0.roles
    ensures r in s.roles || r in NewIds(tx)
  {
  }

  lemma {:induction false} InvitationDescends(w: World, actions: seq<Action>, i: Id)
    requires Sane(w) && i in w.store.invitations
    ensures Descends(w.store, Run(w, actions).store, i)
    ensures Sane(Run(w, actions)) && w.ids <= Run(w, actions).ids
  {
    if actions != [] {
      var n := |actions| - 1;
      var mid := Run(w, actions[..n]);
      InvitationDescends(w, actions[..n], i);
      DoStaysSane(mid, actions[n]);
      DoCommits(mid, actions[n]);
      if TxOf(mid, actions[n]).Some? { CommitsBringNewIds(mid, actions[n]); }
      if TxOf(mid, actions[n]).Some? {
        DescendsOn(w.store, mid.store, TxOf(mid, actions[n]).value, w.ids, i);
      }
    }
  }

  // From its sending to any later moment an invitation keeps its organization and
  // its address, and loses exactly the roles that have been deleted.
  lemma {:induction false} DescendsOn(s: Store, mid: Store, tx: Tx, ids: set<Id>, i: Id)
    requires Descends(s, mid, i) && i in s.invitations && Linked(s) && RowIds(s) <= ids && NewIds(tx) !! ids
    ensures Descends(s, Apply(mid, tx).0, i)
  {
    var s' := Apply(mid, tx).0;
    if i in s'.invitations {
      InvitationsComeFrom(mid, tx, i);
      ApplyDescends(mid, tx, i);
      assert RolesOwned(s, s.invitations[i].org, s.invitations[i].roles);
      forall r | r in s.invitations[i].roles && r in s'.roles ensures r in s'.invitations[i].roles {
        RolesComeFrom(mid, tx, r);
      }
    }
  }

  // ------------------------------------------------------------- spent tokens

  // The token a transaction is about to store on an invitation.
  function Mints(c: Call): Option<Token> {
    match c
    case Ready(InviteMember(_, _, h, _, _, _)) => Some(h.token)
    case Ready(Reissue(_, _, h, _)) => Some(h.token)
    case _ => None
  }

  predicate InUse(s: Store, t: Token) { HashTaken(s, Sha256(t)) }

  // No invitation answers to the token and no request is about to give it to one.
  ghost predicate Spent(w: World, t: Token) {
    && t in w.tokens
    && (forall i :: i in w.store.invitations && w.store.invitations[i].hash == Sha256(t) ==>
        w.store.invitations[i].accepted)
    && forall n :: n in w.calls ==> Mints(w.calls[n]) != Some(t)
  }

  // Tokens are made once: in flight, on one invitation, or neither.
  ghost predicate Minted(w: World) {
    && (forall i :: i in w.store.invitations ==> w.store.invitations[i].hash.token in w.tokens)
    && (forall n :: n in w.calls && Mints(w.calls[n]).Some? ==>
          Mints(w.calls[n]).value in w.tokens && !InUse(w.store, Mints(w.calls[n]).value))
    && (forall n, k :: n in w.calls && k in w.calls && n != k && Mints(w.calls[n]).Some? ==>
        Mints(w.calls[n]) != Mints(w.calls[k]))
  }

  // The token on an invitation, after a transaction.
  lemma {:induction false} HashFrom(s: Store, tx: Tx, i: Id)
    requires i in Apply(s, tx).0.invitations
    ensures var h := Apply(s, tx).0.invitations[i].hash;
            (i in s.invitations && s.invitations[i].hash == h) || Mints(Ready(tx)) == Some(h.token)
  {
  }

  lemma {:induction false} NextMints(s: Store, c: Call, now: int, token: Token)
    requires !c.Ready?
    ensures Mints(Next(s, c, now, token)) == None || Mints(Next(s, c, now, token)) == Some(token)
  {
  }

  lemma {:induction false} MintsWithId(tx: Tx, id: Id)
    ensures Mints(Ready(WithId(tx, id))) == Mints(Ready(tx))
  {
  }

  // The call numbered n has written its token; every other call is where it was.
  lemma {:induction false} MintedAfter(w: World, w': World, tx: Tx, n: nat)
    requires Minted(w) && n in w.calls && Mints(w.calls[n]) == Mints(Ready(tx))
    requires w'.store == Apply(w.store, tx).0 && w'.tokens == w.tokens && n in w'.calls && Mints(w'.calls[n]) == None
    requires forall k :: k in w'.calls ==> k in w.calls && (Mints(w'.calls[k]) == None || w'.calls[k] == w.calls[k])
    ensures Minted(w')
  {
    forall i | i in w'.store.invitations
      ensures w'.store.invitations[i].hash.token in w.tokens
      ensures forall k :: k in w'.calls ==> Mints(w'.calls[k]) != Some(w'.store.invitations[i].hash.token)
    {
      HashFrom(w.store, tx, i);
      TokenIsItsHash(w.store, i);
    }
  }

  lemma {:induction false} TokenIsItsHash(s: Store, i: Id)
    ensures i in s.invitations ==> InUse(s, s.invitations[i].hash.token)
  {
  }

  lemma {:induction false} CommitStaysMinted(w: World, a: Action)
    requires Minted(w) && a.Step? && TxOf(w, a).Some?
    ensures Minted(Do(w, a))
  {
    DoCommits(w, a);
    MintsWithId(w.calls[a.n].tx, a.id);
    MintedAfter(w, Do(w, a), TxOf(w, a).value, a.n);
  }

  lemma {:induction false} DoStaysMinted(w: World, a: Action)
    requires Minted(w)
    ensures Minted(Do(w, a))
  {
    if TxOf(w, a).Some? {
      if a.Step? {
        CommitStaysMinted(w, a);
      } else {
        assert Do(w, a).store.invitations == w.store.invitations;
      }
    } else if a.Step? && a.n in w.calls && !w.calls[a.n].Ready? {
      NextMints(w.store, w.calls[a.n], a.now, a.token);
    }
  }

  lemma {:induction false} RunStaysMinted(w: World, actions: seq<Action>)
    requires Start(w)
    ensures Minted(Run(w, actions))
  {
    if actions != [] {
      RunStaysMinted(w, actions[..|actions| - 1]);
      DoStaysMinted(Run(w, actions[..|actions| - 1]), actions[|actions| - 1]);
    }
  }

  // Reissuing, withdrawing, declining or accepting an invitation spends its token:
  // when it is answered as done, and also when a reissue commits for a retired
  // organization and is answered as not found.
  predicate Ends(tx: Tx) { tx.Reissue? || tx.Withdraw? || tx.Decline? || tx.Accept? }

  predicate TakesEffect(s: Store, tx: Tx) { Apply(s, tx).1 == Done || Apply(s, tx).0 != s }

  lemma {:induction false} EndingFreesTheHash(s: Store, tx: Tx, k: Id)
    requires Unique(s) && Ends(tx) && TakesEffect(s, tx) && k in Apply(s, tx).0.invitations
    ensures tx.inv in s.invitations
    ensures Apply(s, tx).0.invitations[k].hash == s.invitations[tx.inv].hash ==>
              Apply(s, tx).0.invitations[k].accepted || (tx.Reissue? && tx.hash == s.invitations[tx.inv].hash)
  {
  }

  lemma {:induction false} SpentAfter(w: World, w': World, tx: Tx, n: nat)
    requires Sane(w) && Minted(w) && n in w.calls && Mints(w.calls[n]) == Mints(Ready(tx))
    requires Ends(tx) && TakesEffect(w.store, tx) && w'.store == Apply(w.store, tx).0 && w'.tokens == w.tokens
    requires forall k :: k in w'.calls ==> k in w.calls && (Mints(w'.calls[k]) == None || w'.calls[k] == w.calls[k])
    ensures tx.inv in w.store.invitations && Spent(w', w.store.invitations[tx.inv].hash.token)
  {
    assert tx.inv in w.store.invitations;
    TokenIsItsHash(w.store, tx.inv);
    forall k | k in w'.store.invitations
      ensures w'.store.invitations[k].hash == w.store.invitations[tx.inv].hash ==> w'.store.invitations[k].accepted
    {
      EndingFreesTheHash(w.store, tx, k);
    }
  }

  lemma {:induction false} EndingSpends(w: World, a: Action)
    requires Sane(w) && Minted(w) && TxOf(w, a).Some? && Ends(TxOf(w, a).value)
    requires TakesEffect(w.store, TxOf(w, a).value)
    ensures var i := TxOf(w, a).value.inv;
            i in w.store.invitations && Spent(Do(w, a), w.store.invitations[i].hash.token)
  {
    DoCommits(w, a);
    MintsWithId(w.calls[a.n].tx, a.id);
    SpentAfter(w, Do(w, a), TxOf(w, a).value, a.n);
  }

  lemma {:induction false} SpentStays(w: World, a: Action, t: Token)
    requires Spent(w, t)
    ensures Spent(Do(w, a), t)
  {
    var w' := Do(w, a);
    DoCommits(w, a);
    if TxOf(w, a).Some? {
      var tx := TxOf(w, a).value;
      if a.Step? { MintsWithId(w.calls[a.n].tx, a.id); }
      forall i | i in w'.store.invitations && w'.store.invitations[i].hash == Sha256(t)
        ensures w'.store.invitations[i].accepted
      {
        HashFrom(w.store, tx, i);
        AcceptedForGood(w.store, tx, i);
      }
    } else if a.Step? && a.n in w.calls && !w.calls[a.n].Ready? {
      NextMints(w.store, w.calls[a.n], a.now, a.token);
    }
  }

  lemma {:induction false} SpentForGood(w: World, actions: seq<Action>, k: nat, t: Token)
    requires k <= |actions| && Spent(Run(w, actions[..k]), t)
    ensures Spent(Run(w, actions), t)
    decreases |actions|
  {
    if k < |actions| {
      var n := |actions| - 1;
      assert actions[..n][..k] == actions[..k];
      SpentForGood(w, actions[..n], k, t);
      SpentStays(Run(w, actions[..n]), actions[n], t);
    } else {
      assert actions[..k] == actions;
    }
  }

  // Once an invitation is reissued, withdrawn, declined or accepted, the token it
  // had until then resolves to nothing, at any later moment and whatever the clock.
  // A reissue that is answered as not found, its organization being retired, has
  // replaced the token all the same.
  lemma {:induction false} OldTokenIsDead(w: World, actions: seq<Action>, k: nat, i: Id, now: Option<int>)
    requires Start(w) && k < |actions|
    requires var at := Run(w, actions[..k]); var tx := TxOf(at, actions[k]);
             tx.Some? && Ends(tx.value) && tx.value.inv == i && TakesEffect(at.store, tx.value)
    ensures var at := Run(w, actions[..k]);
            i in at.store.invitations && Lookup(Run(w, actions).store, at.store.invitations[i].hash.token, now) == None
  {
    var at := Run(w, actions[..k]);
    RunStaysSane(w, actions[..k]);
    RunStaysMinted(w, actions[..k]);
    EndingSpends(at, actions[k]);
    assert actions[..k + 1][..k] == actions[..k];
    SpentForGood(w, actions, k + 1, at.store.invitations[i].hash.token);
  }

  // ------------------------------------------- telling the dead ends apart

  // With the clock at now, a token names an invitation that is pending, one that
  // has expired strictly before now, or nothing. One that expires exactly now is
  // neither, and is answered like an unknown token.
  lemma {:induction false} PendingOrExpired(
    s: Store, user: Id, email: string, tk: Token, now: int, id: Id, token: Token)
    requires Unique(s)
    ensures var answer := Alone(s, AcceptA(user, email, tk), now, id, token).1;
            answer == Err(ErrInvitationExpired) <==> exists i :: Found(s, tk, None, i) && s.invitations[i].expires < now
    ensures var answer := Alone(s, AcceptA(user, email, tk), now, id, token).1;
            (exists i :: Found(s, tk, None, i) && s.invitations[i].expires == now) ==> answer == Err(ErrNotFound)
    ensures var (s', answer) := Alone(s, AcceptA(user, email, tk), now, id, token);
            answer == Done ==> exists i :: Found(s, tk, None, i) && s.invitations[i].expires > now
                                           && s' == Apply(s, Accept(i, user, email, id)).0
  {
    AloneAccept(s, user, email, tk, now, id, token);
    OneByToken(s, tk, Lookup(s, tk, Some(now)));
    OneByToken(s, tk, Lookup(s, tk, None));
    if Lookup(s, tk, Some(now)).Some? { AcceptNeverExpires(s, Lookup(s, tk, Some(now)).value, user, email, id); }
  }

  // The transaction itself looks at no clock.
  lemma {:induction false} AcceptNeverExpires(s: Store, i: Id, user: Id, email: string, id: Id)
    ensures Apply(s, Accept(i, user, email, id)).1 != Err(ErrInvitationExpired)
  {
  }

  lemma {:induction false} OneByToken(s: Store, tk: Token, found: Option<Id>)
    requires Unique(s) && (found.Some? ==> Found(s, tk, None, found.value))
    ensures found.Some? ==> forall i :: Found(s, tk, None, i) ==> i == found.value
  {
  }

  // Inviting succeeds exactly when the organization is live, the address is usable,
  // every role is in the organization and within the grant, and nobody with the
  // address was invited before, whatever came of it, or belongs already. For a
  // retired organization the row is written all the same.
  lemma {:induction false} InvitedIff(s: Store, g: Grant, email: string, ids: seq<Id>, now: int, id: Id, token: Token)
    requires id !in s.invitations && !InUse(s, token)
    ensures Alone(s, InviteA(g, email, ids, 0), now, id, token).1 == Done
            <==> OrgLive(s, g.org) && Invitable(s, g, email, ids)
    ensures Alone(s, InviteA(g, email, ids, 0), now, id, token).0 != s
            <==> g.org in s.orgs && Invitable(s, g, email, ids)
  {
    AloneInvite(s, g, email, ids, 0, now, id, token);
    assert ids[0..] == ids;
    InvitableIff(s, g, email, ids);
    if Assignable(s, g, ids) == None { InviteTxIff(s, InviteTx(g, email, ids, now, id, token)); }
  }

  lemma {:induction false} InvitableIff(s: Store, g: Grant, email: string, ids: seq<Id>)
    ensures var e := Address.Normalize(email);
            Invitable(s, g, email, ids)
            <==> e != "" && !AddressJoined(s, g.org, e) && !AddressInvited(s, g.org, e) && Assignable(s, g, ids) == None
    ensures Assignable(s, g, ids) == None ==> RolesOwned(s, g.org, IdsOf(ids))
  {
    AssignableIff(s, g, ids);
  }

  lemma {:induction false} InviteTxIff(s: Store, tx: Tx)
    requires tx.InviteMember? && tx.id !in s.invitations && !HashTaken(s, tx.hash) && RolesOwned(s, tx.org, tx.roles)
    ensures Apply(s, tx).0 != s
            <==> !AddressJoined(s, tx.org, tx.email) && !AddressInvited(s, tx.org, tx.email) && tx.org in s.orgs
    ensures Apply(s, tx).1 == Done <==> Apply(s, tx).0 != s && OrgLive(s, tx.org)
  {
    assert Apply(s, tx).0 == s || tx.id in Apply(s, tx).0.invitations;
  }

  // What inviting asks of the address and the roles.
  ghost predicate Invitable(s: Store, g: Grant, email: string, ids: seq<Id>) {
    var e := Address.Normalize(email);
    && e != "" && !AddressJoined(s, g.org, e) && !AddressInvited(s, g.org, e)
    && forall r :: r in ids ==> IsRole(s, g.org, r) && forall p :: p in s.roles[r].perms ==> Known(p) && p in g.perms
  }

  // Accepting leaves the row in place, so somebody who joined by invitation and
  // left again cannot be invited to that address a second time.
  lemma {:induction false} NoSecondInvitation(
    s: Store, g: Grant, i: Id, email: string, ids: seq<Id>, now: int, id: Id, token: Token)
    requires i in s.invitations && s.invitations[i].accepted && s.invitations[i].org == g.org
    requires s.invitations[i].email == Address.Normalize(email) && email != "" && Assignable(s, g, ids) == None
    ensures Alone(s, InviteA(g, email, ids, 0), now, id, token).0 == s
    ensures Alone(s, InviteA(g, email, ids, 0), now, id, token).1 in {Err(ErrAlreadyMember), Err(ErrInvalidEmail)}
  {
    AloneInvite(s, g, email, ids, 0, now, id, token);
    assert ids[0..] == ids;
  }
}
