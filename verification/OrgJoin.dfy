/**
  Making the default organization, and joining it on registration
  (internal/domain/orgs/provision.go): who is joined, and what becomes of offers
  already made.
 */
module OrgJoin {
  import opened Authz
  import opened OrgStore
  import Address

  const MEMBER := "member"

  datatype Presence = Present | Absent | Broken

  // InvitationsForEmail: an open offer to the address. The query does not look at
  // whether its organization is retired; reading such an offer back fails.
  predicate Awaits(s: Store, email: string, now: int, i: Id) {
    && i in s.invitations && !s.invitations[i].accepted
    && s.invitations[i].email == Address.Normalize(email) && s.invitations[i].expires > now
  }

  // MembershipsForUser, narrowed to one organization.
  predicate Belongs(s: Store, o: Id, user: Id) {
    OrgLive(s, o) && exists m :: m in s.members && s.members[m].user == user && s.members[m].org == o
  }

  predicate OfferUnreadable(s: Store, email: string, now: int) {
    exists i :: i in s.invitations && Awaits(s, email, now, i) && !OrgLive(s, s.invitations[i].org)
  }

  predicate OfferedHere(s: Store, o: Id, email: string, now: int) {
    exists i :: i in s.invitations && Awaits(s, email, now, i) && s.invitations[i].org == o
  }

  // hasRowIn
  function RowIn(s: Store, o: Id, user: Id, email: string, now: int): Presence {
    if Belongs(s, o, user) then Present
    else if OfferUnreadable(s, email, now) then Broken
    else if OfferedHere(s, o, email, now) then Present
    else Absent
  }

  // JoinDefaultOrganization, once the organization is known.
  function Join(s: Store, o: Id, user: Id, email: string, now: int, id: Id): (Store, Answer) {
    match RowIn(s, o, user, email, now)
    case Present => (s, Done)
    case Broken => (s, Err(ErrNotFound))
    case Absent =>
      if RolesNamed(s, o, MEMBER) == {} then (s, Err(ErrNotFound))
      else Apply(s, AddMember(o, user, RolesNamed(s, o, MEMBER), id, true))
  }

  // An account with an open offer here is not joined, so the offer can still be
  // taken up with exactly the roles it promised.
  lemma {:induction false} OfferSurvivesJoining(
    s: Store, o: Id, user: Id, email: string, now: int, id: Id, i: Id, m: Id)
    requires Linked(s) && Awaits(s, email, now, i) && s.invitations[i].org == o && OrgLive(s, o)
    requires user in s.accounts && m !in s.members && !Joined(s, o, user)
    ensures var t := Join(s, o, user, email, now, id).0; var (u, answer) := Apply(t, Accept(i, user, email, m));
            t == s && answer == Done && u.members[m] == Member(o, user, Active, s.invitations[i].roles)
  {
    assert RolesOwned(s, s.invitations[i].org, s.invitations[i].roles);
    assert !Belongs(s, o, user);
    assert OfferedHere(s, o, email, now);
  }

  // An account that joined before the offer was made cannot take it up at all.
  lemma {:induction false} LateOfferIsRefused(s: Store, i: Id, user: Id, email: string, m: Id)
    requires i in s.invitations && !s.invitations[i].accepted && OrgLive(s, s.invitations[i].org)
    ensures Joined(s, s.invitations[i].org, user) <==> Apply(s, Accept(i, user, email, m)) == (s, Err(ErrAlreadyMember))
  {
  }

  // Registering changes the store if and only if nothing is in the way, and then
  // it adds one plain membership. An offer from a retired organization makes it
  // fail, whatever is offered here; a member's is done without looking.
  lemma {:induction false} JoinsAsMemberIff(s: Store, o: Id, user: Id, email: string, now: int, id: Id)
    requires Linked(s) && OrgLive(s, o)
    ensures var (t, answer) := Join(s, o, user, email, now, id);
            var plain := Member(o, user, Active, RolesNamed(s, o, MEMBER));
            if Joined(s, o, user) then t == s && answer == Done
            else if OfferUnreadable(s, email, now) then t == s && answer == Err(ErrNotFound)
            else if OfferedHere(s, o, email, now) then t == s && answer == Done
            else if RolesNamed(s, o, MEMBER) == {} || user !in s.accounts then t == s && answer == Err(ErrNotFound)
            else id !in s.members ==>
                t == s.(members := s.members[id := plain])
                && answer == if AccountLive(s, user) then Done else Err(ErrNotFound)
  {
    assert RolesOwned(s, o, RolesNamed(s, o, MEMBER));
    assert Belongs(s, o, user) <==> Joined(s, o, user);
  }

  // -------------------------------------------------- the default organization

  const DEFAULT_SLUG := "default"

  datatype Ensured = Ensured(org: Id) | Failed(error: OrgError)

  // What others commit meanwhile.
  function Meanwhile(s: Store, txs: seq<Tx>): Store {
    if txs == [] then s else Apply(Meanwhile(s, txs[..|txs| - 1]), txs[|txs| - 1]).0
  }

  // OrganizationBySlug
  function Look(s: Store, slug: string): Ensured
    requires UniqueSlugs(s)
  {
    if Slugged(s, slug) == {} then Failed(ErrNotFound) else Ensured(TheOne(s, slug))
  }

  // EnsureDefaultOrganization, while others commit: first, between its look and
  // its insertion; then, between a refused insertion and the second look.
  function Ensure(s: Store, o: Id, ids: ShippedIds, first: seq<Tx>, second: seq<Tx>): (Store, Ensured)
    requires Unique(s)
  {
    if Slugged(s, DEFAULT_SLUG) != {} then (s, Ensured(TheOne(s, DEFAULT_SLUG)))
    else
      MeanwhileUnique(s, first);
      var (t, answer) := Apply(Meanwhile(s, first), CreateOrg(o, DEFAULT_SLUG, true, ids));
      if answer.Done? then (t, Ensured(o))
      else if answer.error != ErrSlugTaken then (t, Failed(answer.error))
      else
        ApplyKeepsUnique(Meanwhile(s, first), CreateOrg(o, DEFAULT_SLUG, true, ids));
        MeanwhileUnique(t, second);
        (Meanwhile(t, second), Look(Meanwhile(t, second), DEFAULT_SLUG))
  }

  lemma {:induction false} MeanwhileUnique(s: Store, txs: seq<Tx>)
    requires Unique(s)
    ensures Unique(Meanwhile(s, txs))
  {
    if txs != [] {
      MeanwhileUnique(s, txs[..|txs| - 1]);
      ApplyKeepsUnique(Meanwhile(s, txs[..|txs| - 1]), txs[|txs| - 1]);
    }
  }

  function TheOne(s: Store, slug: string): (o: Id)
    requires UniqueSlugs(s) && Slugged(s, slug) != {}
    ensures o in Slugged(s, slug) && forall q :: q in Slugged(s, slug) ==> q == o
  {
    var o :| o in Slugged(s, slug);
    OneSlugged(s, slug, o);
    o
  }

  lemma {:induction false} OneSlugged(s: Store, slug: string, o: Id)
    requires UniqueSlugs(s) && o in Slugged(s, slug)
    ensures forall q :: q in Slugged(s, slug) ==> q == o
  {
    forall q | q in Slugged(s, slug) ensures q == o {
      assert OrgLive(s, q) && OrgLive(s, o);
    }
  }

  // However others interfere, once it has succeeded the default organization is
  // there, live, the only one of its name, and asking again finds it and writes
  // nothing. One made here is protected and has the shipped roles.
  lemma {:induction false} EnsuringIsIdempotent(
    s: Store, o: Id, ids: ShippedIds, first: seq<Tx>, second: seq<Tx>,
    o2: Id, ids2: ShippedIds, first2: seq<Tx>, second2: seq<Tx>)
    requires Unique(s) && Ensure(s, o, ids, first, second).1.Ensured?
    ensures var (t, e) := Ensure(s, o, ids, first, second);
            && Unique(t) && Slugged(t, DEFAULT_SLUG) == {e.org} && Ensure(t, o2, ids2, first2, second2) == (t, e)
    ensures var (t, e) := Ensure(s, o, ids, first, second);
            Slugged(s, DEFAULT_SLUG) == {} && Slugged(Meanwhile(s, first), DEFAULT_SLUG) == {} ==>
              e.org == o && t.orgs[o].protected && RolesNamed(t, o, OWNER) == {ids.owner}
  {
    var (t, e) := Ensure(s, o, ids, first, second);
    EnsuredIsThere(s, o, ids, first, second);
    assert TheOne(t, DEFAULT_SLUG) in Slugged(t, DEFAULT_SLUG);
    var between := Meanwhile(s, first);
    MeanwhileUnique(s, first);
    if Slugged(s, DEFAULT_SLUG) == {} && Slugged(between, DEFAULT_SLUG) == {} { MadeHere(between, o, ids); }
  }

  lemma {:induction false} EnsuredIsThere(s: Store, o: Id, ids: ShippedIds, first: seq<Tx>, second: seq<Tx>)
    requires Unique(s) && Ensure(s, o, ids, first, second).1.Ensured?
    ensures var (t, e) := Ensure(s, o, ids, first, second);
            Unique(t) && Slugged(t, DEFAULT_SLUG) == {e.org}
  {
    var (t, e) := Ensure(s, o, ids, first, second);
    if Slugged(s, DEFAULT_SLUG) == {} {
      var tx := CreateOrg(o, DEFAULT_SLUG, true, ids);
      MeanwhileUnique(s, first);
      ApplyKeepsUnique(Meanwhile(s, first), tx);
      if Apply(Meanwhile(s, first), tx).1.Done? {
        assert o in Slugged(t, DEFAULT_SLUG);
      } else {
        MeanwhileUnique(Apply(Meanwhile(s, first), tx).0, second);
      }
    }
    OneSlugged(t, DEFAULT_SLUG, e.org);
  }

  lemma {:induction false} MadeHere(s: Store, o: Id, ids: ShippedIds)
    requires Unique(s) && Apply(s, CreateOrg(o, DEFAULT_SLUG, true, ids)).1.Done?
    ensures var t := Apply(s, CreateOrg(o, DEFAULT_SLUG, true, ids)).0;
            t.orgs[o].protected && RolesNamed(t, o, OWNER) == {ids.owner}
  {
    var t := Apply(s, CreateOrg(o, DEFAULT_SLUG, true, ids)).0;
    ApplyKeepsUnique(s, CreateOrg(o, DEFAULT_SLUG, true, ids));
    assert t.roles[ids.owner] == Shipped(o, OWNER_ROLE);
    assert ids.owner in RolesNamed(t, o, OWNER);
  }

  // Two processes starting at once both find nothing. The one whose insertion is
  // refused for the name wrote nothing; its second look finds the winner's, unless
  // that one is gone again, which cannot be when it is protected.
  lemma {:induction false} LoserFindsTheWinner(s: Store, o: Id, ids: ShippedIds, first: seq<Tx>, second: seq<Tx>)
    requires Unique(s) && Slugged(s, DEFAULT_SLUG) == {}
    requires Apply(Meanwhile(s, first), CreateOrg(o, DEFAULT_SLUG, true, ids)).1 == Err(ErrSlugTaken)
    ensures var between, (t, e) := Meanwhile(s, first), Ensure(s, o, ids, first, second);
            && t == Meanwhile(between, second)
            && (e == Failed(ErrNotFound) <==> Slugged(t, DEFAULT_SLUG) == {})
            && UniqueSlugs(between) && Slugged(between, DEFAULT_SLUG) != {}
            && (between.orgs[TheOne(between, DEFAULT_SLUG)].protected ==>
                  e == Ensured(TheOne(between, DEFAULT_SLUG)))
  {
    var between := Meanwhile(s, first);
    MeanwhileUnique(s, first);
    MeanwhileUnique(between, second);
    var winner := TheOne(between, DEFAULT_SLUG);
    if between.orgs[winner].protected {
      ProtectedMeanwhile(between, second, winner);
      assert winner in Slugged(Meanwhile(between, second), DEFAULT_SLUG);
      OneSlugged(Meanwhile(between, second), DEFAULT_SLUG, winner);
    }
  }

  // No transaction retires or renames a protected organization.
  lemma {:induction false} ProtectedStays(s: Store, tx: Tx, o: Id)
    requires OrgLive(s, o) && s.orgs[o].protected
    ensures OrgLive(Apply(s, tx).0, o) && Apply(s, tx).0.orgs[o] == s.orgs[o]
  {
  }

  lemma {:induction false} ProtectedMeanwhile(s: Store, txs: seq<Tx>, o: Id)
    requires OrgLive(s, o) && s.orgs[o].protected
    ensures OrgLive(Meanwhile(s, txs), o) && Meanwhile(s, txs).orgs[o] == s.orgs[o]
  {
    if txs != [] {
      ProtectedMeanwhile(s, txs[..|txs| - 1], o);
      ProtectedStays(Meanwhile(s, txs[..|txs| - 1]), txs[|txs| - 1], o);
    }
  }
}
