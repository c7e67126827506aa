/**
  What a batch of invitations means (internal/domain/orgs/invite_many.go): the
  single invitations, one after another.
 */
module OrgBatch {
  import opened Authz
  import opened OrgStore
  import opened OrgCalls
  import Address

  const MAX_INVITES: nat := 50

  // What one invitation draws from the outside: the clock, a row id, a token.
  datatype Draw = Draw(now: int, id: Id, token: Token)

  // InviteOutcome: the invitation and its token, or why there is none.
  datatype Outcome = Outcome(email: string, sent: Option<(Id, Token)>, err: Option<OrgError>)

  // One invitation by itself.
  ghost function Single(s: Store, g: Grant, email: string, ids: seq<Id>, d: Draw): (Store, Answer) {
    Alone(s, InviteA(g, email, ids, 0), d.now, d.id, d.token)
  }

  // The store after inviting every address in order.
  ghost function Folded(s: Store, g: Grant, emails: seq<string>, ids: seq<Id>, draws: seq<Draw>): Store
    requires |emails| <= |draws|
  {
    if emails == [] then s
    else
      var n := |emails| - 1;
      Single(Folded(s, g, emails[..n], ids, draws), g, emails[n], ids, draws[n]).0
  }

  // What the address in position i is told.
  ghost function AnswerAt(s: Store, g: Grant, emails: seq<string>, ids: seq<Id>, draws: seq<Draw>, i: nat): Answer
    requires i < |emails| <= |draws|
  {
    Single(Folded(s, g, emails[..i], ids, draws), g, emails[i], ids, draws[i]).1
  }

  function OutcomeOf(email: string, d: Draw, answer: Answer): Outcome {
    match answer
    case Done => Outcome(Address.Normalize(email), Some((d.id, d.token)), None)
    case Err(e) => Outcome(Address.Normalize(email), None, Some(e))
  }

  // The first n outcomes say, position by position, what each address was told.
  ghost predicate Told(s: Store, g: Grant, emails: seq<string>, ids: seq<Id>, draws: seq<Draw>, outcomes: seq<Outcome>)
    requires |outcomes| <= |emails| <= |draws|
  {
    forall i :: 0 <= i < |outcomes| ==> ToldAt(s, g, emails, ids, draws, outcomes[i], i)
  }

  ghost predicate ToldAt(
    s: Store, g: Grant, emails: seq<string>, ids: seq<Id>, draws: seq<Draw>, outcome: Outcome, i: nat)
    requires i < |emails| <= |draws|
  {
    var answer := AnswerAt(s, g, emails, ids, draws, i);
    Continues(answer) && outcome == OutcomeOf(emails[i], draws[i], answer)
  }

  // One more address: t before it, u after.
  lemma {:induction false} OneMore(
    s: Store, t: Store, u: Store, g: Grant, emails: seq<string>, ids: seq<Id>, draws: seq<Draw>,
    outcomes: seq<Outcome>, answer: Answer)
    requires |outcomes| < |emails| <= |draws| && Told(s, g, emails, ids, draws, outcomes)
    requires t == Folded(s, g, emails[..|outcomes|], ids, draws)
    requires (u, answer) == Single(t, g, emails[|outcomes|], ids, draws[|outcomes|])
    ensures var i := |outcomes|;
            && u == Folded(s, g, emails[..i + 1], ids, draws) && answer == AnswerAt(s, g, emails, ids, draws, i)
            && (Continues(answer) ==> Told(s, g, emails, ids, draws,
                outcomes + [OutcomeOf(emails[i], draws[i], answer)]))
  {
    FoldOne(s, g, emails, ids, draws, |outcomes|);
    TellOne(s, g, emails, ids, draws, outcomes, OutcomeOf(emails[|outcomes|], draws[|outcomes|], answer));
  }

  lemma {:induction false} TellOne(
    s: Store, g: Grant, emails: seq<string>, ids: seq<Id>, draws: seq<Draw>, outcomes: seq<Outcome>, outcome: Outcome)
    requires |outcomes| < |emails| <= |draws| && Told(s, g, emails, ids, draws, outcomes)
    ensures ToldAt(s, g, emails, ids, draws, outcome, |outcomes|) ==>
        Told(s, g, emails, ids, draws, outcomes + [outcome])
  {
    var more := outcomes + [outcome];
    if ToldAt(s, g, emails, ids, draws, outcome, |outcomes|) {
      forall i | 0 <= i < |more| ensures ToldAt(s, g, emails, ids, draws, more[i], i) {
        if i < |outcomes| { assert more[i] == outcomes[i]; }
      }
    }
  }

  lemma {:induction false} FoldOne(s: Store, g: Grant, emails: seq<string>, ids: seq<Id>, draws: seq<Draw>, i: nat)
    requires i < |emails| <= |draws|
    ensures Folded(s, g, emails[..i + 1], ids, draws)
            == Single(Folded(s, g, emails[..i], ids, draws), g, emails[i], ids, draws[i]).0
  {
    assert emails[..i + 1][..i] == emails[..i];
  }

  // The batch stopped at the address in position k.
  ghost predicate StoppedAt(
    s: Store, g: Grant, emails: seq<string>, ids: seq<Id>, draws: seq<Draw>, k: nat, t: Store, answer: Answer)
    requires k < |emails| <= |draws|
  {
    && answer == AnswerAt(s, g, emails, ids, draws, k) && !Continues(answer)
    && t == Folded(s, g, emails[..k + 1], ids, draws)
  }

  // The answers that leave the rest of the batch to go on.
  predicate Continues(answer: Answer) { answer == Done || answer == Err(ErrAlreadyMember) }

  predicate Distinct(emails: seq<string>) {
    forall i, j :: 0 <= i < j < |emails| ==> Address.Normalize(emails[i]) != Address.Normalize(emails[j])
  }

  // The first complaint of the loop that fills the seen map.
  function ScanError(emails: seq<string>, k: nat): Option<OrgError>
    decreases |emails| - k
  {
    if k >= |emails| then None
    else if Address.Normalize(emails[k]) == "" then Some(ErrInvalidEmail)
    else if exists j :: 0 <= j < k && Address.Normalize(emails[j]) == Address.Normalize(emails[k])
        then Some(ErrInvalidBatch)
    else ScanError(emails, k + 1)
  }

  function BatchError(emails: seq<string>): Option<OrgError> {
    if |emails| == 0 || |emails| > MAX_INVITES then Some(ErrInvalidBatch) else ScanError(emails, 0)
  }

  lemma {:induction false} ScanErrorIff(emails: seq<string>, k: nat)
    requires k <= |emails| && Distinct(emails[..k]) && forall i :: 0 <= i < k ==> Address.Normalize(emails[i]) != ""
    ensures ScanError(emails, k) == None <==> Distinct(emails) && forall e :: e in emails ==> Address.Normalize(e) != ""
    decreases |emails| - k
  {
    if k == |emails| {
      assert emails[..k] == emails;
    } else if ScanError(emails, k) == ScanError(emails, k + 1) && Address.Normalize(emails[k]) != "" &&
              forall j :: 0 <= j < k ==> Address.Normalize(emails[j]) != Address.Normalize(emails[k]) {
      assert emails[..k + 1] == emails[..k] + [emails[k]];
      ScanErrorIff(emails, k + 1);
    } else {
      assert emails[k] in emails;
    }
  }

  // A batch is accepted exactly when it names between one and fifty addresses, no
  // two of them the same once normalised, and none empty.
  lemma {:induction false} BatchAcceptedIff(emails: seq<string>)
    ensures BatchError(emails) == None
            <==> 1 <= |emails| <= MAX_INVITES && Distinct(emails) && forall e :: e in emails ==>
                Address.Normalize(e) != ""
  {
    ScanErrorIff(emails, 0);
  }

  // ---------------------------------------------- a batch that passes its checks

  // New rows and tokens, each drawn once.
  ghost predicate Drawn(s: Store, draws: seq<Draw>) {
    && (forall i :: 0 <= i < |draws| ==> draws[i].id !in s.invitations && !HashTaken(s, Sha256(draws[i].token)))
    && (forall i, j :: 0 <= i < j < |draws| ==> draws[i].id != draws[j].id && draws[i].token != draws[j].token)
  }

  // The invitation was sent by one of the first n addresses.
  ghost predicate Sent(emails: seq<string>, draws: seq<Draw>, n: nat, i: Id, inv: Invitation)
    requires n <= |emails| <= |draws|
  {
    exists k :: 0 <= k < n && i == draws[k].id && inv.hash == Sha256(draws[k].token)
        && inv.email == Address.Normalize(emails[k])
  }

  // What n single invitations leave alone, and the rows they may have added.
  ghost predicate Extends(s: Store, t: Store, emails: seq<string>, draws: seq<Draw>, n: nat)
    requires n <= |emails| <= |draws|
  {
    && t == s.(invitations := t.invitations)
    && (forall i :: i in s.invitations ==> i in t.invitations && t.invitations[i] == s.invitations[i])
    && (forall i :: i in t.invitations && i !in s.invitations ==> Sent(emails, draws, n, i, t.invitations[i]))
  }

  lemma {:induction false} SameAssignable(s: Store, t: Store, g: Grant, ids: seq<Id>)
    requires s.roles == t.roles
    ensures Assignable(s, g, ids) == Assignable(t, g, ids)
  {
    if ids != [] { SameAssignable(s, t, g, ids[1..]); }
  }

  lemma {:induction false} FoldedExtends(
    s: Store, g: Grant, emails: seq<string>, ids: seq<Id>, draws: seq<Draw>, n: nat)
    requires n <= |emails| <= |draws| && Drawn(s, draws)
    ensures Extends(s, Folded(s, g, emails[..n], ids, draws), emails, draws, n)
  {
    if n > 0 {
      assert emails[..n][..n - 1] == emails[..n - 1];
      FoldedExtends(s, g, emails, ids, draws, n - 1);
      var t := Folded(s, g, emails[..n - 1], ids, draws);
      SingleAdds(t, g, emails[n - 1], ids, draws[n - 1]);
      var u := Single(t, g, emails[n - 1], ids, draws[n - 1]).0;
      forall i | i in u.invitations && i !in s.invitations ensures Sent(emails, draws, n, i, u.invitations[i]) {
        assert i in t.invitations ==> Sent(emails, draws, n - 1, i, t.invitations[i]);
      }
    }
  }

  // One invitation adds at most one row, addressed and keyed as it says.
  lemma {:induction false} SingleAdds(t: Store, g: Grant, email: string, ids: seq<Id>, d: Draw)
    ensures var u := Single(t, g, email, ids, d).0;
            && u == t.(invitations := u.invitations)
            && (forall i :: i in t.invitations ==> i in u.invitations && u.invitations[i] == t.invitations[i])
            && (forall i :: i in u.invitations && i !in t.invitations ==>
                  i == d.id && u.invitations[i].hash == Sha256(d.token)
                      && u.invitations[i].email == Address.Normalize(email))
  {
    AloneInvite(t, g, email, ids, 0, d.now, d.id, d.token);
  }

  // Somebody here has the address, or was invited with it before.
  ghost predicate Taken(s: Store, o: Id, email: string) {
    AddressJoined(s, o, Address.Normalize(email)) || AddressInvited(s, o, Address.Normalize(email))
  }

  // In a batch that passed its checks no address depends on another: each gets the
  // answer it would have got by itself. It is an invitation or the news that the
  // address is taken, unless the organization has been retired.
  lemma {:induction false} BatchGoesThrough(
    s: Store, g: Grant, emails: seq<string>, ids: seq<Id>, draws: seq<Draw>, i: nat)
    requires i < |emails| <= |draws| && Drawn(s, draws) && g.org in s.orgs
    requires BatchError(emails) == None && Assignable(s, g, ids) == None
    ensures AnswerAt(s, g, emails, ids, draws, i) == Single(s, g, emails[i], ids, draws[i]).1
    ensures Continues(AnswerAt(s, g, emails, ids, draws, i)) <==> OrgLive(s, g.org) || Taken(s, g.org, emails[i])
    ensures AnswerAt(s, g, emails, ids, draws, i) == Err(ErrAlreadyMember) <==> Taken(s, g.org, emails[i])
    ensures draws[i].id in Folded(s, g, emails[..i + 1], ids, draws).invitations <==> !Taken(s, g.org, emails[i])
  {
    var t := Folded(s, g, emails[..i], ids, draws);
    FoldedExtends(s, g, emails, ids, draws, i);
    BatchAcceptedIff(emails);
    assert emails[i] in emails;
    assert RolesOwned(s, g.org, IdsOf(ids)) by { AssignableIff(s, g, ids); }
    SameAssignable(s, t, g, ids);
    assert Extends(s, s, emails, draws, i);
    InvitedOrKnown(s, s, g, emails, ids, draws, i);
    InvitedOrKnown(s, t, g, emails, ids, draws, i);
    FoldOne(s, g, emails, ids, draws, i);
  }

  lemma {:induction false} InvitedOrKnown(
    s: Store, t: Store, g: Grant, emails: seq<string>, ids: seq<Id>, draws: seq<Draw>, i: nat)
    requires i < |emails| <= |draws| && Drawn(s, draws) && g.org in s.orgs && Extends(s, t, emails, draws, i)
    requires Distinct(emails) && Address.Normalize(emails[i]) != ""
    requires Assignable(t, g, ids) == None && RolesOwned(t, g.org, IdsOf(ids))
    ensures Single(t, g, emails[i], ids, draws[i]).1
            == if Taken(s, g.org, emails[i]) then Err(ErrAlreadyMember) else ReadBack(s, g.org)
    ensures draws[i].id in Single(t, g, emails[i], ids, draws[i]).0.invitations <==> !Taken(s, g.org, emails[i])
  {
    var d := draws[i];
    var e := Address.Normalize(emails[i]);
    AloneInvite(t, g, emails[i], ids, 0, d.now, d.id, d.token);
    assert ids[0..] == ids;
    assert AddressJoined(t, g.org, e) == AddressJoined(s, g.org, e);
    assert AddressInvited(t, g.org, e) == AddressInvited(s, g.org, e);
    assert !HashTaken(t, Sha256(d.token)) && d.id !in t.invitations;
  }

  // On a retired organization the batch stops at the first address that is not
  // taken, with that one invitation written and answered as not found.
  lemma {:induction false} RetiredBatchStops(
    s: Store, g: Grant, emails: seq<string>, ids: seq<Id>, draws: seq<Draw>, i: nat)
    requires i < |emails| <= |draws| && Drawn(s, draws) && g.org in s.orgs && !OrgLive(s, g.org)
    requires BatchError(emails) == None && Assignable(s, g, ids) == None
    requires !Taken(s, g.org, emails[i]) && forall j :: 0 <= j < i ==> Taken(s, g.org, emails[j])
    ensures forall j :: 0 <= j < i ==> AnswerAt(s, g, emails, ids, draws, j) == Err(ErrAlreadyMember)
    ensures AnswerAt(s, g, emails, ids, draws, i) == Err(ErrNotFound)
    ensures draws[i].id in Folded(s, g, emails[..i + 1], ids, draws).invitations && draws[i].id !in s.invitations
  {
    forall j | 0 <= j <= i
      ensures AnswerAt(s, g, emails, ids, draws, j) == Err(ErrAlreadyMember) <==> Taken(s, g.org, emails[j])
    {
      BatchGoesThrough(s, g, emails, ids, draws, j);
    }
    BatchGoesThrough(s, g, emails, ids, draws, i);
    BatchAcceptedIff(emails);
    assert emails[i] in emails;
    assert RolesOwned(s, g.org, IdsOf(ids)) by { AssignableIff(s, g, ids); }
    assert Extends(s, s, emails, draws, i);
    InvitedOrKnown(s, s, g, emails, ids, draws, i);
  }

  // Each address gets an invitation and its token, or a refusal, never both, and
  // no address is named twice.
  lemma {:induction false} OutcomesAreOneOrTheOther(
    s: Store, g: Grant, emails: seq<string>, ids: seq<Id>, draws: seq<Draw>, outcomes: seq<Outcome>, i: nat, j: nat)
    requires i < |outcomes| == |emails| <= |draws| && j < |outcomes| && BatchError(emails) == None
    requires Told(s, g, emails, ids, draws, outcomes)
    ensures outcomes[i].sent.Some? <==> outcomes[i].err.None?
    ensures outcomes[i].err.Some? ==> outcomes[i].err.value == ErrAlreadyMember
    ensures outcomes[i].email == Address.Normalize(emails[i]) && (outcomes[i].email == outcomes[j].email ==> i == j)
  {
    BatchAcceptedIff(emails);
  }
}
