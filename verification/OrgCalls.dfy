/**
  The service methods of internal/domain/orgs, each split into its unlocked
  reads and its one transaction, and the interleavings of any number of them.

  A Call says how far one request has come and what it has learned; Next makes
  its next read. Ready holds the transaction it will ask for, with the guard's
  losing flag already fixed. All choices (who runs next, the clock, new ids and
  tokens) are in the list of actions, so a run is a function of that list.
 */
module OrgCalls {
  import opened Authz
  import opened OrgStore
  import Address
  import OrgJoin
  import Sorting

  const INVITATION_TTL: int := 604800   // seven days, in seconds

  datatype Call =
    // SetMemberStatus: nothing read; member read and the rank still to check.
    | StatusA(g: Grant, m: Id, status: Status)
    | StatusB(g: Grant, m: Id, status: Status)
    // RemoveMember
    | RemoveA(g: Grant, m: Id)
    | RemoveB(g: Grant, m: Id)
    // SetMemberRoles: member, rank, each role in turn, the owner role.
    | RolesA(g: Grant, m: Id, ids: seq<Id>)
    | RolesB(g: Grant, m: Id, ids: seq<Id>)
    | RolesC(g: Grant, m: Id, ids: seq<Id>, k: nat)
    // CreateRole, SetRolePermissions, DeleteRole
    | CreateA(g: Grant, key: string, perms: seq<Permission>)
    | PermsA(g: Grant, r: Id, perms: seq<Permission>)
    | DeleteA(g: Grant, r: Id)
    // Invite: each role in turn. Reissue, WithdrawInvitation.
    | InviteA(g: Grant, email: string, ids: seq<Id>, k: nat)
    | ReissueA(g: Grant, inv: Id)
    | WithdrawA(g: Grant, inv: Id)
    // AcceptInvitation and DeclineInvitation: first and second lookup.
    | AcceptA(user: Id, email: string, token: Token)
    | AcceptB(token: Token, at: int)
    | DeclineA(token: Token)
    // Leave
    | LeaveA(user: Id, m: Id)
    // AppointOwner: the organization, then grantOwnership: the owner role, the member.
    | AppointA(org: Id, user: Id)
    | OwnA(org: Id, user: Id)
    | OwnB(org: Id, user: Id, owner: set<Id>)
    // JoinDefaultOrganization: the memberships, the open offers, the member role.
    | JoinA(org: Id, user: Id, email: string)
    | JoinB(org: Id, user: Id, email: string)
    | JoinC(org: Id, user: Id)
    // The transaction to run, and the answer.
    | Ready(tx: Tx)
    | Finished(answer: Answer)

  // -------------------------------------------------------- checks on one read

  // ensureOrganizationScoped
  function Scoped(perms: seq<Permission>): Option<Error> {
    if perms == [] then None
    else if !Known(perms[0]) then Some(ErrUnknownPermission)
    else if ScopeOf(perms[0]) != OrganizationScope then Some(ErrWrongScope)
    else Scoped(perms[1..])
  }

  lemma {:induction false} ScopedIff(perms: seq<Permission>)
    ensures Scoped(perms) == None <==> forall p :: p in perms ==> OrgScoped(p)
  {
    if perms != [] {
      ScopedIff(perms[1..]);
      assert forall p :: p in perms <==> p == perms[0] || p in perms[1..];
      assert Scoped(perms) == None <==> OrgScoped(perms[0]) && Scoped(perms[1..]) == None;
    }
  }

  // CreateRole and SetRolePermissions: the scope first, then the escalation rule.
  function MayStore(g: Grant, perms: seq<Permission>): Option<Error> {
    if Scoped(perms).Some? then Scoped(perms) else CanGrant(g, perms)
  }

  lemma {:induction false} MayStoreIff(g: Grant, perms: seq<Permission>)
    ensures MayStore(g, perms) == None <==> forall p :: p in perms ==> OrgScoped(p) && p in g.perms
  {
    ScopedIff(perms);
    CanGrantIff(g, perms);
  }

  // The first occurrence of each permission.
  function Dedupe(perms: seq<Permission>): (r: seq<Permission>)
    ensures forall p :: p in r <==> p in perms
    ensures Sorting.Distinct(r)
  {
    if perms == [] then []
    else
      var n := |perms| - 1;
      var r := Dedupe(perms[..n]);
      assert perms == perms[..n] + [perms[n]];
      if perms[n] in r then r else r + [perms[n]]
  }

  // A role's permissions, in the order every read returns them.
  function ReadPerms(r: Role): seq<Permission> { Sorting.Sort(Text, r.perms) }

  // ensureRolesAreGrantable, one role.
  function MayAssign(s: Store, g: Grant, r: Id): Option<OrgError> {
    if !IsRole(s, g.org, r) then Some(ErrNotFound)
    else match CanGrant(g, ReadPerms(s.roles[r]))
      case Some(e) => Some(Denied(e))
      case None => None
  }

  lemma {:induction false} MayAssignIff(s: Store, g: Grant, r: Id)
    ensures MayAssign(s, g, r) == None
            <==> IsRole(s, g.org, r) && forall p :: p in s.roles[r].perms ==> Known(p) && p in g.perms
  {
    if IsRole(s, g.org, r) {
      CanGrantIff(g, ReadPerms(s.roles[r]));
      Sorting.SortKeeps(Text, s.roles[r].perms);
    }
  }

  // replacingDropsOwner
  function DropsOwner(s: Store, o: Id, ids: set<Id>): bool {
    RolesNamed(s, o, OWNER) != {} && RolesNamed(s, o, OWNER) * ids == {}
  }

  predicate Self(g: Grant, user: Id) { user != NIL && user == g.actor }

  // InvitationByToken: an unaccepted invitation with this hash in a live
  // organization, unexpired unless the clock is ignored.
  predicate Found(s: Store, token: Token, now: Option<int>, i: Id) {
    && i in s.invitations && s.invitations[i].hash == Sha256(token) && !s.invitations[i].accepted
    && OrgLive(s, s.invitations[i].org)
    && (now.Some? ==> s.invitations[i].expires > now.value)
  }

  ghost function Lookup(s: Store, token: Token, now: Option<int>): (r: Option<Id>)
    ensures r.Some? ==> Found(s, token, now, r.value)
    ensures r.None? ==> forall i :: !Found(s, token, now, i)
  {
    if exists i :: Found(s, token, now, i) then
      var i :| Found(s, token, now, i);
      Some(i)
    else None
  }

  // MemberByUser
  ghost function MemberOf(s: Store, o: Id, user: Id): (r: Option<Id>)
    ensures r.Some? ==> IsMember(s, o, r.value) && s.members[r.value].user == user
    ensures r.None? ==> forall m :: IsMember(s, o, m) ==> s.members[m].user != user
  {
    if exists m :: IsMember(s, o, m) && s.members[m].user == user then
      var m :| IsMember(s, o, m) && s.members[m].user == user;
      Some(m)
    else None
  }

  function Deny(e: Error): Call { Finished(Err(Denied(e))) }

  // ---------------------------------------------------------------- one read

  ghost function Next(s: Store, c: Call, now: int, token: Token): Call {
    match c
    case StatusA(g, m, status) =>
      if status != Active && status != Suspended then Finished(Err(ErrInvalidStatus))
      else if !IsMember(s, g.org, m) then Finished(Err(ErrNotFound))
      else if Self(g, s.members[m].user) then Ready(SetStatus(g.org, m, status, status != Active))
      else StatusB(g, m, status)
    case StatusB(g, m, status) =>
      if !CanAffect(g, MemberPerms(s, g.org, m)) then Deny(ErrInsufficientRank)
      else Ready(SetStatus(g.org, m, status, status != Active))
    case RemoveA(g, m) =>
      // A membership whose account is gone has no rank to compare with.
      if !IsMember(s, g.org, m) || Self(g, s.members[m].user) then Ready(Remove(g.org, m, true))
      else RemoveB(g, m)
    case RemoveB(g, m) =>
      if !CanAffect(g, MemberPerms(s, g.org, m)) then Deny(ErrInsufficientRank)
      else Ready(Remove(g.org, m, true))
    case RolesA(g, m, ids) =>
      if !IsMember(s, g.org, m) then Finished(Err(ErrNotFound))
      else if Self(g, s.members[m].user) then RolesC(g, m, ids, 0)
      else RolesB(g, m, ids)
    case RolesB(g, m, ids) =>
      if !CanAffect(g, MemberPerms(s, g.org, m)) then Deny(ErrInsufficientRank)
      else RolesC(g, m, ids, 0)
    case RolesC(g, m, ids, k) =>
      if k >= |ids| then Ready(ReplaceRoles(g.org, m, IdsOf(ids), DropsOwner(s, g.org, IdsOf(ids))))
      else (match MayAssign(s, g, ids[k])
            case Some(e) => Finished(Err(e))
            case None => RolesC(g, m, ids, k + 1))
    case CreateA(g, key, perms) =>
      (match MayStore(g, perms)
       case Some(e) => Deny(e)
       case None => Ready(CreateRole(g.org, Address.Trim(key), Dedupe(perms), NIL)))
    case PermsA(g, r, perms) =>
      if !IsRole(s, g.org, r) then Finished(Err(ErrNotFound))
      else if s.roles[r].shipped then Finished(Err(ErrRoleProtected))
      else (match MayStore(g, perms)
            case Some(e) => Deny(e)
            case None => Ready(ReplacePerms(g.org, r, Dedupe(perms))))
    case DeleteA(g, r) =>
      if !IsRole(s, g.org, r) then Finished(Err(ErrNotFound))
      else if s.roles[r].shipped then Finished(Err(ErrRoleProtected))
      else Ready(DeleteRole(g.org, r))
    case InviteA(g, email, ids, k) =>
      if Address.Normalize(email) == "" then Finished(Err(ErrInvalidEmail))
      else if k >= |ids| then
        Ready(InviteMember(g.org, Address.Normalize(email), Sha256(token), IdsOf(ids), now + INVITATION_TTL, NIL))
      else (match MayAssign(s, g, ids[k])
            case Some(e) => Finished(Err(e))
            case None => InviteA(g, email, ids, k + 1))
    case ReissueA(g, inv) => Ready(Reissue(g.org, inv, Sha256(token), now + INVITATION_TTL))
    case WithdrawA(g, inv) => Ready(Withdraw(g.org, inv))
    case AcceptA(user, email, tk) =>
      (match Lookup(s, tk, Some(now))
       case None => AcceptB(tk, now)
       case Some(i) =>
         if s.invitations[i].email != Address.Normalize(email) then Finished(Err(ErrAddressMismatch))
         else Ready(Accept(i, user, email, NIL)))
    case AcceptB(tk, at) =>
      (match Lookup(s, tk, None)
       case Some(i) => Finished(Err(if s.invitations[i].expires < at then ErrInvitationExpired else ErrNotFound))
       case None => Finished(Err(ErrNotFound)))
    case DeclineA(tk) =>
      (match Lookup(s, tk, Some(now))
       case None => AcceptB(tk, now)
       case Some(i) => Ready(Decline(i)))
    case LeaveA(user, m) =>
      if m in s.members && s.members[m].user == user && OrgLive(s, s.members[m].org)
      then Ready(Remove(s.members[m].org, m, true))
      else Finished(Err(ErrNotFound))
    case AppointA(o, user) => if OrgLive(s, o) then OwnA(o, user) else Finished(Err(ErrNotFound))
    case OwnA(o, user) =>
      if RolesNamed(s, o, OWNER) == {} then Finished(Err(ErrNotFound))
      else OwnB(o, user, RolesNamed(s, o, OWNER))
    case OwnB(o, user, owner) =>
      (match MemberOf(s, o, user)
       case Some(m) => Ready(ReplaceRoles(o, m, owner, false))
       case None => Ready(AddMember(o, user, owner, NIL, false)))
    case JoinA(o, user, email) => if OrgJoin.Belongs(s, o, user) then Finished(Done) else JoinB(o, user, email)
    case JoinB(o, user, email) =>
      if OrgJoin.OfferUnreadable(s, email, now) then Finished(Err(ErrNotFound))
      else if OrgJoin.OfferedHere(s, o, email, now) then Finished(Done)
      else JoinC(o, user)
    case JoinC(o, user) =>
      if RolesNamed(s, o, OrgJoin.MEMBER) == {} then Finished(Err(ErrNotFound))
      else Ready(AddMember(o, user, RolesNamed(s, o, OrgJoin.MEMBER), NIL, true))
    case Ready(_) => c
    case Finished(_) => c
  }

  // -------------------------------------------------------- one call by itself

  // Reads still to make, at most.
  function Left(c: Call): nat {
    match c
    case Finished(_) => 0
    case Ready(_) => 1
    case RolesA(_, _, ids) => |ids| + 5
    case RolesB(_, _, ids) => |ids| + 4
    case RolesC(_, _, ids, k) => if k >= |ids| then 2 else |ids| - k + 2
    case InviteA(_, _, ids, k) => if k >= |ids| then 2 else |ids| - k + 2
    case StatusA(_, _, _) => 3
    case RemoveA(_, _) => 3
    case AcceptA(_, _, _) => 3
    case DeclineA(_) => 3
    case AppointA(_, _) => 4
    case OwnA(_, _) => 3
    case JoinA(_, _, _) => 4
    case JoinB(_, _, _) => 3
    case _ => 2
  }

  lemma {:induction false} NextMakesProgress(s: Store, c: Call, now: int, token: Token)
    requires !c.Ready? && !c.Finished?
    ensures Left(Next(s, c, now, token)) < Left(c)
  {
    if c.RolesA? || c.RolesB? || c.RolesC? || c.InviteA? {
      RolesMakeProgress(s, c, now, token);
    } else {
      OthersMakeProgress(s, c, now, token);
    }
  }

  lemma {:induction false} RolesMakeProgress(s: Store, c: Call, now: int, token: Token)
    requires c.RolesA? || c.RolesB? || c.RolesC? || c.InviteA?
    ensures Left(Next(s, c, now, token)) < Left(c)
  {
  }

  lemma {:induction false} OthersMakeProgress(s: Store, c: Call, now: int, token: Token)
    requires !c.Ready? && !c.Finished? && !(c.RolesA? || c.RolesB? || c.RolesC? || c.InviteA?)
    ensures Left(Next(s, c, now, token)) < Left(c)
  {
  }

  // The call run to its end with nobody else at work.
  ghost function Alone(s: Store, c: Call, now: int, id: Id, token: Token): (Store, Answer)
    decreases Left(c)
  {
    match c
    case Finished(answer) => (s, answer)
    case Ready(tx) => Apply(s, WithId(tx, id))
    case _ => NextMakesProgress(s, c, now, token); Alone(s, Next(s, c, now, token), now, id, token)
  }

  lemma {:induction false} AloneNext(s: Store, c: Call, now: int, id: Id, token: Token)
    requires !c.Ready? && !c.Finished?
    ensures Alone(s, c, now, id, token) == Alone(s, Next(s, c, now, token), now, id, token)
  {
  }

  lemma {:induction false} AloneReady(s: Store, tx: Tx, now: int, id: Id, token: Token)
    ensures Alone(s, Ready(tx), now, id, token) == Apply(s, WithId(tx, id))
  {
  }

  // grantOwnership by itself.
  lemma {:induction false} AloneOwn(s: Store, o: Id, user: Id, now: int, id: Id, token: Token)
    ensures var owner := RolesNamed(s, o, OWNER);
            Alone(s, OwnA(o, user), now, id, token)
            == if owner == {} then (s, Err(ErrNotFound))
               else match MemberOf(s, o, user)
                 case Some(m) => Apply(s, ReplaceRoles(o, m, owner, false))
                 case None => Apply(s, AddMember(o, user, owner, id, false))
  {
    AloneNext(s, OwnA(o, user), now, id, token);
    if RolesNamed(s, o, OWNER) != {} { AloneOwnB(s, o, user, RolesNamed(s, o, OWNER), now, id, token); }
  }

  lemma {:induction false} AloneOwnB(s: Store, o: Id, user: Id, owner: set<Id>, now: int, id: Id, token: Token)
    ensures Alone(s, OwnB(o, user, owner), now, id, token)
            == match MemberOf(s, o, user)
               case Some(m) => Apply(s, ReplaceRoles(o, m, owner, false))
               case None => Apply(s, AddMember(o, user, owner, id, false))
  {
    AloneNext(s, OwnB(o, user, owner), now, id, token);
    match MemberOf(s, o, user)
    case Some(m) => AloneReady(s, ReplaceRoles(o, m, owner, false), now, id, token);
    case None => AloneReady(s, AddMember(o, user, owner, NIL, false), now, id, token);
  }

  // ensureRolesAreGrantable: the first refusal, in order.
  function Assignable(s: Store, g: Grant, ids: seq<Id>): Option<OrgError> {
    if ids == [] then None
    else match MayAssign(s, g, ids[0])
      case Some(e) => Some(e)
      case None => Assignable(s, g, ids[1..])
  }

  lemma {:induction false} AssignableIff(s: Store, g: Grant, ids: seq<Id>)
    ensures Assignable(s, g, ids) == None
            <==> forall r :: r in ids ==> IsRole(s, g.org, r) && forall p :: p in s.roles[r].perms ==>
                Known(p) && p in g.perms
  {
    if ids != [] {
      MayAssignIff(s, g, ids[0]);
      AssignableIff(s, g, ids[1..]);
      assert forall r :: r in ids <==> r == ids[0] || r in ids[1..];
    }
  }

  // The transaction Invite asks for once every check has passed.
  function InviteTx(g: Grant, email: string, ids: seq<Id>, now: int, id: Id, token: Token): Tx {
    InviteMember(g.org, Address.Normalize(email), Sha256(token), IdsOf(ids), now + INVITATION_TTL, id)
  }

  // Invite by itself: the address, the roles, the transaction.
  lemma {:induction false} AloneInvite(
    s: Store, g: Grant, email: string, ids: seq<Id>, k: nat, now: int, id: Id, token: Token)
    requires k <= |ids|
    ensures Alone(s, InviteA(g, email, ids, k), now, id, token)
            == if Address.Normalize(email) == "" then (s, Err(ErrInvalidEmail))
               else match Assignable(s, g, ids[k..])
                 case Some(e) => (s, Err(e))
                 case None => Apply(s, InviteTx(g, email, ids, now, id, token))
    decreases |ids| - k
  {
    AloneNext(s, InviteA(g, email, ids, k), now, id, token);
    if Address.Normalize(email) != "" {
      if k == |ids| {
        assert Alone(s, Ready(InviteTx(g, email, ids, now, NIL, token)), now, id, token)
            == Apply(s, InviteTx(g, email, ids, now, id, token));
      } else {
        assert ids[k..][0] == ids[k] && ids[k..][1..] == ids[k + 1..];
        if MayAssign(s, g, ids[k]).None? { AloneInvite(s, g, email, ids, k + 1, now, id, token); }
      }
    }
  }

  // pendingInvitation, both lookups at one moment.
  function Unfit(s: Store, found: Option<Id>, now: int): OrgError
    requires found.Some? ==> found.value in s.invitations
  {
    if found.Some? && s.invitations[found.value].expires < now then ErrInvitationExpired else ErrNotFound
  }

  // AcceptInvitation by itself.
  lemma {:induction false} AloneAccept(s: Store, user: Id, email: string, tk: Token, now: int, id: Id, token: Token)
    ensures Alone(s, AcceptA(user, email, tk), now, id, token)
            == match Lookup(s, tk, Some(now))
               case None => (s, Err(Unfit(s, Lookup(s, tk, None), now)))
               case Some(i) =>
                 if s.invitations[i].email != Address.Normalize(email) then (s, Err(ErrAddressMismatch))
                 else Apply(s, Accept(i, user, email, id))
  {
    AloneNext(s, AcceptA(user, email, tk), now, id, token);
    if Lookup(s, tk, Some(now)).None? { AloneUnfit(s, tk, now, id, token); }
  }

  // The second lookup, without the clock.
  lemma {:induction false} AloneUnfit(s: Store, tk: Token, now: int, id: Id, token: Token)
    ensures Alone(s, AcceptB(tk, now), now, id, token) == (s, Err(Unfit(s, Lookup(s, tk, None), now)))
  {
    AloneNext(s, AcceptB(tk, now), now, id, token);
  }

  // SetMemberRoles from its role loop on.
  lemma {:induction false} AloneRoles(s: Store, g: Grant, m: Id, ids: seq<Id>, k: nat, now: int, id: Id, token: Token)
    requires k <= |ids|
    ensures Alone(s, RolesC(g, m, ids, k), now, id, token)
            == match Assignable(s, g, ids[k..])
               case Some(e) => (s, Err(e))
               case None => Apply(s, ReplaceRoles(g.org, m, IdsOf(ids), DropsOwner(s, g.org, IdsOf(ids))))
    decreases |ids| - k
  {
    AloneNext(s, RolesC(g, m, ids, k), now, id, token);
    if k == |ids| {
      var tx := ReplaceRoles(g.org, m, IdsOf(ids), DropsOwner(s, g.org, IdsOf(ids)));
      assert Alone(s, Ready(tx), now, id, token) == Apply(s, tx);
    } else {
      assert ids[k..][0] == ids[k] && ids[k..][1..] == ids[k + 1..];
      if MayAssign(s, g, ids[k]).None? { AloneRoles(s, g, m, ids, k + 1, now, id, token); }
    }
  }

  // ------------------------------------------------------------- interleavings

  datatype Event = Event(tx: Tx, answer: Answer)

  // ids and tokens hold everything ever handed out; grants everything the
  // middleware ever resolved.
  datatype World = World(
    store: Store,
    calls: map<nat, Call>,
    grants: set<Grant>,
    ids: set<Id>,
    tokens: set<Token>,
    log: seq<Event>)

  datatype Action =
    | Resolve(user: Id, org: Id, p: Permission)
    | Begin(n: nat, call: Call)
    | Step(n: nat, now: int, id: Id, token: Token)
    | Elsewhere(tx: Tx)

  // The id a new row gets is made inside its transaction.
  function WithId(tx: Tx, id: Id): Tx {
    match tx
    case AddMember(o, u, ids, _, lenient) => AddMember(o, u, ids, id, lenient)
    case CreateRole(o, key, perms, _) => CreateRole(o, key, perms, id)
    case InviteMember(o, email, h, ids, expires, _) => InviteMember(o, email, h, ids, expires, id)
    case Accept(i, u, email, _) => Accept(i, u, email, id)
    case _ => tx
  }

  // A request as it arrives. Its grant is one the middleware resolved; an
  // accepting account's address is read from its row.
  ghost predicate Arrives(w: World, c: Call) {
    match c
    case StatusA(g, _, _) => g in w.grants
    case RemoveA(g, _) => g in w.grants
    case RolesA(g, _, _) => g in w.grants
    case CreateA(g, _, _) => g in w.grants
    case PermsA(g, _, _) => g in w.grants
    case DeleteA(g, _) => g in w.grants
    case InviteA(g, _, _, k) => g in w.grants && k == 0
    case ReissueA(g, _) => g in w.grants
    case WithdrawA(g, _) => g in w.grants
    case AcceptA(user, email, _) => AccountLive(w.store, user) && w.store.accounts[user].email == email
    case DeclineA(_) => true
    case LeaveA(_, _) => true
    case AppointA(_, _) => true
    case OwnA(_, _) => true   // PromoteToOwner, the deployment step
    case JoinA(_, _, _) => true   // a registration
    case _ => false
  }

  // Changes made by the rest of the program: organizations and accounts come and go.
  predicate IsElsewhere(tx: Tx) {
    tx.CreateOrg? || tx.DeleteOrg? || tx.CreateAccount? || tx.ChangeEmail? || tx.DeleteAccount?
  }

  // The ids a transaction may bring into the store.
  function NewIds(tx: Tx): set<Id> {
    match tx
    case AddMember(_, _, _, id, _) => {id}
    case CreateRole(_, _, _, id) => {id}
    case InviteMember(_, _, _, _, _, id) => {id}
    case Accept(_, _, _, id) => {id}
    case CreateOrg(o, _, _, ids) => IdSet(ids) + {o}
    case CreateAccount(u, _) => {u}
    case _ => {}
  }

  ghost function Do(w: World, a: Action): World {
    match a
    case Resolve(user, o, p) =>
      if o != NIL && p in GrantIn(w.store, user, o).perms
      then w.(grants := w.grants + {GrantIn(w.store, user, o)}) else w
    case Begin(n, call) =>
      if n !in w.calls && Arrives(w, call) then w.(calls := w.calls[n := call]) else w
    case Step(n, now, id, token) =>
      if n !in w.calls || id in w.ids || token in w.tokens then w
      else if w.calls[n].Ready? then
        var tx := WithId(w.calls[n].tx, id);
        var (s, answer) := Apply(w.store, tx);
        w.(store := s, calls := w.calls[n := Finished(answer)], ids := w.ids + {id} + NewIds(tx),
            log := w.log + [Event(tx, answer)])
      else
        w.(calls := w.calls[n := Next(w.store, w.calls[n], now, token)], tokens := w.tokens + {token})
    case Elsewhere(tx) =>
      if !IsElsewhere(tx) || !(NewIds(tx) !! w.ids) then w
      else
        var (s, answer) := Apply(w.store, tx);
        w.(store := s, ids := w.ids + NewIds(tx), log := w.log + [Event(tx, answer)])
  }

  ghost function Run(w: World, actions: seq<Action>): World {
    if actions == [] then w
    else Do(Run(w, actions[..|actions| - 1]), actions[|actions| - 1])
  }

  // The transaction an action commits, if it commits one.
  function TxOf(w: World, a: Action): Option<Tx> {
    match a
    case Step(n, _, id, token) =>
      if n in w.calls && w.calls[n].Ready? && id !in w.ids && token !in w.tokens then Some(WithId(w.calls[n].tx, id))
          else None
    case Elsewhere(tx) => if IsElsewhere(tx) && NewIds(tx) !! w.ids then Some(tx) else None
    case _ => None
  }

  // The store and the log move only by committed transactions.
  lemma {:induction false} DoCommits(w: World, a: Action)
    ensures match TxOf(w, a) {
      case None => Do(w, a).store == w.store && Do(w, a).log == w.log
      case Some(tx) =>
        && Do(w, a).store == Apply(w.store, tx).0 && Do(w, a).log == w.log + [Event(tx, Apply(w.store, tx).1)]
        && w.ids + NewIds(tx) <= Do(w, a).ids
    }
    ensures TxOf(w, a).Some? ==> forall n :: n in Do(w, a).calls ==>
              n in w.calls && (Do(w, a).calls[n].Finished? || Do(w, a).calls[n] == w.calls[n])
  {
  }

  function RowIds(s: Store): set<Id> {
    s.orgs.Keys + s.accounts.Keys + s.members.Keys + s.roles.Keys + s.invitations.Keys
  }

  // Where runs start: consistent rows, nobody at work.
  ghost predicate Start(w: World) {
    && w.calls == map[] && w.grants == {} && w.log == []
    && Linked(w.store) && Unique(w.store)
    && RowIds(w.store) <= w.ids
    && forall i :: i in w.store.invitations ==> w.store.invitations[i].hash.token in w.tokens
  }

  // Every reachable world: consistent rows, every id in use was handed out, and
  // requests ask only for transactions of their own.
  ghost predicate Sane(w: World) {
    && Linked(w.store) && Unique(w.store) && RowIds(w.store) <= w.ids
    && forall n :: n in w.calls && w.calls[n].Ready? ==> !IsElsewhere(w.calls[n].tx)
  }

  // A transaction brings in only ids never seen before.
  lemma {:induction false} CommitsBringNewIds(w: World, a: Action)
    requires Sane(w) && TxOf(w, a).Some?
    ensures NewIds(TxOf(w, a).value) !! w.ids
  {
    if a.Step? { OwnIdOnly(w.calls[a.n].tx, a.id); }
  }

  lemma {:induction false} OwnIdOnly(tx: Tx, id: Id)
    requires !IsElsewhere(tx)
    ensures NewIds(WithId(tx, id)) <= {id} && !IsElsewhere(WithId(tx, id))
  {
  }

  lemma {:induction false} NextStaysHere(s: Store, c: Call, now: int, token: Token)
    requires !c.Ready?
    ensures Next(s, c, now, token).Ready? ==> !IsElsewhere(Next(s, c, now, token).tx)
  {
  }

  lemma {:induction false} PeopleIds(s: Store, tx: Tx)
    ensures var s' := Apply(s, tx).0;
            s'.accounts.Keys <= s.accounts.Keys + NewIds(tx) && s'.members.Keys <= s.members.Keys + NewIds(tx)
  {
  }

  lemma {:induction false} RoleIds(s: Store, tx: Tx)
    ensures var s' := Apply(s, tx).0;
            && s'.orgs.Keys <= s.orgs.Keys + NewIds(tx) && s'.roles.Keys <= s.roles.Keys + NewIds(tx)
            && s'.invitations.Keys <= s.invitations.Keys + NewIds(tx)
  {
  }

  lemma {:induction false} ApplyIds(s: Store, tx: Tx)
    ensures RowIds(Apply(s, tx).0) <= RowIds(s) + NewIds(tx)
  {
    PeopleIds(s, tx);
    RoleIds(s, tx);
  }

  lemma {:induction false} CommitStaysSane(s: Store, tx: Tx, ids: set<Id>)
    requires Linked(s) && Unique(s) && RowIds(s) <= ids
    ensures var s' := Apply(s, tx).0;
            Linked(s') && Unique(s') && RowIds(s') <= ids + NewIds(tx)
  {
    ApplyKeepsLinked(s, tx);
    ApplyKeepsUnique(s, tx);
    ApplyIds(s, tx);
  }

  lemma {:induction false} StepStaysSane(w: World, a: Action)
    requires Sane(w) && a.Step?
    ensures Sane(Do(w, a))
  {
    if a.n in w.calls && a.id !in w.ids {
      if w.calls[a.n].Ready? {
        CommitStaysSane(w.store, WithId(w.calls[a.n].tx, a.id), w.ids);
      } else {
        NextStaysHere(w.store, w.calls[a.n], a.now, a.token);
      }
    }
  }

  lemma {:induction false} ElsewhereStaysSane(w: World, tx: Tx)
    requires Sane(w)
    ensures Sane(Do(w, Elsewhere(tx)))
  {
    if IsElsewhere(tx) && NewIds(tx) !! w.ids { SaneAfter(w, Do(w, Elsewhere(tx)), tx); }
  }

  // Sane rows and calls, after a transaction.
  lemma {:induction false} SaneAfter(w: World, w': World, tx: Tx)
    requires Sane(w) && w'.store == Apply(w.store, tx).0 && w.ids + NewIds(tx) <= w'.ids
    requires forall n :: n in w'.calls && w'.calls[n].Ready? ==> n in w.calls && w'.calls[n] == w.calls[n]
    ensures Sane(w')
  {
    CommitStaysSane(w.store, tx, w.ids);
  }

  lemma {:induction false} NothingForgotten(w: World, a: Action)
    ensures w.ids <= Do(w, a).ids && w.tokens <= Do(w, a).tokens && w.grants <= Do(w, a).grants
  {
  }

  lemma {:induction false} DoStaysSane(w: World, a: Action)
    requires Sane(w)
    ensures Sane(Do(w, a))
    ensures w.ids <= Do(w, a).ids && w.tokens <= Do(w, a).tokens && w.grants <= Do(w, a).grants
  {
    NothingForgotten(w, a);
    if a.Step? {
      StepStaysSane(w, a);
    } else if a.Elsewhere? {
      ElsewhereStaysSane(w, a.tx);
    }
  }
}
