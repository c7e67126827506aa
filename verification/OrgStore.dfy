/**
  The rows behind internal/domain/orgs and the transactions on them, as
  internal/store/repositories/orgs.go and invitations.go write them. Each
  function describes one committed transaction: it either takes effect whole
  or leaves the store as it was.

  Display names, join dates, inviters and audit entries are not modelled.
 */
module OrgStore {
  import opened Authz

  type Token = nat

  // SHA-256 of an invitation token: equal hashes mean equal tokens.
  datatype TokenHash = Sha256(token: Token)

  // OtherStatus stands for any string that is not one of the two stored values.
  datatype Status = Active | Suspended | OtherStatus

  datatype Org = Org(slug: string, live: bool, protected: bool)
  datatype Account = Account(email: string, live: bool)
  datatype Member = Member(org: Id, user: Id, status: Status, roles: set<Id>)
  datatype Role = Role(org: Id, key: string, shipped: bool, perms: seq<Permission>)
  datatype Invitation = Invitation(
    org: Id, email: string, hash: TokenHash, expires: int, accepted: bool, roles: set<Id>)

  datatype Store = Store(
    orgs: map<Id, Org>,
    accounts: map<Id, Account>,
    members: map<Id, Member>,
    roles: map<Id, Role>,
    invitations: map<Id, Invitation>)

  datatype OrgError =
    | Denied(why: Error)
    | ErrNotFound | ErrLastOwner | ErrRoleProtected | ErrRoleInUse | ErrRoleKeyTaken
    | ErrAlreadyMember | ErrInvalidStatus | ErrInvitationExpired | ErrAddressMismatch
    | ErrInvalidEmail | ErrInvalidBatch | ErrProtected | ErrSlugTaken
    | ErrStore   // any other refusal by the database

  datatype Answer = Done | Err(error: OrgError)

  // -------------------------------------------------------------------- reads

  predicate OrgLive(s: Store, o: Id) { o in s.orgs && s.orgs[o].live }

  // OrganizationBySlug: the live organizations of this name.
  function Slugged(s: Store, slug: string): set<Id> {
    set o | o in s.orgs && s.orgs[o].live && s.orgs[o].slug == slug
  }

  predicate AccountLive(s: Store, u: Id) { u in s.accounts && s.accounts[u].live }

  // Member: a membership of this organization whose account is still live.
  predicate IsMember(s: Store, o: Id, m: Id) {
    m in s.members && s.members[m].org == o && AccountLive(s, s.members[m].user)
  }

  predicate IsRole(s: Store, o: Id, r: Id) { r in s.roles && s.roles[r].org == o }

  predicate RolesOwned(s: Store, o: Id, ids: set<Id>) { forall r :: r in ids ==> IsRole(s, o, r) }

  // RoleByKey: a unique index makes this at most one role.
  function RolesNamed(s: Store, o: Id, key: string): set<Id> {
    set r | r in s.roles && s.roles[r].org == o && s.roles[r].key == key
  }

  // MemberPermissions: what the membership carries, whatever its status.
  function MemberPerms(s: Store, o: Id, m: Id): set<Permission> {
    set r, p | m in s.members && s.members[m].org == o && r in s.members[m].roles && r in s.roles
               && p in s.roles[r].perms :: p
  }

  // An active membership of a live account in a live organization.
  predicate ActiveIn(s: Store, user: Id, o: Id, m: Id) {
    OrgLive(s, o) && IsMember(s, o, m) && s.members[m].user == user && s.members[m].status == Active
  }

  // The grant the middleware resolves.
  function GrantIn(s: Store, user: Id, o: Id): Grant {
    Grant(user, o, set m, p | m in s.members && ActiveIn(s, user, o, m) && p in MemberPerms(s, o, m) && Known(p) :: p)
  }

  // ------------------------------------------------------- the last-owner rule

  predicate HoldsKey(s: Store, ids: set<Id>, key: string) {
    exists r :: r in ids && r in s.roles && s.roles[r].key == key
  }

  predicate IsOwner(s: Store, o: Id, m: Id) {
    && IsMember(s, o, m) && s.members[m].status == Active
    && HoldsKey(s, s.members[m].roles, OWNER)
  }

  function Owners(s: Store, o: Id): set<Id> {
    set m | m in s.members && IsOwner(s, o, m)
  }

  datatype OwnerState = OwnerState(owners: nat, subjectHoldsOwner: bool)

  function OwnerStateOf(s: Store, o: Id, m: Id): OwnerState {
    OwnerState(|Owners(s, o)|, m in Owners(s, o))
  }

  // RefuseLastOwnerLoss, on the facts read inside the transaction.
  function OwnerGuard(losing: bool, state: OwnerState): Option<OrgError> {
    if !losing || !state.subjectHoldsOwner then None
    else if state.owners <= 1 then Some(ErrLastOwner)
    else None
  }

  function RoleGuard(holders: nat): Option<OrgError> {
    if holders > 0 then Some(ErrRoleInUse) else None
  }

  // applyOwnerGuard: lock the organization, read the state, ask the rule.
  function Guarded(s: Store, o: Id, m: Id, losing: bool): Option<OrgError> {
    if !OrgLive(s, o) then Some(ErrNotFound) else OwnerGuard(losing, OwnerStateOf(s, o, m))
  }

  // ------------------------------------------------------------- transactions

  datatype Tx =
    | SetStatus(org: Id, member: Id, status: Status, losing: bool)
    | Remove(org: Id, member: Id, losing: bool)
    | ReplaceRoles(org: Id, member: Id, roles: set<Id>, losing: bool)
    | AddMember(org: Id, user: Id, roles: set<Id>, id: Id, lenient: bool)   // lenient: a member already is no error
    | CreateRole(org: Id, key: string, perms: seq<Permission>, id: Id)
    | ReplacePerms(org: Id, role: Id, perms: seq<Permission>)
    | DeleteRole(org: Id, role: Id)
    | InviteMember(org: Id, email: string, hash: TokenHash, roles: set<Id>, expires: int, id: Id)
    | Reissue(org: Id, inv: Id, hash: TokenHash, expires: int)
    | Withdraw(org: Id, inv: Id)
    | Accept(inv: Id, user: Id, email: string, id: Id)   // email: what the service compared; not written
    | Decline(inv: Id)
    | CreateOrg(org: Id, slug: string, protected: bool, ids: ShippedIds)
    | DeleteOrg(org: Id)
    | CreateAccount(user: Id, email: string)
    | ChangeEmail(user: Id, email: string)
    | DeleteAccount(user: Id)

  // Role keys: lowercase letters, digits and single inner underscores, 64 at most.
  predicate ValidRoleKey(key: string) {
    && 0 < |key| <= 64 && key[0] != '_' && key[|key| - 1] != '_'
    && forall i :: 0 <= i < |key| ==>
         'a' <= key[i] <= 'z' || '0' <= key[i] <= '9' || (key[i] == '_' && i > 0 && key[i - 1] != '_')
  }

  function IdsOf(ids: seq<Id>): set<Id> { set r | r in ids }

  function SetStatusTx(s: Store, o: Id, m: Id, status: Status, losing: bool): (Store, Answer) {
    match Guarded(s, o, m, losing)
    case Some(e) => (s, Err(e))
    case None =>
      if m !in s.members || s.members[m].org != o then (s, Err(ErrNotFound))
      else (s.(members := s.members[m := s.members[m].(status := status)]), Done)
  }

  function RemoveTx(s: Store, o: Id, m: Id, losing: bool): (Store, Answer) {
    match Guarded(s, o, m, losing)
    case Some(e) => (s, Err(e))
    case None =>
      if m !in s.members || s.members[m].org != o then (s, Err(ErrNotFound))
      else (s.(members := s.members - {m}), Done)
  }

  function ReplaceRolesTx(s: Store, o: Id, m: Id, ids: set<Id>, losing: bool): (Store, Answer) {
    match Guarded(s, o, m, losing)
    case Some(e) => (s, Err(e))
    case None =>
      if m !in s.members || s.members[m].org != o || !RolesOwned(s, o, ids) then (s, Err(ErrNotFound))
      else (s.(members := s.members[m := s.members[m].(roles := ids)]), Done)
  }

  // One membership per account and organization, whatever its status.
  predicate Joined(s: Store, o: Id, user: Id) {
    exists m :: m in s.members && s.members[m].org == o && s.members[m].user == user
  }

  function Insert(s: Store, o: Id, user: Id, ids: set<Id>, id: Id): Store {
    s.(members := s.members[id := Member(o, user, Active, ids)])
  }

  function AddMemberTx(s: Store, o: Id, user: Id, ids: set<Id>, id: Id, lenient: bool): (Store, Answer) {
    if Joined(s, o, user) then (s, if lenient then Done else Err(ErrAlreadyMember))
    else if user !in s.accounts || o !in s.orgs || !RolesOwned(s, o, ids) then (s, Err(ErrNotFound))
    else if id in s.members then (s, Err(ErrStore))
    else
      // The row is read back through Member, which refuses a deleted account.
      (Insert(s, o, user, ids, id), if AccountLive(s, user) then Done else Err(ErrNotFound))
  }

  function CreateRoleTx(s: Store, o: Id, key: string, perms: seq<Permission>, id: Id): (Store, Answer) {
    if !ValidRoleKey(key) || o !in s.orgs || id in s.roles then (s, Err(ErrStore))
    else if RolesNamed(s, o, key) != {} then (s, Err(ErrRoleKeyTaken))
    else (s.(roles := s.roles[id := Role(o, key, false, perms)]), Done)
  }

  function ReplacePermsTx(s: Store, o: Id, r: Id, perms: seq<Permission>): (Store, Answer) {
    if !IsRole(s, o, r) then (s, Err(ErrNotFound))
    else (s.(roles := s.roles[r := s.roles[r].(perms := perms)]), Done)
  }

  function Holders(s: Store, r: Id): set<Id> {
    set m | m in s.members && r in s.members[m].roles
  }

  // The cascade a role's deletion sends through the invitations naming it.
  function Forget(invs: map<Id, Invitation>, r: Id): map<Id, Invitation> {
    map i | i in invs :: invs[i].(roles := invs[i].roles - {r})
  }

  function DeleteRoleTx(s: Store, o: Id, r: Id): (Store, Answer) {
    if !OrgLive(s, o) || !IsRole(s, o, r) then (s, Err(ErrNotFound))
    else if s.roles[r].shipped then (s, Err(ErrRoleProtected))
    else
      match RoleGuard(|Holders(s, r)|)
      case Some(e) => (s, Err(e))
      case None => (s.(roles := s.roles - {r}, invitations := Forget(s.invitations, r)), Done)
  }

  // A membership in this organization whose account row carries the address. The
  // query does not look at deleted_at, so a deleted account still occupies it.
  predicate AddressJoined(s: Store, o: Id, email: string) {
    exists m :: m in s.members && s.members[m].org == o
                && s.members[m].user in s.accounts && s.accounts[s.members[m].user].email == email
  }

  // The unique index on (organization, email) also covers accepted invitations.
  predicate AddressInvited(s: Store, o: Id, email: string) {
    exists i :: i in s.invitations && s.invitations[i].org == o && s.invitations[i].email == email
  }

  // The row is read back with its organization, which hides a retired one: the
  // write stands and is answered as not found.
  function ReadBack(s: Store, o: Id): Answer { if OrgLive(s, o) then Done else Err(ErrNotFound) }

  predicate HashTaken(s: Store, h: TokenHash) {
    exists i :: i in s.invitations && s.invitations[i].hash == h
  }

  function InviteMemberTx(
    s: Store, o: Id, email: string, h: TokenHash, ids: set<Id>, expires: int, id: Id): (Store, Answer)
  {
    if AddressJoined(s, o, email) || AddressInvited(s, o, email) || HashTaken(s, h) then (s, Err(ErrAlreadyMember))
    else if o !in s.orgs || id in s.invitations then (s, Err(ErrStore))
    else if !RolesOwned(s, o, ids) then (s, Err(ErrNotFound))
    else (s.(invitations := s.invitations[id := Invitation(o, email, h, expires, false, ids)]), ReadBack(s, o))
  }

  // An unaccepted invitation of this organization.
  predicate Open(s: Store, o: Id, i: Id) {
    i in s.invitations && s.invitations[i].org == o && !s.invitations[i].accepted
  }

  function ReissueTx(s: Store, o: Id, i: Id, h: TokenHash, expires: int): (Store, Answer) {
    if !Open(s, o, i) then (s, Err(ErrNotFound))
    else if exists j :: j in s.invitations && j != i && s.invitations[j].hash == h then (s, Err(ErrRoleKeyTaken))
    else (s.(invitations := s.invitations[i := s.invitations[i].(hash := h, expires := expires)]), ReadBack(s, o))
  }

  function WithdrawTx(s: Store, o: Id, i: Id): (Store, Answer) {
    if !Open(s, o, i) then (s, Err(ErrNotFound))
    else (s.(invitations := s.invitations - {i}), Done)
  }

  function DeclineTx(s: Store, i: Id): (Store, Answer) {
    if i !in s.invitations || s.invitations[i].accepted then (s, Err(ErrNotFound))
    else (s.(invitations := s.invitations - {i}), Done)
  }

  // Neither the token nor the expiry is looked at again here.
  function AcceptTx(s: Store, i: Id, user: Id, id: Id): (Store, Answer) {
    if i !in s.invitations || s.invitations[i].accepted then (s, Err(ErrNotFound))
    else
      var inv := s.invitations[i];
      if !OrgLive(s, inv.org) then (s, Err(ErrNotFound))
      else if Joined(s, inv.org, user) then (s, Err(ErrAlreadyMember))
      else if user !in s.accounts || id in s.members then (s, Err(ErrStore))
      else if !RolesOwned(s, inv.org, inv.roles) then (s, Err(ErrNotFound))
      else
        (Insert(s, inv.org, user, inv.roles, id).(invitations := s.invitations[i := inv.(accepted := true)]), Done)
  }

  function Shipped(o: Id, def: RoleDefinition): Role { Role(o, def.key, true, def.perms) }

  datatype ShippedIds = ShippedIds(owner: Id, admin: Id, member: Id, viewer: Id)

  function IdSet(ids: ShippedIds): set<Id> { {ids.owner, ids.admin, ids.member, ids.viewer} }

  predicate AllDiffer(ids: ShippedIds) {
    && ids.owner != ids.admin && ids.owner != ids.member && ids.owner != ids.viewer
    && ids.admin != ids.member && ids.admin != ids.viewer && ids.member != ids.viewer
  }

  function DefinitionFor(ids: ShippedIds, r: Id): RoleDefinition {
    if r == ids.owner then OWNER_ROLE
    else if r == ids.admin then ADMIN_ROLE
    else if r == ids.member then MEMBER_ROLE
    else VIEWER_ROLE
  }

  function ShippedRows(o: Id, ids: ShippedIds): map<Id, Role> {
    map r | r in IdSet(ids) :: Shipped(o, DefinitionFor(ids, r))
  }

  // The organization and its shipped roles, in one transaction.
  function CreateOrgTx(s: Store, o: Id, slug: string, protected: bool, ids: ShippedIds): (Store, Answer) {
    if o in s.orgs || !AllDiffer(ids) || IdSet(ids) * s.roles.Keys != {} then (s, Err(ErrStore))
    else if Slugged(s, slug) != {} then (s, Err(ErrSlugTaken))
    else (s.(orgs := s.orgs[o := Org(slug, true, protected)], roles := s.roles + ShippedRows(o, ids)), Done)
  }

  function DeleteOrgTx(s: Store, o: Id): (Store, Answer) {
    if !OrgLive(s, o) then (s, Err(ErrNotFound))
    else if s.orgs[o].protected then (s, Err(ErrProtected))
    else (s.(orgs := s.orgs[o := s.orgs[o].(live := false)]), Done)
  }

  // One live account per address.
  predicate AddressLive(s: Store, email: string) {
    exists u :: u in s.accounts && s.accounts[u].live && s.accounts[u].email == email
  }

  function Apply(s: Store, tx: Tx): (Store, Answer) {
    match tx
    case SetStatus(o, m, status, losing) => SetStatusTx(s, o, m, status, losing)
    case Remove(o, m, losing) => RemoveTx(s, o, m, losing)
    case ReplaceRoles(o, m, ids, losing) => ReplaceRolesTx(s, o, m, ids, losing)
    case AddMember(o, u, ids, id, lenient) => AddMemberTx(s, o, u, ids, id, lenient)
    case CreateRole(o, key, perms, id) => CreateRoleTx(s, o, key, perms, id)
    case ReplacePerms(o, r, perms) => ReplacePermsTx(s, o, r, perms)
    case DeleteRole(o, r) => DeleteRoleTx(s, o, r)
    case InviteMember(o, email, h, ids, expires, id) => InviteMemberTx(s, o, email, h, ids, expires, id)
    case Reissue(o, i, h, expires) => ReissueTx(s, o, i, h, expires)
    case Withdraw(o, i) => WithdrawTx(s, o, i)
    case Accept(i, u, _, id) => AcceptTx(s, i, u, id)
    case Decline(i) => DeclineTx(s, i)
    case CreateOrg(o, slug, protected, ids) => CreateOrgTx(s, o, slug, protected, ids)
    case DeleteOrg(o) => DeleteOrgTx(s, o)
    case CreateAccount(u, email) =>
      if u in s.accounts || AddressLive(s, email) then (s, Err(ErrStore))
      else (s.(accounts := s.accounts[u := Account(email, true)]), Done)
    case ChangeEmail(u, email) =>
      if !AccountLive(s, u) then (s, Err(ErrNotFound))
      else if AddressLive(s, email) then (s, Err(ErrStore))
      else (s.(accounts := s.accounts[u := Account(email, true)]), Done)
    case DeleteAccount(u) =>
      if !AccountLive(s, u) then (s, Err(ErrNotFound))
      else (s.(accounts := s.accounts[u := s.accounts[u].(live := false)]), Done)
  }

  // ------------------------------------------------------ referential integrity

  // Foreign keys and tenant scoping of role assignments.
  ghost predicate Linked(s: Store) { MembersLinked(s) && InvitationsLinked(s) }

  ghost predicate MembersLinked(s: Store) {
    forall m :: m in s.members ==> RolesOwned(s, s.members[m].org, s.members[m].roles)
  }

  ghost predicate InvitationsLinked(s: Store) {
    forall i :: i in s.invitations ==> RolesOwned(s, s.invitations[i].org, s.invitations[i].roles)
  }

  // The unique indexes.
  ghost predicate Unique(s: Store) {
    && UniqueMembers(s) && UniqueRoles(s) && UniqueInvitations(s) && UniqueSlugs(s)
    && forall r :: r in s.roles ==> s.roles[r].org in s.orgs
  }

  ghost predicate UniqueSlugs(s: Store) {
    forall o, q | OrgLive(s, o) && OrgLive(s, q) :: s.orgs[o].slug == s.orgs[q].slug ==> o == q
  }

  ghost predicate UniqueMembers(s: Store) {
    forall m, n | m in s.members && n in s.members ::
      s.members[m].org == s.members[n].org && s.members[m].user == s.members[n].user ==> m == n
  }

  ghost predicate UniqueRoles(s: Store) {
    forall q, r | q in s.roles && r in s.roles ::
      s.roles[q].org == s.roles[r].org && s.roles[q].key == s.roles[r].key ==> q == r
  }

  ghost predicate UniqueInvitations(s: Store) {
    forall i, j | i in s.invitations && j in s.invitations ::
      s.invitations[i].hash == s.invitations[j].hash
      || (s.invitations[i].org == s.invitations[j].org && s.invitations[i].email == s.invitations[j].email)
      ==> i == j
  }

  // No membership or invitation ever names a role that is missing or belongs to
  // another organization.
  lemma {:induction false} ApplyKeepsLinked(s: Store, tx: Tx)
    requires Linked(s)
    ensures Linked(Apply(s, tx).0)
  {
    if tx.DeleteRole? {
      DeleteRoleKeepsLinked(s, tx.org, tx.role);
    } else {
      forall o, ids | RolesOwned(s, o, ids) ensures RolesOwned(Apply(s, tx).0, o, ids) { RolesStay(s, tx, o, ids); }
      MembersStayLinked(s, tx);
      InvitationsStayLinked(s, tx);
    }
  }

  lemma {:induction false} MembersStayLinked(s: Store, tx: Tx)
    requires Linked(s) && forall o, ids :: RolesOwned(s, o, ids) ==> RolesOwned(Apply(s, tx).0, o, ids)
    ensures MembersLinked(Apply(s, tx).0)
  {
  }

  lemma {:induction false} InvitationsStayLinked(s: Store, tx: Tx)
    requires Linked(s) && !tx.DeleteRole?
    requires forall o, ids :: RolesOwned(s, o, ids) ==> RolesOwned(Apply(s, tx).0, o, ids)
    ensures InvitationsLinked(Apply(s, tx).0)
  {
  }

  lemma {:induction false} RolesStay(s: Store, tx: Tx, o: Id, ids: set<Id>)
    requires RolesOwned(s, o, ids) && !tx.DeleteRole?
    ensures RolesOwned(Apply(s, tx).0, o, ids)
  {
    if tx.CreateOrg? {
      forall r | r in ids ensures IsRole(Apply(s, tx).0, o, r) {
        assert r in s.roles.Keys;
      }
    }
  }

  lemma {:induction false} DeleteRoleKeepsLinked(s: Store, o: Id, r: Id)
    requires Linked(s)
    ensures Linked(DeleteRoleTx(s, o, r).0)
  {
    if DeleteRoleTx(s, o, r).1 == Done {
      assert Holders(s, r) == {};
      forall m | m in s.members ensures r !in s.members[m].roles {
        assert m !in Holders(s, r);
      }
    }
  }

  // Every unique index survives every transaction.
  lemma {:induction false} ApplyKeepsUnique(s: Store, tx: Tx)
    requires Unique(s)
    ensures Unique(Apply(s, tx).0)
  {
    MembersStayUnique(s, tx);
    RolesStayUnique(s, tx);
    InvitationsStayUnique(s, tx);
    SlugsStayUnique(s, tx);
  }

  lemma {:induction false} SlugsStayUnique(s: Store, tx: Tx)
    requires UniqueSlugs(s)
    ensures UniqueSlugs(Apply(s, tx).0)
  {
    if tx.CreateOrg? {
      assert forall o :: OrgLive(s, o) && s.orgs[o].slug == tx.slug ==> o in Slugged(s, tx.slug);
    } else if !tx.DeleteOrg? {
      assert Apply(s, tx).0.orgs == s.orgs;
    }
  }

  lemma {:induction false} MembersStayUnique(s: Store, tx: Tx)
    requires UniqueMembers(s)
    ensures UniqueMembers(Apply(s, tx).0)
  {
  }

  lemma {:induction false} InvitationsStayUnique(s: Store, tx: Tx)
    requires UniqueInvitations(s)
    ensures UniqueInvitations(Apply(s, tx).0)
  {
    if !tx.InviteMember? && !tx.Reissue? { SameAddresses(s, tx); }
  }

  // Only sending and reissuing give an invitation an address or a hash.
  lemma {:induction false} SameAddresses(s: Store, tx: Tx)
    requires !tx.InviteMember? && !tx.Reissue?
    ensures forall i :: i in Apply(s, tx).0.invitations ==>
              && i in s.invitations && Apply(s, tx).0.invitations[i].hash == s.invitations[i].hash
              && Apply(s, tx).0.invitations[i].org == s.invitations[i].org
              && Apply(s, tx).0.invitations[i].email == s.invitations[i].email
  {
  }

  ghost predicate RolesUnique(s: Store) {
    UniqueRoles(s) && forall r :: r in s.roles ==> s.roles[r].org in s.orgs
  }

  lemma {:induction false} RolesStayUnique(s: Store, tx: Tx)
    requires RolesUnique(s)
    ensures RolesUnique(Apply(s, tx).0)
  {
    match tx
    case CreateOrg(o, slug, protected, ids) => CreateOrgKeepsUnique(s, o, slug, protected, ids);
    case CreateRole(o, key, perms, id) => CreateRoleKeepsUnique(s, o, key, perms, id);
    case _ => OrgsStay(s, tx); NoNewKeys(s, tx);
  }

  // No other transaction makes a role, or gives one another key or organization.
  lemma {:induction false} NoNewKeys(s: Store, tx: Tx)
    requires !tx.CreateOrg? && !tx.CreateRole?
    ensures forall r :: r in Apply(s, tx).0.roles ==>
              && r in s.roles && Apply(s, tx).0.roles[r].org == s.roles[r].org
              && Apply(s, tx).0.roles[r].key == s.roles[r].key
  {
  }

  lemma {:induction false} OrgsStay(s: Store, tx: Tx)
    requires !tx.CreateOrg?
    ensures Apply(s, tx).0.orgs.Keys == s.orgs.Keys
  {
  }

  lemma {:induction false} CreateRoleKeepsUnique(s: Store, o: Id, key: string, perms: seq<Permission>, id: Id)
    requires RolesUnique(s)
    ensures RolesUnique(CreateRoleTx(s, o, key, perms, id).0)
  {
    assert forall r :: r in s.roles && s.roles[r].org == o && s.roles[r].key == key ==> r in RolesNamed(s, o, key);
  }

  lemma {:induction false} ShippedKeysDiffer()
    ensures OWNER_ROLE.key != ADMIN_ROLE.key && OWNER_ROLE.key != MEMBER_ROLE.key && OWNER_ROLE.key != VIEWER_ROLE.key
    ensures ADMIN_ROLE.key != MEMBER_ROLE.key && ADMIN_ROLE.key != VIEWER_ROLE.key && MEMBER_ROLE.key != VIEWER_ROLE.key
  {
    assert OWNER_ROLE.key[0] == 'o' && ADMIN_ROLE.key[0] == 'a';
    assert MEMBER_ROLE.key[0] == 'm' && VIEWER_ROLE.key[0] == 'v';
  }

  lemma {:induction false} CreateOrgKeepsUnique(s: Store, o: Id, slug: string, protected: bool, ids: ShippedIds)
    requires RolesUnique(s)
    ensures RolesUnique(CreateOrgTx(s, o, slug, protected, ids).0)
  {
    var s' := CreateOrgTx(s, o, slug, protected, ids).0;
    if s' != s {
      var rows := ShippedRows(o, ids);
      forall q, r | q in rows && r in rows && rows[q].key == rows[r].key ensures q == r {
        KeyIsItsId(ids, q, r);
      }
      forall r | r in s'.roles ensures s'.roles[r] == if r in rows then rows[r] else s.roles[r] {
      }
    }
  }

  lemma {:induction false} KeyIsItsId(ids: ShippedIds, q: Id, r: Id)
    requires q in IdSet(ids) && r in IdSet(ids) && AllDiffer(ids)
    requires DefinitionFor(ids, q).key == DefinitionFor(ids, r).key
    ensures q == r
  {
    ShippedKeysDiffer();
  }
}
