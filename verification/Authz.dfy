/**
  Permissions, shipped roles and authorization decisions (internal/domain/authz).

  A permission key is a string in the program. Here the catalog's keys are
  constructors and Stale stands for every other string, so "is this key in the
  catalog" stays a question about data.
 */
module Authz {
  import opened Sorting

  // Identifiers are UUIDs in the program; only equality and uuid.Nil matter.
  type Id = nat
  const NIL: Id := 0

  datatype Option<T> = None | Some(value: T)

  datatype Scope = OrganizationScope | SystemScope

  datatype Permission =
    | OrganizationRead | OrganizationUpdate | OrganizationDelete
    | MembersRead | MembersInvite | MembersRemove | MembersSuspend | MembersRolesAssign
    | RolesRead | RolesCreate | RolesUpdate | RolesDelete
    | AuditRead
    | FilesRead | FilesCreate | FilesDelete
    | PlatformOrganizationsRead | PlatformOrganizationsCreate | PlatformOrganizationsDelete
    | PlatformOwnersAssign
    | PlatformUsersRead | PlatformUsersSuspend | PlatformUsersDelete
    | PlatformSystemRolesRead | PlatformSystemRolesAssign | PlatformSystemRolesRemove
    | PlatformAuditRead
    | Stale(key: string)

  function Text(p: Permission): string {
    match p
    case OrganizationRead => "organization.read"
    case OrganizationUpdate => "organization.update"
    case OrganizationDelete => "organization.delete"
    case MembersRead => "members.read"
    case MembersInvite => "members.invite"
    case MembersRemove => "members.remove"
    case MembersSuspend => "members.suspend"
    case MembersRolesAssign => "members.roles.assign"
    case RolesRead => "roles.read"
    case RolesCreate => "roles.create"
    case RolesUpdate => "roles.update"
    case RolesDelete => "roles.delete"
    case AuditRead => "audit.read"
    case FilesRead => "files.read"
    case FilesCreate => "files.create"
    case FilesDelete => "files.delete"
    case PlatformOrganizationsRead => "platform.organizations.read"
    case PlatformOrganizationsCreate => "platform.organizations.create"
    case PlatformOrganizationsDelete => "platform.organizations.delete"
    case PlatformOwnersAssign => "platform.organizations.owners.assign"
    case PlatformUsersRead => "platform.users.read"
    case PlatformUsersSuspend => "platform.users.suspend"
    case PlatformUsersDelete => "platform.users.delete"
    case PlatformSystemRolesRead => "platform.system_roles.read"
    case PlatformSystemRolesAssign => "platform.system_roles.assign"
    case PlatformSystemRolesRemove => "platform.system_roles.remove"
    case PlatformAuditRead => "platform.audit.read"
    case Stale(key) => key
  }

  datatype Definition = Definition(key: Permission, scope: Scope)

  // The catalog, organization permissions first.
  const ORGANIZATION_GROUP := [OrganizationRead, OrganizationUpdate, OrganizationDelete]
  const MEMBERS_GROUP := [MembersRead, MembersInvite, MembersRemove, MembersSuspend, MembersRolesAssign]
  const ROLES_GROUP := [RolesRead, RolesCreate, RolesUpdate, RolesDelete]
  const FILES_GROUP := [FilesRead, FilesCreate, FilesDelete]
  const TENANTS_GROUP := [PlatformOrganizationsRead, PlatformOrganizationsCreate, PlatformOrganizationsDelete,
      PlatformOwnersAssign]
  const USERS_GROUP := [PlatformUsersRead, PlatformUsersSuspend, PlatformUsersDelete]
  const SYSTEM_ROLES_GROUP := [PlatformSystemRolesRead, PlatformSystemRolesAssign, PlatformSystemRolesRemove]

  const ORG_PERMS: seq<Permission> := ORGANIZATION_GROUP + MEMBERS_GROUP + ROLES_GROUP + [AuditRead] + FILES_GROUP
  const SYSTEM_PERMS: seq<Permission> := TENANTS_GROUP + USERS_GROUP + SYSTEM_ROLES_GROUP + [PlatformAuditRead]
  const CATALOG: seq<Definition> :=
    seq(|ORG_PERMS|, i requires 0 <= i < |ORG_PERMS| => Definition(ORG_PERMS[i], OrganizationScope))
    + seq(|SYSTEM_PERMS|, i requires 0 <= i < |SYSTEM_PERMS| => Definition(SYSTEM_PERMS[i], SystemScope))

  predicate Known(p: Permission) { !p.Stale? }

  // The scope of a catalog permission.
  function ScopeOf(p: Permission): Scope
    requires Known(p)
  {
    match p
    case PlatformOrganizationsRead | PlatformOrganizationsCreate | PlatformOrganizationsDelete => SystemScope
    case PlatformOwnersAssign => SystemScope
    case PlatformUsersRead | PlatformUsersSuspend | PlatformUsersDelete => SystemScope
    case PlatformSystemRolesRead | PlatformSystemRolesAssign | PlatformSystemRolesRemove => SystemScope
    case PlatformAuditRead => SystemScope
    case _ => OrganizationScope
  }

  predicate OrgScoped(p: Permission) { Known(p) && ScopeOf(p) == OrganizationScope }

  // The index agrees with the two halves of the list it is built from.
  lemma {:induction false} InGroups(
    p: Permission, a: seq<Permission>, b: seq<Permission>, c: seq<Permission>, d: seq<Permission>, e: seq<Permission>)
    ensures p in a + b + c + d + e <==> p in a || p in b || p in c || p in d || p in e
  {
  }

  lemma {:induction false} OrgListed(p: Permission)
    ensures p in ORG_PERMS <==> Known(p) && ScopeOf(p) == OrganizationScope
  {
    InGroups(p, ORGANIZATION_GROUP, MEMBERS_GROUP, ROLES_GROUP, [AuditRead], FILES_GROUP);
  }

  lemma {:induction false} SystemListed(p: Permission)
    ensures p in SYSTEM_PERMS <==> Known(p) && ScopeOf(p) == SystemScope
  {
    InGroups(p, [], TENANTS_GROUP, USERS_GROUP, SYSTEM_ROLES_GROUP, [PlatformAuditRead]);
    assert [] + TENANTS_GROUP == TENANTS_GROUP;
  }

  lemma {:induction false} CatalogIndexed(p: Permission)
    ensures p in ORG_PERMS <==> Known(p) && ScopeOf(p) == OrganizationScope
    ensures p in SYSTEM_PERMS <==> Known(p) && ScopeOf(p) == SystemScope
  {
    OrgListed(p);
    SystemListed(p);
  }

  lemma {:induction false} ListedIn(list: seq<Permission>, scope: Scope, d: Definition)
    ensures d in seq(|list|, i requires 0 <= i < |list| => Definition(list[i], scope))
            <==> d.key in list && d.scope == scope
  {
    var defs := seq(|list|, i requires 0 <= i < |list| => Definition(list[i], scope));
    if d.key in list && d.scope == scope {
      var i :| 0 <= i < |list| && list[i] == d.key;
      assert defs[i] == d;
    }
  }

  method InScope(scope: Scope) returns (out: seq<Permission>)
    ensures forall p :: p in out <==> Known(p) && ScopeOf(p) == scope
  {
    var defs := CATALOG;
    out := [];
    for i := 0 to |defs|
      invariant forall p :: p in out <==> Definition(p, scope) in defs[..i]
    {
      if defs[i].scope == scope {
        out := out + [defs[i].key];
      }
      assert defs[..i + 1] == defs[..i] + [defs[i]];
    }
    assert defs[..|defs|] == defs;
    forall p ensures p in out <==> Known(p) && ScopeOf(p) == scope {
      CatalogIndexed(p);
      ListedIn(ORG_PERMS, OrganizationScope, Definition(p, scope));
      ListedIn(SYSTEM_PERMS, SystemScope, Definition(p, scope));
    }
  }

  // Drops unknown keys and repetitions, keeping the order.
  method Sanitize(keys: seq<Permission>) returns (out: seq<Permission>)
    ensures Distinct(out)
    ensures forall p :: p in out <==> Known(p) && p in keys
  {
    out := [];
    for i := 0 to |keys|
      invariant Distinct(out)
      invariant forall p :: p in out <==> Known(p) && p in keys[..i]
    {
      if Known(keys[i]) && keys[i] !in out {
        out := out + [keys[i]];
      }
      assert keys[..i + 1] == keys[..i] + [keys[i]];
    }
    assert keys[..|keys|] == keys;
  }

  // ------------------------------------------------------------ shipped roles

  datatype RoleDefinition = RoleDefinition(key: string, scope: Scope, perms: seq<Permission>)

  const PLATFORM_ADMIN := "platform_admin"
  const OWNER := "owner"

  const OWNER_ROLE := RoleDefinition(OWNER, OrganizationScope, ORG_PERMS)
  const ADMIN_ROLE := RoleDefinition("admin", OrganizationScope, [
      OrganizationRead, OrganizationUpdate, MembersRead, MembersInvite, MembersRemove, MembersSuspend,
      MembersRolesAssign, RolesRead, RolesCreate, RolesUpdate, RolesDelete, AuditRead,
      FilesRead, FilesCreate, FilesDelete])
  const MEMBER_ROLE := RoleDefinition("member", OrganizationScope,
      [OrganizationRead, MembersRead, FilesRead, FilesCreate])
  const VIEWER_ROLE := RoleDefinition("viewer", OrganizationScope, [OrganizationRead, FilesRead])
  const PLATFORM_ROLE := RoleDefinition(PLATFORM_ADMIN, SystemScope, SYSTEM_PERMS)

  // Organization roles first, then the system role; the first match wins.
  function LookupRole(key: string): Option<RoleDefinition> {
    if key == OWNER then Some(OWNER_ROLE)
    else if key == "admin" then Some(ADMIN_ROLE)
    else if key == "member" then Some(MEMBER_ROLE)
    else if key == "viewer" then Some(VIEWER_ROLE)
    else if key == PLATFORM_ADMIN then Some(PLATFORM_ROLE)
    else None
  }

  predicate IsSystemScopeRole(key: string) { key == PLATFORM_ADMIN }

  // The only system-scope role is platform_admin.
  predicate SystemRole(key: string) {
    LookupRole(key).Some? && LookupRole(key).value.scope == SystemScope
  }

  // "owner" means every organization permission, platform_admin every system one,
  // and no shipped organization role reaches outside its scope.
  lemma {:induction false} ShippedRoles(p: Permission)
    ensures p in OWNER_ROLE.perms <==> OrgScoped(p)
    ensures p in PLATFORM_ROLE.perms <==> Known(p) && ScopeOf(p) == SystemScope
    ensures p in ADMIN_ROLE.perms <==> OrgScoped(p) && p != OrganizationDelete
    ensures p in MEMBER_ROLE.perms || p in VIEWER_ROLE.perms ==> p in ADMIN_ROLE.perms
  {
    CatalogIndexed(p);
  }

  // ------------------------------------------------------------------- grants

  datatype Error =
    | ErrForbidden | ErrNotMember | ErrUnknownPermission | ErrWrongScope
    | ErrInsufficientRank | ErrScopeMismatch | ErrPrivilegeEscalation

  // A nil grant reads as one with no actor, no organization and no permission.
  datatype Grant = Grant(actor: Id, org: Id, perms: set<Permission>)

  function GrantOf(actor: Id, org: Id, keys: seq<Permission>): Grant {
    Grant(actor, org, set p | p in keys && Known(p))
  }

  method NewGrant(actor: Id, org: Id, keys: seq<Permission>) returns (g: Grant)
    ensures g == GrantOf(actor, org, keys)
  {
    var held: set<Permission> := {};
    for i := 0 to |keys|
      invariant held == set p | p in keys[..i] && Known(p)
    {
      if Known(keys[i]) {
        held := held + {keys[i]};
      }
      assert keys[..i + 1] == keys[..i] + [keys[i]];
    }
    assert keys[..|keys|] == keys;
    g := Grant(actor, org, held);
  }

  method Covers(g: Grant, perms: seq<Permission>) returns (ok: bool)
    ensures ok <==> forall p :: p in perms ==> p in g.perms
  {
    for i := 0 to |perms|
      invariant forall p :: p in perms[..i] ==> p in g.perms
    {
      if perms[i] !in g.perms { return false; }
      assert perms[..i + 1] == perms[..i] + [perms[i]];
    }
    return true;
  }

  // May the caller put these permissions into a role?
  function CanGrant(g: Grant, requested: seq<Permission>): Option<Error> {
    if requested == [] then None
    else if !Known(requested[0]) then Some(ErrUnknownPermission)
    else if requested[0] !in g.perms then Some(ErrPrivilegeEscalation)
    else CanGrant(g, requested[1..])
  }

  lemma {:induction false} CanGrantIff(g: Grant, requested: seq<Permission>)
    ensures CanGrant(g, requested) == None <==> forall p :: p in requested ==> Known(p) && p in g.perms
  {
    if requested != [] {
      CanGrantIff(g, requested[1..]);
      assert forall p :: p in requested <==> p == requested[0] || p in requested[1..];
    }
  }

  method EnsureCanGrant(g: Grant, requested: seq<Permission>) returns (err: Option<Error>)
    ensures err == CanGrant(g, requested)
  {
    for i := 0 to |requested|
      invariant CanGrant(g, requested) == CanGrant(g, requested[i..])
    {
      if !Known(requested[i]) { return Some(ErrUnknownPermission); }
      if requested[i] !in g.perms { return Some(ErrPrivilegeEscalation); }
    }
    return None;
  }

  // May the caller act on somebody holding these permissions? Stale keys protect nobody.
  predicate CanAffect(g: Grant, target: set<Permission>) {
    forall p :: p in target && Known(p) ==> p in g.perms
  }

  method EnsureCanAffect(g: Grant, target: seq<Permission>) returns (err: Option<Error>)
    ensures err == if CanAffect(g, set p | p in target) then None else Some(ErrInsufficientRank)
  {
    for i := 0 to |target|
      invariant forall p :: p in target[..i] && Known(p) ==> p in g.perms
    {
      if Known(target[i]) && target[i] !in g.perms {
        return Some(ErrInsufficientRank);
      }
      assert target[..i + 1] == target[..i] + [target[i]];
    }
    return None;
  }

  // EnsureCanAffect skips the keys EnsureCanGrant refuses: what a caller may
  // grant they may also affect, and the converse fails exactly on stale keys.
  lemma {:induction false} GrantVersusAffect(g: Grant, perms: seq<Permission>)
    ensures CanGrant(g, perms) == None
            <==> CanAffect(g, set p | p in perms) && forall p :: p in perms ==> Known(p)
  {
    CanGrantIff(g, perms);
  }

  // ---------------------------------------------------------------- decisions

  // What the store answers about one account: the raw permission keys of each
  // live organization it is an active member of, and its system role keys.
  datatype Rows = Rows(active: map<Id, seq<Permission>>, system: seq<string>)

  datatype Request = Request(actor: Id, org: Id, permission: Permission)

  datatype Decision = Granted(grant: Grant) | Refused(error: Error)

  // The permissions of the system roles among these keys.
  function SystemPerms(keys: seq<string>): set<Permission> {
    set k, p | k in keys && SystemRole(k) && p in LookupRole(k).value.perms :: p
  }

  // The decision, stated without the loops that reach it.
  function Decide(rows: Rows, req: Request): Decision {
    if !Known(req.permission) then Refused(ErrUnknownPermission)
    else if ScopeOf(req.permission) == SystemScope then
      if req.org != NIL then Refused(ErrScopeMismatch)
      else
        var held := set p | p in SystemPerms(rows.system) && Known(p);
        if req.permission in held then Granted(Grant(req.actor, NIL, held)) else Refused(ErrForbidden)
    else if req.org == NIL then Refused(ErrScopeMismatch)
    else if req.org !in rows.active then Refused(ErrNotMember)
    else
      var grant := GrantOf(req.actor, req.org, rows.active[req.org]);
      if req.permission in grant.perms then Granted(grant) else Refused(ErrForbidden)
  }

  method Authorize(rows: Rows, req: Request) returns (d: Decision)
    ensures d == Decide(rows, req)
  {
    if !Known(req.permission) {
      return Refused(ErrUnknownPermission);
    }
    if ScopeOf(req.permission) == SystemScope {
      if req.org != NIL { return Refused(ErrScopeMismatch); }
      d := AuthorizeSystem(rows, req);
      return;
    }
    if req.org == NIL { return Refused(ErrScopeMismatch); }
    if req.org !in rows.active { return Refused(ErrNotMember); }
    var clean := Sanitize(rows.active[req.org]);
    var grant := NewGrant(req.actor, req.org, clean);
    assert grant.perms == GrantOf(req.actor, req.org, rows.active[req.org]).perms;
    if req.permission !in grant.perms { return Refused(ErrForbidden); }
    return Granted(grant);
  }

  method AuthorizeSystem(rows: Rows, req: Request) returns (d: Decision)
    requires Known(req.permission) && ScopeOf(req.permission) == SystemScope && req.org == NIL
    ensures d == Decide(rows, req)
  {
    var held: seq<Permission> := [];
    for i := 0 to |rows.system|
      invariant forall p :: p in held <==> p in SystemPerms(rows.system[..i])
    {
      var key := rows.system[i];
      var def := LookupRole(key);
      if def.Some? && def.value.scope == SystemScope {
        held := held + def.value.perms;
      }
      assert rows.system[..i + 1] == rows.system[..i] + [key];
    }
    assert rows.system[..|rows.system|] == rows.system;
    var grant := NewGrant(req.actor, NIL, held);
    assert grant.perms == set p | p in SystemPerms(rows.system) && Known(p);
    if req.permission !in grant.perms { return Refused(ErrForbidden); }
    return Granted(grant);
  }

  // ----------------------------------------------------------------- snapshot

  datatype Snapshot = Snapshot(
    actor: Id, systemRoles: seq<string>, systemPerms: seq<Permission>, byOrg: map<Id, seq<Permission>>)

  // The rows the snapshot query returns: organizations with no key are absent.
  function KeysByOrganization(rows: Rows): map<Id, seq<Permission>> {
    map o | o in rows.active && rows.active[o] != [] :: rows.active[o]
  }

  ghost predicate Describes(rows: Rows, snap: Snapshot) {
    && snap.byOrg.Keys == KeysByOrganization(rows).Keys
    && (forall o :: o in snap.byOrg ==>
          && Ascending(Text, snap.byOrg[o]) && Distinct(snap.byOrg[o])
          && forall p :: p in snap.byOrg[o] <==> Known(p) && p in rows.active[o])
    && Ascending(Text, snap.systemPerms) && Distinct(snap.systemPerms)
    && (forall p :: p in snap.systemPerms <==> p in SystemPerms(rows.system))
    && Ascending((k: string) => k, snap.systemRoles)
    && (forall k :: k in snap.systemRoles <==> k in rows.system && SystemRole(k))
    && (Distinct(rows.system) ==> Distinct(snap.systemRoles))
  }

  method TakeSnapshot(rows: Rows, actor: Id) returns (snap: Snapshot)
    ensures snap.actor == actor && Describes(rows, snap)
  {
    var byOrg: map<Id, seq<Permission>> := map[];
    var keys := KeysByOrganization(rows);
    var todo := keys.Keys;
    while todo != {}
      invariant todo <= keys.Keys && byOrg.Keys == keys.Keys - todo
      invariant forall o :: o in byOrg ==>
                  && Ascending(Text, byOrg[o]) && Distinct(byOrg[o])
                  && forall p :: p in byOrg[o] <==> Known(p) && p in rows.active[o]
      decreases todo
    {
      var o :| o in todo;
      var clean := Sanitize(keys[o]);
      SortAscends(Text, clean);
      SortKeeps(Text, clean);
      byOrg := byOrg[o := Sort(Text, clean)];
      todo := todo - {o};
    }
    var roles, perms := SystemHalf(rows.system);
    SortAscends((k: string) => k, roles);
    SortKeeps((k: string) => k, roles);
    SortAscends(Text, perms);
    SortKeeps(Text, perms);
    snap := Snapshot(actor, Sort((k: string) => k, roles), Sort(Text, perms), byOrg);
  }

  method SystemHalf(keys: seq<string>) returns (roles: seq<string>, perms: seq<Permission>)
    ensures forall k :: k in roles <==> k in keys && SystemRole(k)
    ensures Distinct(keys) ==> Distinct(roles)
    ensures Distinct(perms)
    ensures forall p :: p in perms <==> p in SystemPerms(keys)
  {
    roles, perms := [], [];
    for i := 0 to |keys|
      invariant forall k :: k in roles <==> k in keys[..i] && SystemRole(k)
      invariant Distinct(keys) ==> Distinct(roles)
      invariant Distinct(perms)
      invariant forall p :: p in perms <==> p in SystemPerms(keys[..i])
    {
      assert keys[..i + 1] == keys[..i] + [keys[i]];
      var def := LookupRole(keys[i]);
      if def.Some? && def.value.scope == SystemScope {
        assert Distinct(keys) ==> keys[i] !in roles;
        roles := roles + [def.value.key];
        perms := AppendNew(perms, def.value.perms);
      }
    }
    assert keys[..|keys|] == keys;
  }

  method AppendNew(have: seq<Permission>, more: seq<Permission>) returns (out: seq<Permission>)
    requires Distinct(have)
    ensures Distinct(out)
    ensures forall p :: p in out <==> p in have || p in more
  {
    out := have;
    for i := 0 to |more|
      invariant Distinct(out)
      invariant forall p :: p in out <==> p in have || p in more[..i]
    {
      assert more[..i + 1] == more[..i] + [more[i]];
      if more[i] !in out {
        out := out + [more[i]];
      }
    }
    assert more[..|more|] == more;
  }

  // What the client is shown is what the server enforces, for every organization
  // permission in every organization and every system permission, whatever
  // duplicate, stale or misplaced keys the rows hold.
  lemma {:induction false} SnapshotAgrees(rows: Rows, snap: Snapshot, org: Id, p: Permission)
    requires Describes(rows, snap) && Known(p)
    ensures ScopeOf(p) == OrganizationScope && org != NIL ==>
              ((org in snap.byOrg && p in snap.byOrg[org])
               <==> Decide(rows, Request(snap.actor, org, p)).Granted?)
    ensures ScopeOf(p) == SystemScope ==>
              (p in snap.systemPerms <==> Decide(rows, Request(snap.actor, NIL, p)).Granted?)
  {
    if ScopeOf(p) == OrganizationScope && org in rows.active {
      assert p in GrantOf(snap.actor, org, rows.active[org]).perms <==> p in rows.active[org];
    }
  }

  // A platform key misplaced in an organization role is listed by the snapshot
  // and never granted.
  lemma {:induction false} MisplacedKeyIsNotEnforced(rows: Rows, snap: Snapshot, org: Id, p: Permission)
    requires Describes(rows, snap) && Known(p) && ScopeOf(p) == SystemScope && org != NIL
    ensures org in rows.active && p in rows.active[org] ==> org in snap.byOrg && p in snap.byOrg[org]
    ensures Decide(rows, Request(snap.actor, org, p)) == Refused(ErrScopeMismatch)
  {
    if org in rows.active && p in rows.active[org] { assert rows.active[org] != []; }
  }

  // A granted decision carries everything else the caller holds in that scope.
  lemma {:induction false} GrantIsTheWholeScope(rows: Rows, req: Request, q: Permission)
    requires Decide(rows, req).Granted? && Known(q) && ScopeOf(q) == ScopeOf(req.permission)
    ensures var g := Decide(rows, req).grant;
            && g.actor == req.actor && g.org == req.org
            && (q in g.perms <==> Decide(rows, req.(permission := q)).Granted?)
  {
  }
}
