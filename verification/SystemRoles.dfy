/**
  Installation-wide roles (internal/domain/orgs/system_roles.go): who may grant
  and revoke them, and why somebody is always left who can.
 */
module SystemRoles {
  import opened Authz

  datatype Row = Row(user: Id, key: string)

  // Rows outlive a deleted account and count for nothing then.
  datatype Table = Table(live: set<Id>, rows: set<Row>)

  datatype SystemError = ErrInvalidSystemRole | ErrCannotRevokeOwnLast | ErrNoSuchAccount

  // SystemRoleHolders for one key.
  function HoldersOf(t: Table, key: string): set<Id> {
    set u | u in t.live && Row(u, key) in t.rows
  }

  function Administrators(t: Table): set<Id> { HoldersOf(t, PLATFORM_ADMIN) }

  // SystemRoleKeys, in whatever order the query returns them.
  ghost predicate KeysOf(t: Table, user: Id, keys: seq<string>) {
    forall k :: k in keys <==> user in t.live && Row(user, k) in t.rows
  }

  datatype Op = GrantRole(actor: Id, user: Id, key: string) | RevokeRole(actor: Id, user: Id, key: string)

  function Needed(op: Op): Permission {
    if op.GrantRole? then PlatformSystemRolesAssign else PlatformSystemRolesRemove
  }

  // The endpoint's authorization, at system scope.
  ghost predicate Authorized(t: Table, op: Op) {
    exists keys :: KeysOf(t, op.actor, keys) && Decide(Rows(map[], keys), Request(op.actor, NIL, Needed(op))).Granted?
  }

  // Being authorized for either operation is holding platform_admin.
  lemma {:induction false} AuthorizedIff(t: Table, op: Op, keys: seq<string>)
    requires KeysOf(t, op.actor, keys)
    ensures Decide(Rows(map[], keys), Request(op.actor, NIL, Needed(op))).Granted? <==> op.actor in Administrators(t)
  {
    var p := Needed(op);
    ShippedRoles(p);
    forall k | k in keys && SystemRole(k) ensures k == PLATFORM_ADMIN { OneSystemRole(k); }
    OneSystemRole(PLATFORM_ADMIN);
    if op.actor in Administrators(t) {
      assert PLATFORM_ADMIN in keys && p in LookupRole(PLATFORM_ADMIN).value.perms;
      assert p in SystemPerms(keys);
    }
  }

  lemma {:induction false} OneSystemRole(key: string)
    ensures SystemRole(key) <==> IsSystemScopeRole(key)
    ensures SystemRole(key) ==> LookupRole(key) == Some(PLATFORM_ROLE)
  {
    assert PLATFORM_ADMIN[0] == 'p' && OWNER[0] == 'o' && "admin"[0] == 'a' && "member"[0] == 'm' && "viewer"[0] == 'v';
  }

  lemma {:induction false} Listed(keys: set<string>) returns (list: seq<string>)
    ensures forall k :: k in list <==> k in keys
  {
    if keys == {} {
      list := [];
    } else {
      var k :| k in keys;
      var rest := Listed(keys - {k});
      list := [k] + rest;
    }
  }

  lemma {:induction false} AuthorizedIsHolding(t: Table, op: Op)
    ensures Authorized(t, op) <==> op.actor in Administrators(t)
  {
    var rows := if op.actor in t.live then set r | r in t.rows && r.user == op.actor else {};
    var keys := Listed(set r | r in rows :: r.key);
    forall k | op.actor in t.live && Row(op.actor, k) in t.rows ensures k in keys { assert Row(op.actor, k) in rows; }
    assert KeysOf(t, op.actor, keys);
    AuthorizedIff(t, op, keys);
    if Authorized(t, op) {
      var other :| KeysOf(t, op.actor, other)
          && Decide(Rows(map[], other), Request(op.actor, NIL, Needed(op))).Granted?;
      AuthorizedIff(t, op, other);
    }
  }

  // The last holder of a key, if the user holds it at all.
  predicate Alone(t: Table, key: string, user: Id) { HoldersOf(t, key) <= {user} }

  function Insert(t: Table, user: Id, key: string): Table { t.(rows := t.rows + {Row(user, key)}) }

  function Drop(t: Table, user: Id, key: string): Table { t.(rows := t.rows - {Row(user, key)}) }

  // What one authorized operation does. known: the accounts that have a row.
  function Perform(t: Table, op: Op, known: set<Id>): (Table, Option<SystemError>) {
    if !IsSystemScopeRole(op.key) then (t, Some(ErrInvalidSystemRole))
    else match op
      case GrantRole(_, user, key) =>
        if user !in known then (t, Some(ErrNoSuchAccount)) else (Insert(t, user, key), None)
      case RevokeRole(actor, user, key) =>
        if user == actor && Alone(t, key, user) then (t, Some(ErrCannotRevokeOwnLast)) else (Drop(t, user, key), None)
  }

  class SystemRoleService {
    var live: set<Id>
    var rows: set<Row>

    function View(): Table
      reads this
    {
      Table(live, rows)
    }

    constructor (t: Table)
      ensures View() == t
    {
      live, rows := t.live, t.rows;
    }

    method Holders() returns (found: seq<Row>)
      ensures forall r :: r in found <==> r in rows && r.user in live
    {
      found := [];
      var todo := set r | r in rows && r.user in live;
      while todo != {}
        invariant forall r :: r in found || r in todo <==> r in rows && r.user in live
        decreases todo
      {
        var r :| r in todo;
        found, todo := found + [r], todo - {r};
      }
    }

    method LastHolderOf(key: string, user: Id) returns (alone: bool)
      ensures alone == Alone(View(), key, user)
    {
      var holders := Holders();
      for i := 0 to |holders|
        invariant forall j :: 0 <= j < i ==> holders[j].key == key ==> holders[j].user == user
      {
        if holders[i].key == key && holders[i].user != user {
          assert holders[i] in holders && holders[i] == Row(holders[i].user, key);
          assert holders[i].user in HoldersOf(View(), key);
          return false;
        }
      }
      forall u | u in HoldersOf(View(), key) ensures u == user {
        assert Row(u, key) in holders;
      }
      return true;
    }

    method GrantSystemRole(actor: Id, user: Id, key: string, known: set<Id>) returns (err: Option<SystemError>)
      modifies this
      ensures (View(), err) == Perform(old(View()), GrantRole(actor, user, key), known)
    {
      if !IsSystemScopeRole(key) { return Some(ErrInvalidSystemRole); }
      if user !in known { return Some(ErrNoSuchAccount); }
      rows := rows + {Row(user, key)};
      return None;
    }

    method RevokeSystemRole(actor: Id, user: Id, key: string, known: set<Id>) returns (err: Option<SystemError>)
      modifies this
      ensures (View(), err) == Perform(old(View()), RevokeRole(actor, user, key), known)
    {
      if !IsSystemScopeRole(key) { return Some(ErrInvalidSystemRole); }
      if user == actor {
        var alone := LastHolderOf(key, user);
        if alone { return Some(ErrCannotRevokeOwnLast); }
      }
      rows := rows - {Row(user, key)};
      return None;
    }
  }

  // ------------------------------------------------------------------- runs

  // One request: refused outright unless authorized, then one step.
  ghost function Requested(t: Table, op: Op, known: set<Id>): Table {
    if Authorized(t, op) then Perform(t, op, known).0 else t
  }

  ghost function After(t: Table, ops: seq<Op>, known: set<Id>): Table {
    if ops == [] then t else Requested(After(t, ops[..|ops| - 1], known), ops[|ops| - 1], known)
  }

  // Who holds what afterwards. A grant goes through for any account there is; a
  // revocation unless it is one's own and no other live account holds the role.
  lemma {:induction false} HoldersAfter(t: Table, op: Op, known: set<Id>, user: Id, key: string)
    requires t.live <= known
    ensures var (t', err) := Perform(t, op, known);
            var through := op.key == PLATFORM_ADMIN && if op.GrantRole? then op.user in known
                else op.user == op.actor ==> exists other :: other in Administrators(t) && other != op.user;
            && (err == None <==> through) && t'.live == t.live
            && (user in HoldersOf(t', key)
                <==> if through && user == op.user && key == op.key then op.GrantRole? && user in t.live
                     else user in HoldersOf(t, key))
  {
    OneSystemRole(op.key);
    if op.user == op.actor && IsSystemScopeRole(op.key) {
      assert Alone(t, op.key, op.user) <==> !exists other :: other in Administrators(t) && other != op.user;
    }
  }

  // Nobody who is not an administrator changes who is one.
  lemma {:induction false} OthersChangeNothing(t: Table, op: Op, known: set<Id>)
    requires op.actor !in Administrators(t)
    ensures Requested(t, op, known) == t
  {
    AuthorizedIsHolding(t, op);
  }

  // The check and the deletion are separate statements. Two administrators who
  // revoke themselves at once both pass the check, and nobody is left, exactly
  // when there is no third.
  lemma {:induction false} TwoAtOnce(t: Table, a: Id, b: Id)
    requires a in Administrators(t) && b in Administrators(t) && a != b
    ensures !Alone(t, PLATFORM_ADMIN, a) && !Alone(t, PLATFORM_ADMIN, b)
    ensures Administrators(Drop(Drop(t, a, PLATFORM_ADMIN), b, PLATFORM_ADMIN)) == {} <==> Administrators(t) == {a, b}
  {
    var t' := Drop(Drop(t, a, PLATFORM_ADMIN), b, PLATFORM_ADMIN);
    assert Administrators(t') == Administrators(t) - {a, b};
  }
}
