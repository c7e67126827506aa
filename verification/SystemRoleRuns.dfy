/**
  Granting and revoking installation-wide roles as the program does it: each
  request authorizes, then checks, then writes, and any number of them overlap.
 */
module SystemRoleRuns {
  import opened Authz
  import opened SystemRoles

  datatype Request = Asked(op: Op) | Allowed(op: Op) | Cleared(op: Op) | Over

  datatype State = State(table: Table, requests: map<nat, Request>)

  datatype Action = Ask(n: nat, op: Op) | Move(n: nat)

  // The checks after authorization: the key, and one's own last role.
  function Check(t: Table, op: Op): Request {
    if !IsSystemScopeRole(op.key) then Over
    else if op.RevokeRole? && op.user == op.actor && Alone(t, op.key, op.user) then Over
    else Cleared(op)
  }

  function Write(t: Table, op: Op, known: set<Id>): Table {
    match op
    case GrantRole(_, user, key) => if user in known then Insert(t, user, key) else t
    case RevokeRole(_, user, key) => Drop(t, user, key)
  }

  ghost function Do(s: State, a: Action, known: set<Id>): State {
    match a
    case Ask(n, op) => if n in s.requests then s else s.(requests := s.requests[n := Asked(op)])
    case Move(n) =>
      if n !in s.requests then s
      else match s.requests[n]
        case Asked(op) => s.(requests := s.requests[n := if Authorized(s.table, op) then Allowed(op) else Over])
        case Allowed(op) => s.(requests := s.requests[n := Check(s.table, op)])
        case Cleared(op) => State(Write(s.table, op, known), s.requests[n := Over])
        case Over => s
  }

  ghost function Run(t: Table, actions: seq<Action>, known: set<Id>): State {
    if actions == [] then State(t, map[])
    else Do(Run(t, actions[..|actions| - 1], known), actions[|actions| - 1], known)
  }

  // A revocation of u's administration that has passed everything but its write.
  predicate Revokes(r: Request, u: Id) {
    r.Cleared? && r.op.RevokeRole? && r.op.user == u && r.op.key == PLATFORM_ADMIN
  }

  // The moment a request for u was let through on account of b: its caller, if that
  // is somebody else, or another administrator, if u asked for themselves.
  ghost predicate PassedFor(t: Table, actions: seq<Action>, known: set<Id>, k: nat, n: nat, u: Id, b: Id)
    requires k < |actions|
  {
    var s := Run(t, actions[..k], known);
    && actions[k] == Move(n) && n in s.requests && b != u && b in Administrators(s.table)
    && ((s.requests[n].Asked? && s.requests[n].op.actor == b)
        || (s.requests[n].Allowed? && s.requests[n].op.actor == u))
  }

  // What a request has behind it.
  ghost predicate Backed(t: Table, actions: seq<Action>, known: set<Id>, n: nat, r: Request) {
    match r
    case Allowed(op) =>
      op.RevokeRole? && op.actor != op.user ==>
          exists k: nat :: k < |actions| && PassedFor(t, actions, known, k, n, op.user, op.actor)
    case Cleared(op) =>
      && op.key == PLATFORM_ADMIN
      && (op.RevokeRole? ==> exists k: nat, b :: k < |actions| && PassedFor(t, actions, known, k, n, op.user, b))
    case _ => true
  }

  lemma {:induction false} PassedEarlier(t: Table, actions: seq<Action>, known: set<Id>, k: nat, n: nat, u: Id, b: Id)
    requires k < |actions| - 1 && PassedFor(t, actions[..|actions| - 1], known, k, n, u, b)
    ensures PassedFor(t, actions, known, k, n, u, b)
  {
    assert actions[..|actions| - 1][..k] == actions[..k];
  }

  lemma {:induction false} StaysBacked(t: Table, actions: seq<Action>, known: set<Id>, n: nat, r: Request)
    requires actions != [] && Backed(t, actions[..|actions| - 1], known, n, r)
    ensures Backed(t, actions, known, n, r)
  {
    var m := |actions| - 1;
    match r
    case Allowed(op) =>
      if op.RevokeRole? && op.actor != op.user {
        var k: nat :| k < m && PassedFor(t, actions[..m], known, k, n, op.user, op.actor);
        PassedEarlier(t, actions, known, k, n, op.user, op.actor);
      }
    case Cleared(op) =>
      if op.RevokeRole? {
        var k: nat, b :| k < m && PassedFor(t, actions[..m], known, k, n, op.user, b);
        PassedEarlier(t, actions, known, k, n, op.user, b);
      }
    case _ =>
  }

  // A request that has just been let through was let through on somebody's account.
  lemma {:induction false} MoveBacks(t: Table, actions: seq<Action>, known: set<Id>, n: nat)
    requires actions != [] && actions[|actions| - 1] == Move(n)
    requires var s := Run(t, actions[..|actions| - 1], known);
             n in s.requests && Backed(t, actions[..|actions| - 1], known, n, s.requests[n])
    ensures Backed(t, actions, known, n, Run(t, actions, known).requests[n])
  {
    var m := |actions| - 1;
    var s := Run(t, actions[..m], known);
    match s.requests[n]
    case Asked(op) =>
      AuthorizedIsHolding(s.table, op);
      if Authorized(s.table, op) && op.RevokeRole? && op.actor != op.user {
        assert PassedFor(t, actions, known, m, n, op.user, op.actor);
      }
    case Allowed(op) =>
      StaysBacked(t, actions, known, n, s.requests[n]);
      if op.RevokeRole? && op.actor == op.user && !Alone(s.table, op.key, op.user) && op.key == PLATFORM_ADMIN {
        var b :| b in HoldersOf(s.table, op.key) && b != op.user;
        assert PassedFor(t, actions, known, m, n, op.user, b);
      }
    case _ =>
  }

  lemma {:induction false} RunBacked(t: Table, actions: seq<Action>, known: set<Id>, n: nat)
    requires n in Run(t, actions, known).requests
    ensures Backed(t, actions, known, n, Run(t, actions, known).requests[n])
    ensures Run(t, actions, known).table.live == t.live
  {
    if actions != [] {
      var m := |actions| - 1;
      var s := Run(t, actions[..m], known);
      LiveStays(t, actions, known);
      if n in s.requests {
        RunBacked(t, actions[..m], known, n);
        if actions[m] == Move(n) {
          MoveBacks(t, actions, known, n);
        } else {
          StaysBacked(t, actions, known, n, s.requests[n]);
        }
      }
    }
  }

  lemma {:induction false} LiveStays(t: Table, actions: seq<Action>, known: set<Id>)
    ensures Run(t, actions, known).table.live == t.live
  {
    if actions != [] { LiveStays(t, actions[..|actions| - 1], known); }
  }

  // What one write does to the administrators.
  lemma {:induction false} WriteMoves(t: Table, op: Op, known: set<Id>)
    requires op.key == PLATFORM_ADMIN
    ensures Administrators(Write(t, op, known))
            == if op.RevokeRole? then Administrators(t) - {op.user}
               else if op.user in known && op.user in t.live then Administrators(t) + {op.user} else Administrators(t)
  {
  }

  // The step that leaves nobody is the write of a revocation of the one
  // administrator there is; and that revocation was let through while another one
  // stood, who has lost the role since.
  lemma {:induction false} LastOneGoesIff(t: Table, actions: seq<Action>, known: set<Id>)
    requires actions != [] && Administrators(Run(t, actions[..|actions| - 1], known).table) != {}
    ensures var m := |actions| - 1;
            var s := Run(t, actions[..m], known);
            Administrators(Run(t, actions, known).table) == {}
            <==> exists n: nat, u: Id :: n in s.requests && actions[m] == Move(n) && Revokes(s.requests[n], u)
                                && Administrators(s.table) == {u} && Overtaken(t, actions[..m], known, n, u)
  {
    var m := |actions| - 1;
    var s := Run(t, actions[..m], known);
    if Administrators(Run(t, actions, known).table) == {} {
      var n := actions[m].n;
      RunBacked(t, actions[..m], known, n);
      WriteMoves(s.table, s.requests[n].op, known);
      var u := s.requests[n].op.user;
      assert Administrators(s.table) == {u};
      assert Overtaken(t, actions[..m], known, n, u);
    }
    if n: nat, u: Id :| n in s.requests && actions[m] == Move(n) && Revokes(s.requests[n], u) {
      WriteMoves(s.table, s.requests[n].op, known);
    }
  }

  // The request for u was let through on account of an administrator who is one no
  // longer.
  ghost predicate Overtaken(t: Table, actions: seq<Action>, known: set<Id>, n: nat, u: Id) {
    exists k: nat, b :: k < |actions| && PassedFor(t, actions, known, k, n, u, b)
                        && b !in Administrators(Run(t, actions, known).table)
  }

  // ------------------------------------------------ when it can come to that

  // Writing what is pending, in this order.
  ghost function Flush(s: State, order: seq<nat>, known: set<Id>): State
    decreases |order|
  {
    if order == [] then s else Flush(Do(s, Move(order[0]), known), order[1..], known)
  }

  ghost predicate AllCleared(s: State, order: seq<nat>) {
    forall n :: n in order ==> n in s.requests && s.requests[n].Cleared? && s.requests[n].op.key == PLATFORM_ADMIN
  }

  ghost predicate Pending(s: State, u: Id) { exists n :: n in s.requests && Revokes(s.requests[n], u) }

  // An administrator whose revocation is not pending is still there afterwards.
  lemma {:induction false} UnrevokedStays(s: State, order: seq<nat>, known: set<Id>, u: Id)
    requires u in Administrators(s.table) && !Pending(s, u)
    requires forall n :: n in s.requests && s.requests[n].Cleared? ==> s.requests[n].op.key == PLATFORM_ADMIN
    requires forall n :: n in order ==> n in s.requests && (s.requests[n].Cleared? || s.requests[n].Over?)
    ensures u in Administrators(Flush(s, order, known).table)
    decreases |order|
  {
    if order != [] {
      var n := order[0];
      assert n in order;
      if s.requests[n].Cleared? { WriteMoves(s.table, s.requests[n].op, known); }
      UnrevokedStays(Do(s, Move(n), known), order[1..], known, u);
    }
  }

  // When everybody's revocation is pending, some order of writes leaves nobody.
  lemma {:induction false} AllGo(s: State, known: set<Id>) returns (order: seq<nat>)
    requires forall u :: u in Administrators(s.table) ==> Pending(s, u)
    ensures AllCleared(s, order) && Administrators(Flush(s, order, known).table) == {}
    decreases Administrators(s.table)
  {
    if Administrators(s.table) == {} {
      order := [];
    } else {
      var u :| u in Administrators(s.table);
      var n :| n in s.requests && Revokes(s.requests[n], u);
      var t := Do(s, Move(n), known);
      WriteMoves(s.table, s.requests[n].op, known);
      forall v | v in Administrators(t.table) ensures Pending(t, v) {
        var m :| m in s.requests && Revokes(s.requests[m], v);
        assert m != n && t.requests[m] == s.requests[m];
      }
      var rest := AllGo(t, known);
      order := [n] + rest;
      assert forall m :: m in rest ==> m != n;
      assert order[1..] == rest;
    }
  }

  // u's revocation is pending, and was let through while another administrator stood.
  ghost predicate PendingPassed(t: Table, actions: seq<Action>, known: set<Id>, u: Id) {
    exists n: nat, k: nat, b: Id ::
      && n in Run(t, actions, known).requests && Revokes(Run(t, actions, known).requests[n], u)
      && k < |actions| && PassedFor(t, actions, known, k, n, u, b)
  }

  lemma {:induction false} PendingIsPassed(t: Table, actions: seq<Action>, known: set<Id>, u: Id)
    ensures Pending(Run(t, actions, known), u) <==> PendingPassed(t, actions, known, u)
  {
    var s := Run(t, actions, known);
    if n :| n in s.requests && Revokes(s.requests[n], u) {
      RunBacked(t, actions, known, n);
      var k: nat, b :| k < |actions| && PassedFor(t, actions, known, k, n, u, b);
    }
  }

  // Some order of the pending writes leaves nobody.
  ghost predicate CanLose(s: State, known: set<Id>) {
    exists order :: AllCleared(s, order) && Administrators(Flush(s, order, known).table) == {}
  }

  lemma {:induction false} CanLoseIff(s: State, known: set<Id>)
    requires forall n :: n in s.requests && s.requests[n].Cleared? ==> s.requests[n].op.key == PLATFORM_ADMIN
    ensures CanLose(s, known) <==> forall u :: u in Administrators(s.table) ==> Pending(s, u)
  {
    if forall u :: u in Administrators(s.table) ==> Pending(s, u) {
      var order := AllGo(s, known);
      assert CanLose(s, known);
    }
    if CanLose(s, known) {
      var order :| AllCleared(s, order) && Administrators(Flush(s, order, known).table) == {};
      forall u | u in Administrators(s.table) ensures Pending(s, u) {
        if !Pending(s, u) { UnrevokedStays(s, order, known, u); }
      }
    }
  }

  // With nothing more asked, authorized or checked, the pending writes can leave an
  // installation without administrators exactly when every administrator it has
  // left has a revocation pending that was let through while another one stood.
  lemma {:induction false} EndangeredIff(t: Table, actions: seq<Action>, known: set<Id>)
    ensures var s := Run(t, actions, known);
            CanLose(s, known) <==> forall u :: u in Administrators(s.table) ==> PendingPassed(t, actions, known, u)
  {
    var s := Run(t, actions, known);
    forall n | n in s.requests && s.requests[n].Cleared? ensures s.requests[n].op.key == PLATFORM_ADMIN {
      RunBacked(t, actions, known, n);
    }
    CanLoseIff(s, known);
    forall u | u in Administrators(s.table) ensures Pending(s, u) <==> PendingPassed(t, actions, known, u) {
      PendingIsPassed(t, actions, known, u);
    }
  }

  // --------------------------------------------------------- one at a time

  // A request is made only when every earlier one is over.
  ghost predicate InTurn(t: Table, actions: seq<Action>, known: set<Id>) {
    forall i :: 0 <= i < |actions| && actions[i].Ask? ==>
      forall n :: n in Run(t, actions[..i], known).requests ==> Run(t, actions[..i], known).requests[n].Over?
  }

  // At most one request is under way, and what let it through still holds.
  ghost predicate Steady(s: State) {
    && Administrators(s.table) != {}
    && (forall n, m | n in s.requests && m in s.requests && n != m && !s.requests[n].Over? :: s.requests[m].Over?)
    && (forall n :: n in s.requests && s.requests[n].Allowed? ==> s.requests[n].op.actor in Administrators(s.table))
    && (forall n :: n in s.requests && s.requests[n].Cleared? ==>
          && s.requests[n].op.key == PLATFORM_ADMIN
          && (s.requests[n].op.RevokeRole? ==> exists b :: b in Administrators(s.table) && b != s.requests[n].op.user))
  }

  lemma {:induction false} MoveSteady(s: State, n: nat, known: set<Id>)
    requires Steady(s) && n in s.requests
    ensures Steady(Do(s, Move(n), known))
  {
    match s.requests[n]
    case Asked(op) => AuthorizedIsHolding(s.table, op);
    case Allowed(op) =>
      if op.user == op.actor && IsSystemScopeRole(op.key) && !Alone(s.table, op.key, op.user) {
        var b :| b in HoldersOf(s.table, op.key) && b != op.user;
        assert b in Administrators(s.table);
      }
    case Cleared(op) =>
      WriteMoves(s.table, op, known);
      if op.RevokeRole? {
        var b :| b in Administrators(s.table) && b != op.user;
        assert b in Administrators(Do(s, Move(n), known).table);
      }
    case Over =>
  }

  lemma {:induction false} InTurnKeepsOne(t: Table, actions: seq<Action>, known: set<Id>)
    requires Administrators(t) != {} && InTurn(t, actions, known)
    ensures Steady(Run(t, actions, known))
  {
    if actions != [] {
      var m := |actions| - 1;
      forall i | 0 <= i < m && actions[..m][i].Ask?
        ensures forall n :: n in Run(t, actions[..m][..i], known).requests ==>
            Run(t, actions[..m][..i], known).requests[n].Over?
      {
        assert actions[..m][..i] == actions[..i];
      }
      InTurnKeepsOne(t, actions[..m], known);
      var s := Run(t, actions[..m], known);
      if actions[m].Move? && actions[m].n in s.requests { MoveSteady(s, actions[m].n, known); }
    }
  }

  // Each request begun, authorized, checked and written before the next.
  function Serial(ops: seq<Op>): seq<Action> {
    if ops == [] then []
    else
      var n := |ops| - 1;
      Serial(ops[..n]) + [Ask(n, ops[n]), Move(n), Move(n), Move(n)]
  }

  lemma {:induction false} RunOne(t: Table, p: seq<Action>, a: Action, known: set<Id>)
    ensures Run(t, p + [a], known) == Do(Run(t, p, known), a, known)
  {
    assert (p + [a])[..|p|] == p;
  }

  // Served like that, the requests do what the one-step requests do.
  lemma {:induction false} SerialIsAtomic(t: Table, ops: seq<Op>, known: set<Id>)
    ensures Run(t, Serial(ops), known).table == After(t, ops, known)
    ensures forall n :: n in Run(t, Serial(ops), known).requests ==>
        n < |ops| && Run(t, Serial(ops), known).requests[n].Over?
  {
    if ops != [] {
      var n := |ops| - 1;
      var p := Serial(ops[..n]);
      SerialIsAtomic(t, ops[..n], known);
      var p1, p2 := p + [Ask(n, ops[n])], p + [Ask(n, ops[n])] + [Move(n)];
      RunOne(t, p, Ask(n, ops[n]), known);
      RunOne(t, p1, Move(n), known);
      RunOne(t, p2, Move(n), known);
      RunOne(t, p2 + [Move(n)], Move(n), known);
      assert Serial(ops) == p2 + [Move(n)] + [Move(n)];
      ServeOne(Run(t, p, known), n, ops[n], known);
    }
  }

  lemma {:induction false} ServeOne(s: State, n: nat, op: Op, known: set<Id>)
    requires n !in s.requests
    ensures var e := Do(Do(Do(Do(s, Ask(n, op), known), Move(n), known), Move(n), known), Move(n), known);
            e.table == Requested(s.table, op, known) && e.requests == s.requests[n := Over]
  {
    var s1 := Do(s, Ask(n, op), known);
    var s2 := Do(s1, Move(n), known);
    var s3 := Do(s2, Move(n), known);
    assert s2.table == s.table && s3.table == s.table;
    assert s2.requests[n] == if Authorized(s.table, op) then Allowed(op) else Over;
    assert s3.requests[n] == if Authorized(s.table, op) then Check(s.table, op) else Over;
  }

  lemma {:induction false} SerialInTurn(t: Table, ops: seq<Op>, known: set<Id>)
    ensures InTurn(t, Serial(ops), known)
  {
    if ops != [] {
      var n := |ops| - 1;
      var p := Serial(ops[..n]);
      SerialInTurn(t, ops[..n], known);
      SerialIsAtomic(t, ops[..n], known);
      forall i | 0 <= i < |Serial(ops)| && Serial(ops)[i].Ask?
        ensures forall r :: r in Run(t, Serial(ops)[..i], known).requests ==>
            Run(t, Serial(ops)[..i], known).requests[r].Over?
      {
        assert i <= |p|;
        assert Serial(ops)[..i] == p[..i];
        if i < |p| { assert p[i].Ask?; } else { assert p[..i] == p; }
      }
    }
  }

  // Whatever is asked for, an installation with an administrator keeps one, as long
  // as each request is authorized, checked and written before the next is begun.
  lemma {:induction false} AnAdministratorRemains(t: Table, ops: seq<Op>, known: set<Id>)
    requires Administrators(t) != {}
    ensures Administrators(After(t, ops, known)) != {}
  {
    SerialInTurn(t, ops, known);
    InTurnKeepsOne(t, Serial(ops), known);
    SerialIsAtomic(t, ops, known);
  }
}
