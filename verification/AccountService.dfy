/**
  The account store and service as the program has them: rows changed in place,
  sign-in and verification as sequences of reads and writes
  (internal/store/repositories/user*.go, internal/domain/user). Every store
  method is one transaction of Accounts.Apply; every service method is the
  corresponding call run alone.
 */
module AccountService {
  import opened Accounts
  import Address
  import Codes
  import Tokens

  // ------------------------------------------------------------- calls alone

  // Reads and transactions still to make, at most.
  function Left(c: Call): nat {
    match c
    case Finished(_) => 0
    case Granted(_, _, _) => 0
    case Ready(_, next) => 1 + Left(next)
    case VerifyD(_, _) => 1
    case SignInC(_, _, _) => 2
    case ResetB(_, _, _) => 2
    case ForgotA(_) => 2
    case PasswordA(_, _, _, _) => 2
    case VerifyC(_, _, _) => 3
    case FactorB(_, _, _) => 3
    case ResetA(_, _, _, _) => 3
    case ChangeA(_, _, _) => 2
    case ConfirmA(_, _) => 2
    case SignInB(_, _) => 4
    case VerifyB(_, _, _) => 4
    case FactorA(_, _, _, _) => 4
    case SignInA(_, _, _) => 5
    case VerifyA(_, _, _) => 5
  }

  lemma {:induction false} NextMakesProgress(s: Store, c: Call, x: Draw)
    requires !c.Ready? && !c.Granted? && !c.Finished?
    ensures Left(Next(s, c, x, 0)) < Left(c)
  {
    if c.FactorB? {
      assert Left(Ready(SetTwoFactor(c.user, c.enabled), Finished(Done))) == 1 + Left(Finished(Done)) == 1;
    }
  }

  // A request with nobody else at work, up to its answer or the token to sign.
  ghost function Alone(s: Store, c: Call, x: Draw): (Store, Call)
    decreases Left(c)
  {
    match c
    case Finished(_) => (s, c)
    case Granted(_, _, _) => (s, c)
    case Ready(tx, next) =>
      var (s', err) := Apply(s, tx);
      if err.Some? then (s, Stop(err.value)) else Alone(s', next, x)
    case _ => NextMakesProgress(s, c, x); Alone(s, Next(s, c, x, 0), x)
  }

  lemma {:induction false} AloneNext(s: Store, c: Call, x: Draw)
    requires !c.Ready? && !c.Granted? && !c.Finished?
    ensures Alone(s, c, x) == Alone(s, Next(s, c, x, 0), x)
  {
  }

  lemma {:induction false} AloneReady(s: Store, tx: Tx, next: Call, x: Draw)
    ensures Alone(s, Ready(tx, next), x)
            == if Apply(s, tx).1.Some? then (s, Stop(Apply(s, tx).1.value)) else Alone(Apply(s, tx).0, next, x)
  {
  }

  lemma {:induction false} AloneLast(s: Store, tx: Tx, answer: Answer, x: Draw)
    ensures Alone(s, Ready(tx, Finished(answer)), x)
            == if Apply(s, tx).1.Some? then (s, Stop(Apply(s, tx).1.value)) else (Apply(s, tx).0, Finished(answer))
  {
  }

  // ------------------------------------------------------------------ the rows

  class Tables {
    var users: map<Id, User>
    var devices: map<Id, Device>
    var challenges: Codes.Table
    var resets: Codes.Table
    var changes: Codes.Table
    var targets: map<Id, string>

    function View(): Store
      reads this
    {
      Store(users, devices, challenges, resets, changes, targets)
    }

    constructor (s: Store)
      ensures View() == s
    {
      users, devices, challenges := s.users, s.devices, s.challenges;
      resets, changes, targets := s.resets, s.changes, s.targets;
    }

    // bumpEpoch: the change and the epoch in one statement.
    method SetPassword(u: Id, hash: PasswordHash) returns (err: Option<Error>)
      modifies this
      ensures (View(), err) == Apply(old(View()), Accounts.SetPassword(u, hash))
    {
      if u !in users || !users[u].live { return Some(ErrNotFound); }
      users := users[u := users[u].(password := hash, epoch := users[u].epoch + 1)];
      return None;
    }

    method BumpSessionEpoch(u: Id) returns (err: Option<Error>)
      modifies this
      ensures (View(), err) == Apply(old(View()), BumpEpoch(u))
    {
      if u !in users || !users[u].live { return Some(ErrNotFound); }
      users := users[u := users[u].(epoch := users[u].epoch + 1)];
      return None;
    }

    method SetSuspended(u: Id, on: bool) returns (err: Option<Error>)
      modifies this
      ensures (View(), err) == Apply(old(View()), Accounts.SetSuspended(u, on))
    {
      if u !in users || !users[u].live { return Some(ErrNotFound); }
      if on {
        users := users[u := users[u].(suspended := true, epoch := users[u].epoch + 1)];
      } else {
        users := users[u := users[u].(suspended := false)];
      }
      return None;
    }

    // The devices first, one row after another, then the account.
    method Delete(u: Id) returns (err: Option<Error>)
      modifies this
      ensures (View(), err) == Apply(old(View()), DeleteUser(u))
    {
      if u !in users || !users[u].live { return Some(ErrNotFound); }
      var before := View();
      var todo := set d | d in devices && devices[d].user == u && !devices[d].revoked;
      while todo != {}
        invariant View() == before.(devices := devices) && devices.Keys == before.devices.Keys
        invariant forall d :: d in todo ==> d in devices && before.devices[d].user == u
        invariant forall d :: d in devices ==>
          devices[d] == (if d in todo then before.devices[d] else Retire(before, u).devices[d])
        decreases todo
      {
        var d :| d in todo;
        devices := devices[d := devices[d].(revoked := true)];
        todo := todo - {d};
      }
      assert devices == Retire(before, u).devices;
      users := users[u := users[u].(live := false)];
      return None;
    }

    method CreateDevice(d: Id, u: Id, key: Fingerprint) returns (err: Option<Error>)
      modifies this
      ensures (View(), err) == Apply(old(View()), Accounts.CreateDevice(d, u, key))
    {
      if u !in users || d in devices || KeyTaken(View(), u, key) { return Some(ErrStore); }
      devices := devices[d := Device(u, key, false, false)];
      return None;
    }

    method TrustDevice(d: Id, owner: Id) returns (err: Option<Error>)
      modifies this
      ensures (View(), err) == Apply(old(View()), Accounts.TrustDevice(d, owner))
    {
      if d !in devices { return Some(ErrNotFound); }
      if devices[d].revoked { return Some(ErrDeviceRevoked); }
      devices := devices[d := devices[d].(trusted := true)];
      return None;
    }

    // Device.Revoke: the block and the end of trust. Revoking twice is not a failure.
    method RevokeDevice(u: Id, d: Id) returns (err: Option<Error>)
      modifies this
      ensures (View(), err) == Apply(old(View()), Accounts.RevokeDevice(u, d))
    {
      if d !in devices || devices[d].user != u { return Some(ErrNotFound); }
      if devices[d].revoked { return None; }
      devices := devices[d := devices[d].(revoked := true, trusted := false)];
      return None;
    }

    method SetTwoFactorEnabled(u: Id, enabled: bool) returns (err: Option<Error>)
      modifies this
      ensures (View(), err) == Apply(old(View()), SetTwoFactor(u, enabled))
    {
      if u in users { users := users[u := users[u].(twoFactor := enabled)]; }
      return None;
    }

    // The account's unspent challenges go first, one row after another.
    method ReplaceTwoFactorChallenge(
      c: Id, u: Id, d: Id, hash: Codes.CodeHash, expires: int) returns (err: Option<Error>)
      modifies this
      ensures (View(), err) == Apply(old(View()), ReplaceChallenge(c, u, d, hash, expires))
    {
      if u !in users || d !in devices || c in challenges { return Some(ErrStore); }
      var before := View();
      var row := Codes.Row(u, d, hash, expires, 0, false);
      var gone := set k | k in challenges && challenges[k].user == u && !challenges[k].spent;
      var todo := gone;
      while todo != {}
        invariant todo <= gone && View() == before.(challenges := challenges)
        invariant challenges.Keys == before.challenges.Keys - (gone - todo)
        invariant forall k :: k in challenges ==> challenges[k] == before.challenges[k]
        decreases todo
      {
        var k :| k in todo;
        challenges := challenges - {k};
        todo := todo - {k};
      }
      challenges := challenges[c := row];
      assert challenges == Codes.Replace(before.challenges, c, row);
      return None;
    }

    method FailTwoFactorChallenge(c: Id)
      modifies this
      ensures (View(), None) == Apply(old(View()), FailChallenge(c))
    {
      if c in challenges && !challenges[c].spent {
        var n := challenges[c].attempts + 1;
        challenges := challenges[c := challenges[c].(attempts := n, spent := n >= Codes.MAX_ATTEMPTS)];
      }
    }

    // Zero rows spent: somebody was first. A device that cannot be trusted any more
    // puts the challenge back.
    method ConsumeTwoFactorChallenge(c: Id, d: Id) returns (err: Option<Error>)
      modifies this
      ensures (View(), err) == Apply(old(View()), ConsumeChallenge(c, d))
    {
      var before := challenges;
      if c !in challenges || challenges[c].spent { return Some(ErrInvalidTwoFactorCode); }
      challenges := challenges[c := challenges[c].(spent := true)];
      err := TrustDevice(d, NIL);
      if err.Some? { challenges := before; }
    }

    method ReplacePasswordReset(c: Id, u: Id, hash: Codes.CodeHash, expires: int) returns (err: Option<Error>)
      modifies this
      ensures (View(), err) == Apply(old(View()), ReplaceReset(c, u, hash, expires))
    {
      if u !in users || c in resets { return Some(ErrStore); }
      resets := Codes.Replace(resets, c, Codes.Row(u, NIL, hash, expires, 0, false));
      return None;
    }

    method FailPasswordReset(c: Id)
      modifies this
      ensures (View(), None) == Apply(old(View()), FailReset(c))
    {
      if c in resets && !resets[c].spent {
        var n := resets[c].attempts + 1;
        resets := resets[c := resets[c].(attempts := n, spent := n >= Codes.MAX_ATTEMPTS)];
      }
    }

    // The password first; a code row that is gone rolls it back.
    method ConsumePasswordReset(c: Id, u: Id, hash: PasswordHash, loaded: nat) returns (err: Option<Error>)
      modifies this
      ensures (View(), err) == Apply(old(View()), ConsumeReset(c, u, hash, loaded))
    {
      var before := users;
      if u in users && users[u].live {
        users := users[u := users[u].(password := hash, epoch := users[u].epoch + 1)];
      }
      if c !in resets {
        users := before;
        return Some(ErrNotFound);
      }
      resets := resets[c := resets[c].(spent := true, attempts := loaded)];
      return None;
    }

    method ReplaceEmailChange(
      c: Id, u: Id, hash: Codes.CodeHash, expires: int, email: string) returns (err: Option<Error>)
      modifies this
      ensures (View(), err) == Apply(old(View()), ReplaceChange(c, u, hash, expires, email))
    {
      if u !in users || c in changes || c in targets { return Some(ErrStore); }
      changes := Codes.Replace(changes, c, Codes.Row(u, NIL, hash, expires, 0, false));
      targets := targets[c := email];
      return None;
    }

    method FailEmailChange(c: Id)
      modifies this
      ensures (View(), None) == Apply(old(View()), FailChange(c))
    {
      if c in changes && !changes[c].spent {
        var n := changes[c].attempts + 1;
        changes := changes[c := changes[c].(attempts := n, spent := n >= Codes.MAX_ATTEMPTS)];
      }
    }

    // The address first; a code row that is gone rolls it back.
    method ConsumeEmailChange(c: Id, u: Id, email: string, loaded: nat) returns (err: Option<Error>)
      modifies this
      ensures (View(), err) == Apply(old(View()), ConsumeChange(c, u, email, loaded))
    {
      var before := users;
      if u !in users { return Some(ErrNotFound); }
      if users[u].live && TakenByOther(View(), u, email) { return Some(ErrEmailTaken); }
      users := users[u := users[u].(email := email)];
      if c !in changes {
        users := before;
        return Some(ErrNotFound);
      }
      changes := changes[c := changes[c].(spent := true, attempts := loaded)];
      return None;
    }
  }

  // ---------------------------------------------------------------- the service

  // What makes the lookups by address, by fingerprint and of the active code find
  // one row: the unique indexes, and a new code replacing the open ones.
  ghost predicate Unique(s: Store) {
    OneAddress(s) && OneKey(s) && OneOpen(s.challenges) && OneOpen(s.resets) && OneOpen(s.changes)
  }

  ghost predicate OneAddress(s: Store) {
    forall u, v | u in s.users && v in s.users ::
      s.users[u].live && s.users[v].live && s.users[u].email == s.users[v].email ==> u == v
  }

  ghost predicate OneKey(s: Store) {
    forall d, e | d in s.devices && e in s.devices ::
      s.devices[d].user == s.devices[e].user && s.devices[d].key == s.devices[e].key ==> d == e
  }

  ghost predicate OneOpen(t: Codes.Table) {
    forall b, c | Codes.Open(t, b) && Codes.Open(t, c) :: t[b].user == t[c].user ==> b == c
  }

  lemma {:induction false} AddressesStay(s: Store, tx: Tx)
    requires OneAddress(s)
    ensures OneAddress(Apply(s, tx).0)
  {
    if !tx.CreateUser? && !tx.ConsumeChange? { SameAddresses(s, tx); }
  }

  // Only registration and a confirmed change give an account an address.
  lemma {:induction false} SameAddresses(s: Store, tx: Tx)
    requires !tx.CreateUser? && !tx.ConsumeChange?
    ensures forall u :: u in Apply(s, tx).0.users ==>
              && u in s.users && Apply(s, tx).0.users[u].email == s.users[u].email
              && (Apply(s, tx).0.users[u].live ==> s.users[u].live)
  {
  }

  lemma {:induction false} KeysStay(s: Store, tx: Tx)
    requires OneKey(s)
    ensures OneKey(Apply(s, tx).0)
  {
  }

  lemma {:induction false} ChallengesStay(s: Store, tx: Tx)
    requires OneOpen(s.challenges)
    ensures OneOpen(Apply(s, tx).0.challenges)
  {
  }

  lemma {:induction false} ResetsStay(s: Store, tx: Tx)
    requires OneOpen(s.resets)
    ensures OneOpen(Apply(s, tx).0.resets)
  {
  }

  lemma {:induction false} ChangesStay(s: Store, tx: Tx)
    requires OneOpen(s.changes)
    ensures OneOpen(Apply(s, tx).0.changes)
  {
  }

  lemma {:induction false} DoKeepsUnique(w: World, a: Action)
    requires Unique(w.store)
    ensures Unique(Do(w, a).store)
  {
    var tx := if a.Elsewhere? then Some(a.tx)
              else if a.Step? && a.n in w.calls && w.calls[a.n].Ready? then Some(w.calls[a.n].tx) else None;
    if tx.Some? {
      AddressesStay(w.store, tx.value);
      KeysStay(w.store, tx.value);
      ChallengesStay(w.store, tx.value);
      ResetsStay(w.store, tx.value);
      ChangesStay(w.store, tx.value);
    }
  }

  // Every history of an installation keeps them.
  lemma {:induction false} RunKeepsUnique(actions: seq<Action>)
    ensures Unique(Run(actions).store)
  {
    if actions != [] {
      RunKeepsUnique(actions[..|actions| - 1]);
      DoKeepsUnique(Run(actions[..|actions| - 1]), actions[|actions| - 1]);
    }
  }

  class Service {
    const db: Tables

    constructor (tables: Tables)
      ensures db == tables
    {
      db := tables;
    }

    method LookupEmail(email: string) returns (found: Option<Id>)
      requires Unique(db.View())
      ensures found == ByEmail(db.View(), email)
    {
      var rows := set u | u in db.users && db.users[u].live && db.users[u].email == email;
      if AddressTaken(db.View(), email) {
        var u :| u in db.users && db.users[u].live && db.users[u].email == email;
        assert u in rows;
      }
      if rows == {} { return None; }
      var u :| u in rows;
      return Some(u);
    }

    method LookupDevice(u: Id, key: Fingerprint) returns (found: Option<Id>)
      requires Unique(db.View())
      ensures found == DeviceByKey(db.View(), u, key)
    {
      var rows := set d | d in db.devices && db.devices[d].user == u && db.devices[d].key == key;
      if KeyTaken(db.View(), u, key) {
        var d :| d in db.devices && db.devices[d].user == u && db.devices[d].key == key;
        assert d in rows;
      }
      if rows == {} { return None; }
      var d :| d in rows;
      return Some(d);
    }

    // resolveDevice: recognise the device or register a new one.
    method ResolveDevice(r: Read, key: Option<nat>, x: Draw) returns (d: Id, dev: Device, err: Option<Error>)
      requires Unique(db.View())
      modifies db
      ensures Alone(old(db.View()), SignInB(r, key), x)
              == if err.Some? then (db.View(), Stop(err.value)) else Alone(db.View(), SignInC(r, d, dev), x)
    {
      AloneNext(db.View(), SignInB(r, key), x);
      d, dev := x.id, Device(r.user, Sha256(x.token), false, false);
      if key.Some? {
        var found := LookupDevice(r.user, Sha256(key.value));
        if found.Some? { return found.value, db.devices[found.value], None; }
      }
      AloneReady(db.View(), CreateDevice(x.id, r.user, Sha256(x.token)), SignInC(r, d, dev), x);
      err := db.CreateDevice(x.id, r.user, Sha256(x.token));
    }

    method SignIn(email: string, password: string, key: Option<nat>, x: Draw) returns (outcome: Call)
      requires Unique(db.View())
      modifies db
      ensures (db.View(), outcome) == Alone(old(db.View()), SignInA(email, password, key), x)
    {
      AloneNext(db.View(), SignInA(email, password, key), x);
      var found := LookupEmail(Address.Normalize(email));
      if found.None? { return Stop(ErrInvalidCredentials); }
      var u := found.value;
      var row := db.users[u];
      if row.password != Bcrypt(password) { return Stop(ErrInvalidCredentials); }
      if row.suspended { return Stop(ErrSuspended); }
      var r := Read(u, row, 0);
      var d, dev, err := ResolveDevice(r, key, x);
      if err.Some? { return Stop(err.value); }
      outcome := FinishSignIn(r, d, dev, x);
    }

    // A revoked device is refused; two-factor asks an untrusted one for a code.
    method FinishSignIn(r: Read, d: Id, dev: Device, x: Draw) returns (outcome: Call)
      modifies db
      ensures (db.View(), outcome) == Alone(old(db.View()), SignInC(r, d, dev), x)
    {
      AloneNext(db.View(), SignInC(r, d, dev), x);
      if dev.revoked { return Stop(ErrDeviceRevoked); }
      if r.row.twoFactor && !IsTrusted(dev) {
        var hash := Codes.HashCode(Codes.TwoFactor, r.row.uuid, x.digits);
        AloneReady(db.View(), ReplaceChallenge(x.id, r.user, d, hash, x.now + CODE_TTL), Finished(Challenged(d)), x);
        var err := db.ReplaceTwoFactorChallenge(x.id, r.user, d, hash, x.now + CODE_TTL);
        if err.Some? { return Stop(err.value); }
        return Finished(Challenged(d));
      }
      return Granted(r, d, dev);
    }

    method VerifyTwoFactor(email: string, digits: string, key: Option<nat>, x: Draw) returns (outcome: Call)
      requires Unique(db.View())
      modifies db
      ensures (db.View(), outcome) == Alone(old(db.View()), VerifyA(email, digits, key), x)
    {
      AloneNext(db.View(), VerifyA(email, digits, key), x);
      var found := LookupEmail(Address.Normalize(email));
      if found.None? || key.None? { return Stop(ErrInvalidTwoFactorCode); }
      var u := found.value;
      if db.users[u].suspended { return Stop(ErrSuspended); }
      var r := Read(u, db.users[u], 0);
      AloneNext(db.View(), VerifyB(r, digits, key), x);
      var device := LookupDevice(u, Sha256(key.value));
      if device.None? { return Stop(ErrInvalidTwoFactorCode); }
      if db.devices[device.value].revoked { return Stop(ErrDeviceRevoked); }
      outcome := SpendChallenge(r, digits, device.value, x);
    }

    method LookupCode(table: Codes.Table, u: Id, now: int) returns (found: Option<Id>)
      requires OneOpen(table)
      ensures found == ActiveCode(table, u, now)
    {
      var rows := set c | c in table && Codes.Active(table, u, now, c);
      assert forall c :: Codes.Active(table, u, now, c) <==> c in rows;
      if rows == {} { return None; }
      var c :| c in rows;
      return Some(c);
    }

    // The challenge must be this device's and the code right; either way the
    // challenge moves, and a spent one trusts the device in the same transaction.
    method SpendChallenge(r: Read, digits: string, d: Id, x: Draw) returns (outcome: Call)
      requires Unique(db.View())
      modifies db
      ensures (db.View(), outcome) == Alone(old(db.View()), VerifyC(r, digits, d), x)
    {
      AloneNext(db.View(), VerifyC(r, digits, d), x);
      var found := LookupCode(db.challenges, r.user, x.now);
      if found.None? { return Stop(ErrInvalidTwoFactorCode); }
      var c := found.value;
      if db.challenges[c].device != d || db.challenges[c].hash != Codes.HashCode(Codes.TwoFactor, r.row.uuid, digits) {
        AloneReady(db.View(), FailChallenge(c), Stop(ErrInvalidTwoFactorCode), x);
        db.FailTwoFactorChallenge(c);
        return Stop(ErrInvalidTwoFactorCode);
      }
      outcome := TrustAndReload(r, c, d, x);
    }

    method TrustAndReload(r: Read, c: Id, d: Id, x: Draw) returns (outcome: Call)
      modifies db
      ensures (db.View(), outcome) == Alone(old(db.View()), Ready(ConsumeChallenge(c, d), VerifyD(r, d)), x)
    {
      AloneReady(db.View(), ConsumeChallenge(c, d), VerifyD(r, d), x);
      var err := db.ConsumeTwoFactorChallenge(c, d);
      if err.Some? { return Stop(err.value); }
      AloneNext(db.View(), VerifyD(r, d), x);
      if !DeviceActive(db.View(), r.user, d) { return Stop(ErrDeviceRevoked); }
      return Granted(r, d, db.devices[d]);
    }

    method SetTwoFactor(u: Id, password: string, enabled: bool, key: Option<nat>, x: Draw) returns (outcome: Call)
      requires Unique(db.View())
      modifies db
      ensures (db.View(), outcome) == Alone(old(db.View()), FactorA(u, password, enabled, key), x)
    {
      AloneFactor(db.View(), u, password, enabled, key, x);
      if !Live(db.View(), u) { return Stop(ErrNotFound); }
      if db.users[u].password != Bcrypt(password) { return Stop(ErrInvalidCredentials); }
      if enabled && key.Some? {
        var device := LookupDevice(u, Sha256(key.value));
        if device.Some? {
          var err := db.TrustDevice(device.value, u);
          if err.Some? { return Stop(err.value); }
        }
      }
      var done := db.SetTwoFactorEnabled(u, enabled);
      return Finished(Done);
    }

    method ChangePassword(u: Id, current: string, password: string, confirm: string, x: Draw) returns (outcome: Call)
      modifies db
      ensures (db.View(), outcome) == Alone(old(db.View()), PasswordA(u, current, password, confirm), x)
    {
      AloneNext(db.View(), PasswordA(u, current, password, confirm), x);
      if !Live(db.View(), u) { return Stop(ErrNotFound); }
      if db.users[u].password != Bcrypt(current) { return Stop(ErrInvalidCredentials); }
      var problem := PasswordProblem(password, confirm);
      if problem.Some? { return Stop(problem.value); }
      if |password| > MAX_PASSWORD { return Stop(ErrPasswordTooLong); }
      AloneReady(db.View(), Accounts.SetPassword(u, Bcrypt(password)), Finished(Done), x);
      var err := db.SetPassword(u, Bcrypt(password));
      return Finished(Done);
    }

    // An unknown address is answered like any other.
    method BeginPasswordReset(email: string, x: Draw) returns (outcome: Call)
      requires Unique(db.View())
      modifies db
      ensures (db.View(), outcome) == Alone(old(db.View()), ForgotA(email), x)
    {
      AloneNext(db.View(), ForgotA(email), x);
      var found := LookupEmail(Address.Normalize(email));
      if found.None? { return Finished(Done); }
      var hash := Codes.HashCode(Codes.Reset, db.users[found.value].uuid, x.digits);
      AloneLast(db.View(), ReplaceReset(x.id, found.value, hash, x.now + RESET_TTL), Done, x);
      var err := db.ReplacePasswordReset(x.id, found.value, hash, x.now + RESET_TTL);
      if err.Some? { return Stop(err.value); }
      return Finished(Done);
    }

    method CompletePasswordReset(email: string, digits: string, password: string, confirm: string, x: Draw)
      returns (outcome: Call)
      requires Unique(db.View())
      modifies db
      ensures (db.View(), outcome) == Alone(old(db.View()), ResetA(email, digits, password, confirm), x)
    {
      AloneNext(db.View(), ResetA(email, digits, password, confirm), x);
      var problem := PasswordProblem(password, confirm);
      if problem.Some? { return Stop(problem.value); }
      var account := LookupEmail(Address.Normalize(email));
      if account.None? { return Stop(ErrInvalidResetCode); }
      var u := account.value;
      var r := Read(u, db.users[u], 0);
      AloneNext(db.View(), ResetB(r, digits, password), x);
      var found := LookupCode(db.resets, u, x.now);
      if found.None? { return Stop(ErrInvalidResetCode); }
      outcome := SpendReset(r, digits, password, found.value, x);
    }

    method SpendReset(r: Read, digits: string, password: string, c: Id, x: Draw) returns (outcome: Call)
      requires c in db.resets
      modifies db
      ensures (db.View(), outcome) == Alone(old(db.View()),
                if old(db.resets[c]).hash != Codes.HashCode(Codes.Reset, r.row.uuid, digits)
                then Ready(FailReset(c), Stop(ErrInvalidResetCode))
                else if |password| > MAX_PASSWORD then Stop(ErrPasswordTooLong)
                else Ready(ConsumeReset(c, r.user, Bcrypt(password), old(db.resets[c]).attempts), Finished(Done)), x)
    {
      var reset := db.resets[c];
      if reset.hash != Codes.HashCode(Codes.Reset, r.row.uuid, digits) {
        AloneReady(db.View(), FailReset(c), Stop(ErrInvalidResetCode), x);
        db.FailPasswordReset(c);
        return Stop(ErrInvalidResetCode);
      }
      if |password| > MAX_PASSWORD { return Stop(ErrPasswordTooLong); }
      AloneReady(db.View(), ConsumeReset(c, r.user, Bcrypt(password), reset.attempts), Finished(Done), x);
      var err := db.ConsumePasswordReset(c, r.user, Bcrypt(password), reset.attempts);
      return Finished(Done);
    }

    method BeginEmailChange(u: Id, email: string, password: string, x: Draw) returns (outcome: Call)
      modifies db
      ensures (db.View(), outcome) == Alone(old(db.View()), ChangeA(u, email, password), x)
    {
      AloneNext(db.View(), ChangeA(u, email, password), x);
      var target := Address.Normalize(email);
      if target == "" { return Stop(ErrEmailInvalid); }
      if !Live(db.View(), u) { return Stop(ErrNotFound); }
      if db.users[u].password != Bcrypt(password) { return Stop(ErrInvalidCredentials); }
      if target == db.users[u].email { return Stop(ErrSameEmail); }
      var hash := Codes.HashCode(Codes.EmailChange, db.users[u].uuid, x.digits);
      outcome := RaiseChange(x.id, u, hash, x.now + CHANGE_TTL, target, x);
    }

    method RaiseChange(
      c: Id, u: Id, hash: Codes.CodeHash, expires: int, target: string, ghost x: Draw) returns (outcome: Call)
      modifies db
      ensures (db.View(), outcome) == Alone(old(db.View()),
          Ready(ReplaceChange(c, u, hash, expires, target), Finished(Done)), x)
    {
      AloneLast(db.View(), ReplaceChange(c, u, hash, expires, target), Done, x);
      var err := db.ReplaceEmailChange(c, u, hash, expires, target);
      if err.Some? { return Stop(err.value); }
      return Finished(Done);
    }

    method ConfirmEmailChange(u: Id, digits: string, x: Draw) returns (outcome: Call)
      requires Unique(db.View())
      modifies db
      ensures (db.View(), outcome) == Alone(old(db.View()), ConfirmA(u, digits), x)
    {
      AloneNext(db.View(), ConfirmA(u, digits), x);
      var found := LookupCode(db.changes, u, x.now);
      if found.None? { return Stop(ErrInvalidEmailCode); }
      var c := found.value;
      if u !in db.users || c !in db.targets
          || db.changes[c].hash != Codes.HashCode(Codes.EmailChange, db.users[u].uuid, digits) {
        AloneLast(db.View(), FailChange(c), Refused(ErrInvalidEmailCode), x);
        db.FailEmailChange(c);
        return Stop(ErrInvalidEmailCode);
      }
      outcome := SpendChange(c, u, db.targets[c], db.changes[c].attempts, x);
    }

    method SpendChange(c: Id, u: Id, target: string, loaded: nat, ghost x: Draw) returns (outcome: Call)
      modifies db
      ensures (db.View(), outcome) == Alone(old(db.View()),
          Ready(ConsumeChange(c, u, target, loaded), Finished(Done)), x)
    {
      AloneLast(db.View(), ConsumeChange(c, u, target, loaded), Done, x);
      var err := db.ConsumeEmailChange(c, u, target, loaded);
      if err.Some? { return Stop(err.value); }
      return Finished(Done);
    }

    // requireBearer, with nothing changing between its two reads.
    method RequireBearer(signer: Tokens.Signer, token: Tokens.Token, now: int) returns (pass: bool)
      ensures pass == Bearer(signer, token, now, db.View(), db.View())
    {
      var session := Tokens.Parse(signer, token, now);
      if session.None? { return false; }
      var t := session.value;
      if !Live(db.View(), t.user) || db.users[t.user].epoch != t.epoch { return false; }
      if db.users[t.user].suspended { return false; }
      return DeviceActive(db.View(), t.user, t.device);
    }
  }

  lemma {:induction false} AloneFactor(s: Store, u: Id, password: string, enabled: bool, key: Option<nat>, x: Draw)
    ensures Alone(s, FactorA(u, password, enabled, key), x)
            == if !Live(s, u) then (s, Stop(ErrNotFound))
               else if s.users[u].password != Bcrypt(password) then (s, Stop(ErrInvalidCredentials))
               else
                 var found := if enabled && key.Some? then DeviceByKey(s, u, Sha256(key.value)) else None;
                 var (t, err) := if found.Some? then Apply(s, TrustDevice(found.value, u)) else (s, None);
                 if err.Some? then (s, Stop(err.value))
                 else (Apply(t, SetTwoFactor(u, enabled)).0, Finished(Done))
  {
    AloneNext(s, FactorA(u, password, enabled, key), x);
    AloneNext(s, FactorB(u, enabled, key), x);
    var found := if enabled && key.Some? then DeviceByKey(s, u, Sha256(key.value)) else None;
    var finish := Ready(SetTwoFactor(u, enabled), Finished(Done));
    if found.Some? {
      var t := Apply(s, TrustDevice(found.value, u)).0;
      AloneReady(s, TrustDevice(found.value, u), finish, x);
      AloneReady(t, SetTwoFactor(u, enabled), Finished(Done), x);
    } else {
      AloneReady(s, SetTwoFactor(u, enabled), Finished(Done), x);
    }
  }
}
