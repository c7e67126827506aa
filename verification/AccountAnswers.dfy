/**
  What each account request answers, and what it leaves in the tables, when nobody
  else is at work: by the rows it finds and by what was typed
  (internal/domain/user).
 */
module AccountAnswers {
  import opened Accounts
  import opened AccountService
  import opened AccountTraces
  import Address
  import Codes

  // The live account of this address.
  predicate Addressed(s: Store, u: Id, email: string) { Live(s, u) && s.users[u].email == Address.Normalize(email) }

  // The account's device with this token.
  predicate Keyed(s: Store, u: Id, d: Id, token: nat) {
    d in s.devices && s.devices[d].user == u && s.devices[d].key == Sha256(token)
  }

  // The lookup finds the current code, if there is one.
  lemma {:induction false} TheCode(t: Codes.Table, u: Id, now: int, c: Id)
    requires OneOpen(t) && Current(t, u, now, c)
    ensures ActiveCode(t, u, now) == Some(c)
  {
    assert Codes.Active(t, u, now, c);
  }

  lemma {:induction false} FoundCode(t: Codes.Table, u: Id, now: int)
    ensures ActiveCode(t, u, now).Some? ==> Current(t, u, now, ActiveCode(t, u, now).value)
  {
  }

  // ---------------------------------------------------------------------- sign-in

  // An unknown address and a wrong password are one answer, and change nothing.
  lemma {:induction false} WrongPasswordRefused(s: Store, email: string, password: string, key: Option<nat>, x: Draw)
    requires forall u :: Addressed(s, u, email) ==> s.users[u].password != Bcrypt(password)
    ensures Alone(s, SignInA(email, password, key), x) == (s, Stop(ErrInvalidCredentials))
  {
    AloneNext(s, SignInA(email, password, key), x);
  }

  // The right password goes on to the device: refused if suspended, otherwise the
  // known device is used, or a new untrusted one made.
  lemma {:induction false} RightPassword(
    s: Store, u: Id, email: string, password: string, key: Option<nat>, x: Draw)
    requires OneAddress(s) && Addressed(s, u, email) && s.users[u].password == Bcrypt(password)
    ensures Alone(s, SignInA(email, password, key), x)
            == if s.users[u].suspended then (s, Stop(ErrSuspended))
               else Alone(s, SignInB(Read(u, s.users[u], 0), key), x)
  {
    AloneNext(s, SignInA(email, password, key), x);
    assert ByEmail(s, Address.Normalize(email)) == Some(u);
  }

  // The open challenge of the account is replaced by this one.
  ghost predicate ChallengeRaised(s: Store, t: Store, c: Id, u: Id, d: Id, digits: string, expires: int) {
    && c in t.challenges && u in s.users
    && t.challenges[c] == Codes.Row(u, d, Codes.HashCode(Codes.TwoFactor, s.users[u].uuid, digits), expires, 0, false)
    && t == s.(challenges := t.challenges)
    && forall k :: k != c ==>
         (k in t.challenges <==> k in s.challenges && (s.challenges[k].user == u ==> s.challenges[k].spent))
         && (k in t.challenges ==> t.challenges[k] == s.challenges[k])
  }

  // On a known device the right password is enough if and only if two-factor is off
  // or the device is trusted; a code is asked for otherwise.
  lemma {:induction false} SignInOnKnownDevice(
    s: Store, u: Id, d: Id, email: string, password: string, token: nat, x: Draw)
    requires OneAddress(s) && OneKey(s) && Addressed(s, u, email) && s.users[u].password == Bcrypt(password)
    requires !s.users[u].suspended && Keyed(s, u, d, token) && x.id !in s.challenges
    ensures var (t, outcome) := Alone(s, SignInA(email, password, Some(token)), x);
            if s.devices[d].revoked then t == s && outcome == Stop(ErrDeviceRevoked)
            else if s.users[u].twoFactor && !s.devices[d].trusted then
              outcome == Finished(Challenged(d)) && ChallengeRaised(s, t, x.id, u, d, x.digits, x.now + CODE_TTL)
            else t == s && outcome == Granted(Read(u, s.users[u], 0), d, s.devices[d])
  {
    var r := Read(u, s.users[u], 0);
    RightPassword(s, u, email, password, Some(token), x);
    AloneNext(s, SignInB(r, Some(token)), x);
    assert DeviceByKey(s, u, Sha256(token)) == Some(d);
    Finishing(s, r, d, s.devices[d], x);
  }

  lemma {:induction false} Finishing(s: Store, r: Read, d: Id, dev: Device, x: Draw)
    requires r.user in s.users && r.row == s.users[r.user] && d in s.devices && x.id !in s.challenges
    ensures var (t, outcome) := Alone(s, SignInC(r, d, dev), x);
            if dev.revoked then t == s && outcome == Stop(ErrDeviceRevoked)
            else if r.row.twoFactor && !dev.trusted then
              outcome == Finished(Challenged(d)) && ChallengeRaised(s, t, x.id, r.user, d, x.digits, x.now + CODE_TTL)
            else t == s && outcome == Granted(r, d, dev)
  {
    AloneNext(s, SignInC(r, d, dev), x);
    if !dev.revoked && r.row.twoFactor && !dev.trusted {
      var hash := Codes.HashCode(Codes.TwoFactor, r.row.uuid, x.digits);
      AloneLast(s, ReplaceChallenge(x.id, r.user, d, hash, x.now + CODE_TTL), Challenged(d), x);
    }
  }

  // Without a known device a new one is made, untrusted, so two-factor always asks.
  lemma {:induction false} SignInOnNewDevice(
    s: Store, u: Id, email: string, password: string, key: Option<nat>, x: Draw)
    requires OneAddress(s) && Addressed(s, u, email) && s.users[u].password == Bcrypt(password)
    requires !s.users[u].suspended && (key.Some? ==> forall d :: !Keyed(s, u, d, key.value))
    requires x.id !in s.challenges && x.id !in s.devices && forall d :: !Keyed(s, u, d, x.token)
    ensures var (t, outcome) := Alone(s, SignInA(email, password, key), x);
            var made := s.(devices := s.devices[x.id := Device(u, Sha256(x.token), false, false)]);
            if s.users[u].twoFactor then
              outcome == Finished(Challenged(x.id))
              && ChallengeRaised(made, t, x.id, u, x.id, x.digits, x.now + CODE_TTL)
            else t == made && outcome == Granted(Read(u, s.users[u], 0), x.id, made.devices[x.id])
  {
    var r := Read(u, s.users[u], 0);
    var dev := Device(u, Sha256(x.token), false, false);
    var made := s.(devices := s.devices[x.id := dev]);
    RightPassword(s, u, email, password, key, x);
    AloneNext(s, SignInB(r, key), x);
    assert !KeyTaken(s, u, Sha256(x.token)) by {
      forall d | d in s.devices ensures !(s.devices[d].user == u && s.devices[d].key == Sha256(x.token)) {
        assert !Keyed(s, u, d, x.token);
      }
    }
    assert key.Some? ==> DeviceByKey(s, u, Sha256(key.value)).None? by {
      if key.Some? && DeviceByKey(s, u, Sha256(key.value)).Some? {
        assert Keyed(s, u, DeviceByKey(s, u, Sha256(key.value)).value, key.value);
      }
    }
    AloneReady(s, CreateDevice(x.id, u, Sha256(x.token)), SignInC(r, x.id, dev), x);
    Finishing(made, r, x.id, dev, x);
  }

  // ------------------------------------------------------------ the second factor

  // One more wrong guess on the code; the fifth closes it.
  function OneGuess(row: Codes.Row): Codes.Row {
    row.(attempts := row.attempts + 1, spent := row.attempts + 1 >= Codes.MAX_ATTEMPTS)
  }

  // With a code active for the account, verifying on a known unrevoked device is
  // granted if and only if the code is that device's and the digits are its own:
  // then the code is spent and the device trusted. Otherwise one guess is counted.
  lemma {:induction false} VerifyAnswers(
    s: Store, u: Id, d: Id, c: Id, email: string, digits: string, token: nat, x: Draw)
    requires Unique(s) && Addressed(s, u, email) && !s.users[u].suspended
    requires Keyed(s, u, d, token) && !s.devices[d].revoked && Current(s.challenges, u, x.now, c)
    ensures var (t, outcome) := Alone(s, VerifyA(email, digits, Some(token)), x);
            var row, dev := s.challenges[c], s.devices[d].(trusted := true);
            if row.device == d && row.hash == Codes.HashCode(Codes.TwoFactor, s.users[u].uuid, digits) then
              && t == s.(challenges := s.challenges[c := row.(spent := true)], devices := s.devices[d := dev])
              && outcome == Granted(Read(u, s.users[u], 0), d, dev)
            else t == s.(challenges := s.challenges[c := OneGuess(row)]) && outcome == Stop(ErrInvalidTwoFactorCode)
  {
    var r := Read(u, s.users[u], 0);
    AloneNext(s, VerifyA(email, digits, Some(token)), x);
    assert ByEmail(s, Address.Normalize(email)) == Some(u);
    AloneNext(s, VerifyB(r, digits, Some(token)), x);
    assert DeviceByKey(s, u, Sha256(token)) == Some(d);
    Comparing(s, r, d, c, digits, x);
  }

  lemma {:induction false} Comparing(s: Store, r: Read, d: Id, c: Id, digits: string, x: Draw)
    requires OneOpen(s.challenges) && Current(s.challenges, r.user, x.now, c)
    requires d in s.devices && s.devices[d].user == r.user && !s.devices[d].revoked
    ensures var (t, outcome) := Alone(s, VerifyC(r, digits, d), x);
            var row, dev := s.challenges[c], s.devices[d].(trusted := true);
            if row.device == d && row.hash == Codes.HashCode(Codes.TwoFactor, r.row.uuid, digits) then
              && t == s.(challenges := s.challenges[c := row.(spent := true)], devices := s.devices[d := dev])
              && outcome == Granted(r, d, dev)
            else t == s.(challenges := s.challenges[c := OneGuess(row)]) && outcome == Stop(ErrInvalidTwoFactorCode)
  {
    AloneNext(s, VerifyC(r, digits, d), x);
    TheCode(s.challenges, r.user, x.now, c);
    var row := s.challenges[c];
    if row.device == d && row.hash == Codes.HashCode(Codes.TwoFactor, r.row.uuid, digits) {
      Redeeming(s, r, d, c, x);
    } else {
      AloneLast(s, FailChallenge(c), Refused(ErrInvalidTwoFactorCode), x);
    }
  }

  lemma {:induction false} Redeeming(s: Store, r: Read, d: Id, c: Id, x: Draw)
    requires Codes.Open(s.challenges, c) && d in s.devices && s.devices[d].user == r.user && !s.devices[d].revoked
    ensures var row, dev := s.challenges[c], s.devices[d].(trusted := true);
            Alone(s, Ready(ConsumeChallenge(c, d), VerifyD(r, d)), x)
            == (s.(challenges := s.challenges[c := row.(spent := true)], devices := s.devices[d := dev]),
                Granted(r, d, dev))
  {
    AloneReady(s, ConsumeChallenge(c, d), VerifyD(r, d), x);
    AloneNext(Apply(s, ConsumeChallenge(c, d)).0, VerifyD(r, d), x);
  }

  // Everything else is refused without a change.
  lemma {:induction false} VerifyRefused(s: Store, email: string, digits: string, key: Option<nat>, x: Draw)
    requires forall u, d, c | Addressed(s, u, email) && Current(s.challenges, u, x.now, c) ::
               !s.users[u].suspended && key.Some? && Keyed(s, u, d, key.value) ==> s.devices[d].revoked
    ensures var (t, outcome) := Alone(s, VerifyA(email, digits, key), x);
            t == s && outcome.Finished? && outcome.answer.Refused?
  {
    AloneNext(s, VerifyA(email, digits, key), x);
    var found := ByEmail(s, Address.Normalize(email));
    if found.Some? && key.Some? && !s.users[found.value].suspended {
      assert Addressed(s, found.value, email);
      DeviceRefused(s, Read(found.value, s.users[found.value], 0), digits, key.value, x);
    }
  }

  lemma {:induction false} DeviceRefused(s: Store, r: Read, digits: string, token: nat, x: Draw)
    requires forall d, c | Current(s.challenges, r.user, x.now, c) ::
               Keyed(s, r.user, d, token) ==> s.devices[d].revoked
    ensures var (t, outcome) := Alone(s, VerifyB(r, digits, Some(token)), x);
            t == s && outcome.Finished? && outcome.answer.Refused?
  {
    AloneNext(s, VerifyB(r, digits, Some(token)), x);
    var device := DeviceByKey(s, r.user, Sha256(token));
    if device.Some? && !s.devices[device.value].revoked {
      assert Keyed(s, r.user, device.value, token);
      FoundCode(s.challenges, r.user, x.now);
      AloneNext(s, VerifyC(r, digits, device.value), x);
    }
  }

  // ------------------------------------------------- requests with the password

  // Done exactly with the right current password and a new one that is confirmed and
  // of an allowed length; then the hash and the epoch move, and nothing else.
  lemma {:induction false} ChangePasswordIff(
    s: Store, u: Id, current: string, password: string, confirm: string, x: Draw)
    ensures var (t, outcome) := Alone(s, PasswordA(u, current, password, confirm), x);
            if Live(s, u) && s.users[u].password == Bcrypt(current) && password == confirm
               && MIN_PASSWORD <= |password| <= MAX_PASSWORD
            then
              && outcome == Finished(Done)
              && t == s.(users := s.users[u :=
                           s.users[u].(password := Bcrypt(password), epoch := s.users[u].epoch + 1)])
            else t == s && outcome.Finished? && outcome.answer.Refused?
    ensures Live(s, u) && s.users[u].password != Bcrypt(current) ==>
        Alone(s, PasswordA(u, current, password, confirm), x).1 == Stop(ErrInvalidCredentials)
  {
    AloneNext(s, PasswordA(u, current, password, confirm), x);
    AloneLast(s, SetPassword(u, Bcrypt(password)), Done, x);
  }

  // Done exactly with the right password, unless turning it on from a known device
  // that is revoked; turning it on trusts the device it is asked from, if known.
  lemma {:induction false} SetTwoFactorIff(
    s: Store, u: Id, d: Id, password: string, enabled: bool, key: Option<nat>, x: Draw)
    requires OneKey(s)
    requires key.Some? ==> Keyed(s, u, d, key.value) || forall e :: !Keyed(s, u, e, key.value)
    ensures var (t, outcome) := Alone(s, FactorA(u, password, enabled, key), x);
            var trusting := enabled && key.Some? && Keyed(s, u, d, key.value);
            if Live(s, u) && s.users[u].password == Bcrypt(password) && !(trusting && s.devices[d].revoked) then
              && outcome == Finished(Done)
              && t == s.(users := s.users[u := s.users[u].(twoFactor := enabled)],
                         devices := if trusting then s.devices[d := s.devices[d].(trusted := true)] else s.devices)
            else t == s && outcome.Finished? && outcome.answer.Refused?
    ensures Live(s, u) && s.users[u].password != Bcrypt(password) ==>
        Alone(s, FactorA(u, password, enabled, key), x).1 == Stop(ErrInvalidCredentials)
  {
    AloneFactor(s, u, password, enabled, key, x);
    if key.Some? {
      var found := DeviceByKey(s, u, Sha256(key.value));
      if found.Some? { assert Keyed(s, u, found.value, key.value); }
      if Keyed(s, u, d, key.value) { assert found == Some(d); }
    }
  }

  // The account's pending change is replaced by this one.
  ghost predicate ChangeRaised(s: Store, t: Store, c: Id, u: Id, email: string, digits: string, expires: int) {
    && c in t.changes && u in s.users
    && t.changes[c] == Codes.Row(u, NIL, Codes.HashCode(Codes.EmailChange, s.users[u].uuid, digits), expires, 0, false)
    && t == s.(changes := t.changes, targets := s.targets[c := email])
    && forall k :: k != c ==>
         (k in t.changes <==> k in s.changes && (s.changes[k].user == u ==> s.changes[k].spent))
         && (k in t.changes ==> t.changes[k] == s.changes[k])
  }

  // Done exactly with the right password and a usable address other than the one the
  // account has; the code drawn is raised for that address.
  lemma {:induction false} BeginEmailChangeIff(s: Store, u: Id, email: string, password: string, x: Draw)
    requires x.id !in s.changes && x.id !in s.targets
    ensures var (t, outcome) := Alone(s, ChangeA(u, email, password), x);
            if Live(s, u) && s.users[u].password == Bcrypt(password)
               && Address.Normalize(email) != "" && Address.Normalize(email) != s.users[u].email
            then
              && outcome == Finished(Done)
              && ChangeRaised(s, t, x.id, u, Address.Normalize(email), x.digits, x.now + CHANGE_TTL)
            else t == s && outcome.Finished? && outcome.answer.Refused?
  {
    var c := Next(s, ChangeA(u, email, password), x, 0);
    AloneNext(s, ChangeA(u, email, password), x);
    if c.Finished? {
      assert Alone(s, c, x) == (s, c);
    } else {
      Raising(s, u, Address.Normalize(email), x);
    }
  }

  lemma {:induction false} Raising(s: Store, u: Id, email: string, x: Draw)
    requires u in s.users && x.id !in s.changes && x.id !in s.targets
    ensures var hash := Codes.HashCode(Codes.EmailChange, s.users[u].uuid, x.digits);
            var raise := ReplaceChange(x.id, u, hash, x.now + CHANGE_TTL, email);
            var (t, outcome) := Alone(s, Ready(raise, Finished(Done)), x);
            outcome == Finished(Done) && ChangeRaised(s, t, x.id, u, email, x.digits, x.now + CHANGE_TTL)
  {
    var hash := Codes.HashCode(Codes.EmailChange, s.users[u].uuid, x.digits);
    AloneLast(s, ReplaceChange(x.id, u, hash, x.now + CHANGE_TTL, email), Done, x);
  }

  // ----------------------------------------------------- requests with a code

  // An account's open reset code is replaced by this one, and no other changes.
  ghost predicate ResetRaised(s: Store, t: Store, c: Id, u: Id, digits: string, expires: int) {
    && c in t.resets && u in s.users && t == s.(resets := t.resets)
    && t.resets[c] == Codes.Row(u, NIL, Codes.HashCode(Codes.Reset, s.users[u].uuid, digits), expires, 0, false)
    && forall k :: k != c ==>
         (k in t.resets <==> k in s.resets && (s.resets[k].user == u ==> s.resets[k].spent))
         && (k in t.resets ==> t.resets[k] == s.resets[k])
  }

  // Asking for a reset is answered alike for every address; a code is raised exactly
  // when it is some live account's.
  lemma {:induction false} BeginResetAnswers(s: Store, u: Id, email: string, x: Draw)
    requires OneAddress(s) && Addressed(s, u, email) && x.id !in s.resets
    ensures var (t, outcome) := Alone(s, ForgotA(email), x);
            outcome == Finished(Done) && ResetRaised(s, t, x.id, u, x.digits, x.now + RESET_TTL)
  {
    AloneNext(s, ForgotA(email), x);
    assert ByEmail(s, Address.Normalize(email)) == Some(u);
    RaisingReset(s, u, x);
  }

  lemma {:induction false} BeginResetUnknown(s: Store, email: string, x: Draw)
    requires forall u :: !Addressed(s, u, email)
    ensures Alone(s, ForgotA(email), x) == (s, Finished(Done))
  {
    AloneNext(s, ForgotA(email), x);
    FoundAddress(s, email);
  }

  lemma {:induction false} FoundAddress(s: Store, email: string)
    ensures var found := ByEmail(s, Address.Normalize(email)); found.Some? ==> Addressed(s, found.value, email)
  {
  }

  lemma {:induction false} RaisingReset(s: Store, u: Id, x: Draw)
    requires u in s.users && x.id !in s.resets
    ensures var raise := ReplaceReset(x.id, u, Codes.HashCode(Codes.Reset, s.users[u].uuid, x.digits),
                                      x.now + RESET_TTL);
            var (t, outcome) := Alone(s, Ready(raise, Finished(Done)), x);
            outcome == Finished(Done) && ResetRaised(s, t, x.id, u, x.digits, x.now + RESET_TTL)
  {
    var hash := Codes.HashCode(Codes.Reset, s.users[u].uuid, x.digits);
    AloneLast(s, ReplaceReset(x.id, u, hash, x.now + RESET_TTL), Done, x);
  }

  // With a reset code active for the account: the right digits and an allowed new
  // password set it, move the epoch and spend the code; wrong digits are counted.
  lemma {:induction false} ResetAnswers(
    s: Store, u: Id, c: Id, email: string, digits: string, password: string, confirm: string, x: Draw)
    requires Unique(s) && Addressed(s, u, email) && Current(s.resets, u, x.now, c)
    requires password == confirm && |password| >= MIN_PASSWORD
    ensures var (t, outcome) := Alone(s, ResetA(email, digits, password, confirm), x);
            var row, was := s.resets[c], s.users[u];
            if row.hash != Codes.HashCode(Codes.Reset, was.uuid, digits) then
              t == s.(resets := s.resets[c := OneGuess(row)]) && outcome == Stop(ErrInvalidResetCode)
            else if |password| > MAX_PASSWORD then t == s && outcome == Stop(ErrPasswordTooLong)
            else
              && t == s.(users := s.users[u := was.(password := Bcrypt(password), epoch := was.epoch + 1)],
                         resets := s.resets[c := row.(spent := true)])
              && outcome == Finished(Done)
  {
    var r := Read(u, s.users[u], 0);
    AloneNext(s, ResetA(email, digits, password, confirm), x);
    assert ByEmail(s, Address.Normalize(email)) == Some(u);
    Resetting(s, r, c, digits, password, x);
  }

  lemma {:induction false} Resetting(s: Store, r: Read, c: Id, digits: string, password: string, x: Draw)
    requires OneOpen(s.resets) && Current(s.resets, r.user, x.now, c)
    requires Live(s, r.user) && r.row == s.users[r.user]
    ensures var (t, outcome) := Alone(s, ResetB(r, digits, password), x);
            var row, was := s.resets[c], r.row;
            if row.hash != Codes.HashCode(Codes.Reset, was.uuid, digits) then
              t == s.(resets := s.resets[c := OneGuess(row)]) && outcome == Stop(ErrInvalidResetCode)
            else if |password| > MAX_PASSWORD then t == s && outcome == Stop(ErrPasswordTooLong)
            else
              && t == s.(users := s.users[r.user := was.(password := Bcrypt(password), epoch := was.epoch + 1)],
                         resets := s.resets[c := row.(spent := true)])
              && outcome == Finished(Done)
  {
    AloneNext(s, ResetB(r, digits, password), x);
    TheCode(s.resets, r.user, x.now, c);
    if s.resets[c].hash != Codes.HashCode(Codes.Reset, r.row.uuid, digits) {
      AloneLast(s, FailReset(c), Refused(ErrInvalidResetCode), x);
    } else if |password| <= MAX_PASSWORD {
      SettingPassword(s, r.user, c, password, x);
    }
  }

  lemma {:induction false} SettingPassword(s: Store, u: Id, c: Id, password: string, x: Draw)
    requires Live(s, u) && c in s.resets
    ensures var was, row := s.users[u], s.resets[c];
            Alone(s, Ready(ConsumeReset(c, u, Bcrypt(password), row.attempts), Finished(Done)), x)
            == (s.(users := s.users[u := was.(password := Bcrypt(password), epoch := was.epoch + 1)],
                   resets := s.resets[c := row.(spent := true)]), Finished(Done))
  {
    AloneLast(s, ConsumeReset(c, u, Bcrypt(password), s.resets[c].attempts), Done, x);
  }

  // Without a usable password, an account or an active code nothing changes.
  lemma {:induction false} ResetRefused(
    s: Store, email: string, digits: string, password: string, confirm: string, x: Draw)
    requires password != confirm || |password| < MIN_PASSWORD
        || forall u, c :: Addressed(s, u, email) ==> !Current(s.resets, u, x.now, c)
    ensures var (t, outcome) := Alone(s, ResetA(email, digits, password, confirm), x);
            t == s && outcome.Finished? && outcome.answer.Refused?
  {
    AloneNext(s, ResetA(email, digits, password, confirm), x);
    var found := ByEmail(s, Address.Normalize(email));
    if PasswordProblem(password, confirm).None? && found.Some? {
      var r := Read(found.value, s.users[found.value], 0);
      assert Addressed(s, found.value, email);
      FoundCode(s.resets, found.value, x.now);
      AloneNext(s, ResetB(r, digits, password), x);
    }
  }

  // With a change pending for the account: the right digits give it the new address
  // and spend the code, unless another live account has the address; wrong digits
  // are counted.
  lemma {:induction false} ConfirmAnswers(s: Store, u: Id, c: Id, digits: string, x: Draw)
    requires OneOpen(s.changes) && u in s.users && c in s.targets && Current(s.changes, u, x.now, c)
    ensures var (t, outcome) := Alone(s, ConfirmA(u, digits), x);
            var row := s.changes[c];
            if row.hash != Codes.HashCode(Codes.EmailChange, s.users[u].uuid, digits) then
              t == s.(changes := s.changes[c := OneGuess(row)]) && outcome == Stop(ErrInvalidEmailCode)
            else if s.users[u].live && TakenByOther(s, u, s.targets[c]) then t == s && outcome == Stop(ErrEmailTaken)
            else
              && t == s.(users := s.users[u := s.users[u].(email := s.targets[c])],
                         changes := s.changes[c := row.(spent := true)])
              && outcome == Finished(Done)
  {
    AloneNext(s, ConfirmA(u, digits), x);
    TheCode(s.changes, u, x.now, c);
    if s.changes[c].hash != Codes.HashCode(Codes.EmailChange, s.users[u].uuid, digits) {
      AloneLast(s, FailChange(c), Refused(ErrInvalidEmailCode), x);
    } else {
      Confirming(s, u, c, x);
    }
  }

  lemma {:induction false} Confirming(s: Store, u: Id, c: Id, x: Draw)
    requires u in s.users && c in s.targets && c in s.changes
    ensures Alone(s, Ready(ConsumeChange(c, u, s.targets[c], s.changes[c].attempts), Finished(Done)), x)
            == if s.users[u].live && TakenByOther(s, u, s.targets[c]) then (s, Stop(ErrEmailTaken))
               else (s.(users := s.users[u := s.users[u].(email := s.targets[c])],
                        changes := s.changes[c := s.changes[c].(spent := true)]), Finished(Done))
  {
    AloneLast(s, ConsumeChange(c, u, s.targets[c], s.changes[c].attempts), Done, x);
  }

  lemma {:induction false} ConfirmRefused(s: Store, u: Id, digits: string, x: Draw)
    requires forall c :: !Current(s.changes, u, x.now, c)
    ensures Alone(s, ConfirmA(u, digits), x) == (s, Stop(ErrInvalidEmailCode))
  {
    FoundCode(s.changes, u, x.now);
    AloneNext(s, ConfirmA(u, digits), x);
  }
}
