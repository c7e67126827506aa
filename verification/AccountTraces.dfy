/**
  What every committed change and every token of an installation goes back to: the
  request that asked, what was typed into it, and the rows that bore it out
  (internal/domain/user).
 */
module AccountTraces {
  import opened Accounts
  import AccountCodes
  import AccountSafety
  import Address
  import Codes

  // ------------------------------------------------------ the steps of a request

  // The i-th action lets request n, which stands at c, take its next step.
  ghost predicate Steps(actions: seq<Action>, i: nat, n: nat, c: Call)
    requires i < |actions|
  {
    var at := Run(actions[..i]);
    && actions[i].Step? && actions[i].n == n && actions[i].x.id !in at.ids
    && n in at.calls && at.calls[n] == c && !c.Finished?
  }

  // The b-th action begins request n.
  ghost predicate Begins(actions: seq<Action>, b: nat, n: nat, c: Call)
    requires b < |actions|
  {
    actions[b] == Begin(n, c) && Arrives(c) && n !in Run(actions[..b]).calls
  }

  // What the step makes of it.
  ghost function Then(s: Store, c: Call, x: Draw, seen: nat): Call {
    match c
    case Ready(tx, next) => if Apply(s, tx).1.None? then next else Stop(Apply(s, tx).1.value)
    case Granted(r, d, _) => Finished(SignedIn(r.user, d))
    case _ => Next(s, c, x, seen)
  }

  lemma {:induction false} CallFrom(w: World, a: Action, n: nat)
    requires n in Do(w, a).calls && (n in w.calls ==> w.calls[n] != Do(w, a).calls[n])
    ensures n !in w.calls ==> a == Begin(n, Do(w, a).calls[n]) && Arrives(Do(w, a).calls[n])
    ensures n in w.calls ==> a.Step? && a.n == n && a.x.id !in w.ids && !w.calls[n].Finished?
    ensures n in w.calls ==> Do(w, a).calls[n] == Then(w.store, w.calls[n], a.x, |w.log|)
  {
  }

  lemma {:induction false} InPrefix(actions: seq<Action>, m: nat, i: nat)
    requires i <= m <= |actions|
    ensures actions[..m][..i] == actions[..i] && (i < m ==> actions[..m][i] == actions[i])
  {
  }

  // ------------------------------------------------- what a request was begun with

  // The request c0 can have become c.
  predicate Carries(c0: Call, c: Call) {
    match c
    case SignInB(_, key) => c0.SignInA? && key == c0.key
    case SignInC(_, _, _) => c0.SignInA?
    case VerifyB(_, digits, key) => c0.VerifyA? && digits == c0.digits && key == c0.key
    case VerifyC(_, digits, _) => c0.VerifyA? && digits == c0.digits
    case VerifyD(_, _) => c0.VerifyA?
    case Granted(_, _, _) => c0.SignInA? || c0.VerifyA?
    case FactorB(u, enabled, key) => c0.FactorA? && u == c0.user && enabled == c0.enabled && key == c0.key
    case ResetB(_, digits, password) => c0.ResetA? && digits == c0.digits && password == c0.password
    case Ready(tx, next) => CarriesTx(c0, tx) && CarriesOn(tx, next) && Carries(c0, next)
    case Finished(_) => true
    case _ => c == c0
  }

  predicate CarriesTx(c0: Call, tx: Tx) {
    match tx
    case CreateDevice(_, _, _) => c0.SignInA?
    case ReplaceChallenge(_, _, _, _, _) => c0.SignInA?
    case FailChallenge(_) => c0.VerifyA?
    case ConsumeChallenge(_, _) => c0.VerifyA?
    case TrustDevice(_, u) => c0.FactorA? && u == c0.user && c0.enabled
    case SetTwoFactor(u, enabled) => c0.FactorA? && u == c0.user && enabled == c0.enabled
    case SetPassword(u, hash) => c0.PasswordA? && u == c0.user && hash == Bcrypt(c0.password)
    case ReplaceReset(_, _, _, _) => c0.ForgotA?
    case FailReset(_) => c0.ResetA?
    case ConsumeReset(_, _, hash, _) => c0.ResetA? && hash == Bcrypt(c0.password)
    case ReplaceChange(_, u, _, _, email) => c0.ChangeA? && u == c0.user && email == Address.Normalize(c0.email)
    case FailChange(_) => c0.ConfirmA?
    case ConsumeChange(_, u, _, _) => c0.ConfirmA? && u == c0.user
    case _ => false
  }

  // How a request goes on after a transaction.
  predicate CarriesOn(tx: Tx, next: Call) {
    match next
    case SignInC(r, d, _) => tx.CreateDevice? && tx.device == d && tx.user == r.user
    case VerifyD(_, d) => tx.ConsumeChallenge? && tx.device == d
    case Ready(tx', next') => tx.TrustDevice? && tx'.SetTwoFactor? && next' == Finished(Done)
    case Finished(_) => true
    case _ => false
  }

  lemma {:induction false} SignInCarries(c0: Call, s: Store, c: Call, x: Draw, seen: nat)
    requires Carries(c0, c) && (c.SignInA? || c.SignInB? || c.SignInC?)
    ensures Carries(c0, Next(s, c, x, seen))
  {
  }

  lemma {:induction false} VerifyCarries(c0: Call, s: Store, c: Call, x: Draw, seen: nat)
    requires Carries(c0, c) && (c.VerifyA? || c.VerifyB? || c.VerifyC? || c.VerifyD?)
    ensures Carries(c0, Next(s, c, x, seen))
  {
  }

  lemma {:induction false} FactorCarries(c0: Call, s: Store, c: Call, x: Draw, seen: nat)
    requires Carries(c0, c) && (c.FactorA? || c.FactorB?)
    ensures Carries(c0, Next(s, c, x, seen))
  {
    if c.FactorB? {
      var finish := Ready(SetTwoFactor(c.user, c.enabled), Finished(Done));
      assert Carries(c0, finish);
    }
  }

  lemma {:induction false} RestCarries(c0: Call, s: Store, c: Call, x: Draw, seen: nat)
    requires Carries(c0, c) && (c.PasswordA? || c.ResetA? || c.ResetB?)
    ensures Carries(c0, Next(s, c, x, seen))
  {
  }

  lemma {:induction false} ChangeCarries(c0: Call, s: Store, c: Call, x: Draw, seen: nat)
    requires Carries(c0, c) && (c.ChangeA? || c.ConfirmA? || c.ForgotA?)
    ensures Carries(c0, Next(s, c, x, seen))
  {
  }

  lemma {:induction false} ThenCarries(c0: Call, s: Store, c: Call, x: Draw, seen: nat)
    requires Carries(c0, c)
    ensures Carries(c0, Then(s, c, x, seen))
  {
    if c.SignInA? || c.SignInB? || c.SignInC? {
      SignInCarries(c0, s, c, x, seen);
    } else if c.VerifyA? || c.VerifyB? || c.VerifyC? || c.VerifyD? {
      VerifyCarries(c0, s, c, x, seen);
    } else if c.FactorA? || c.FactorB? {
      FactorCarries(c0, s, c, x, seen);
    } else if c.PasswordA? || c.ResetA? || c.ResetB? {
      RestCarries(c0, s, c, x, seen);
    } else if c.ChangeA? || c.ConfirmA? || c.ForgotA? {
      ChangeCarries(c0, s, c, x, seen);
    }
  }

  lemma {:induction false} Begun(actions: seq<Action>, n: nat) returns (b: nat, c0: Call)
    requires n in Run(actions).calls
    ensures b < |actions| && Begins(actions, b, n, c0)
  {
    var m := |actions| - 1;
    var before := Run(actions[..m]);
    if n in before.calls {
      b, c0 := Begun(actions[..m], n);
      InPrefix(actions, m, b);
    } else {
      CallFrom(before, actions[m], n);
      b, c0 := m, Run(actions).calls[n];
    }
  }

  lemma {:induction false} Carried(actions: seq<Action>, n: nat, b: nat, c0: Call)
    requires b < |actions| && Begins(actions, b, n, c0)
    ensures n in Run(actions).calls && Carries(c0, Run(actions).calls[n])
  {
    var m := |actions| - 1;
    var before := Run(actions[..m]);
    if b < m {
      InPrefix(actions, m, b);
      Carried(actions[..m], n, b, c0);
      CallsStay(before, actions[m], n);
      if before.calls[n] != Run(actions).calls[n] {
        CallFrom(before, actions[m], n);
        ThenCarries(c0, before.store, before.calls[n], actions[m].x, |before.log|);
      }
    } else {
      BeginsNow(before, n, c0);
    }
  }

  lemma {:induction false} CallsStay(w: World, a: Action, n: nat)
    requires n in w.calls
    ensures n in Do(w, a).calls
  {
  }

  lemma {:induction false} BeginsNow(w: World, n: nat, c0: Call)
    requires n !in w.calls && Arrives(c0)
    ensures n in Do(w, Begin(n, c0)).calls && Do(w, Begin(n, c0)).calls[n] == c0
  {
  }

  // ------------------------------------------------------- the read that opens it

  predicate Refusal(c: Call) { c.Finished? && c.answer.Refused? }

  predicate Knows(s: Store, u: Id, password: string) { Live(s, u) && s.users[u].password == Bcrypt(password) }

  // The row read is the live account's of this address.
  predicate ReadsRow(s: Store, r: Option<Read>, email: string, seen: nat) {
    && r.Some? && r.value.seen == seen && Live(s, r.value.user) && r.value.row == s.users[r.value.user]
    && r.value.row.email == Address.Normalize(email)
  }

  // What must hold of the store at a request's first read, unless it is refused
  // there; r is the row it takes along.
  predicate Opens(s: Store, c0: Call, r: Option<Read>, seen: nat) {
    match c0
    case SignInA(email, password, _) =>
      ReadsRow(s, r, email, seen) && !r.value.row.suspended && r.value.row.password == Bcrypt(password)
    case VerifyA(email, _, key) => ReadsRow(s, r, email, seen) && !r.value.row.suspended && key.Some?
    case ResetA(email, _, password, confirm) =>
      ReadsRow(s, r, email, seen) && password == confirm && MIN_PASSWORD <= |password|
    case FactorA(u, password, _, _) => Knows(s, u, password)
    case PasswordA(u, current, password, confirm) =>
      Knows(s, u, current) && password == confirm && MIN_PASSWORD <= |password| <= MAX_PASSWORD
    case ChangeA(u, email, password) => Knows(s, u, password) && Address.Normalize(email) !in {"", s.users[u].email}
    case _ => true
  }

  lemma {:induction false} FirstOpens(s: Store, c0: Call, x: Draw, seen: nat)
    requires Arrives(c0) && !Refusal(Next(s, c0, x, seen))
    ensures Opens(s, c0, AccountSafety.Held(Next(s, c0, x, seen)), seen)
  {
  }

  // Only a first read takes a row along.
  lemma {:induction false} HeldStays(s: Store, c: Call, x: Draw, seen: nat)
    requires !Arrives(c)
    ensures AccountSafety.Held(Then(s, c, x, seen)) in {None, AccountSafety.Held(c)}
  {
    if c.FactorB? { AccountSafety.NothingHeld(s, c, x, seen); }
  }

  // A request that has gone on unrefused was opened by its first read.
  lemma {:induction false} Opened(actions: seq<Action>, n: nat, b: nat, c0: Call) returns (i: nat, r: Option<Read>)
    requires b < |actions| && Begins(actions, b, n, c0) && n in Run(actions).calls
    requires Run(actions).calls[n] != c0 && !Refusal(Run(actions).calls[n])
    ensures b < i < |actions| && Steps(actions, i, n, c0)
    ensures Opens(Run(actions[..i]).store, c0, r, |Run(actions[..i]).log|)
    ensures AccountSafety.Held(Run(actions).calls[n]) in {None, r}
  {
    var m := |actions| - 1;
    var before := Run(actions[..m]);
    if b == m { BeginsNow(before, n, c0); }
    InPrefix(actions, m, b);
    Carried(actions[..m], n, b, c0);
    if before.calls[n] == c0 {
      ActionOpens(before, actions[m], n);
      i, r := m, AccountSafety.Held(Run(actions).calls[n]);
    } else {
      ActionHolds(before, actions[m], n);
      i, r := Opened(actions[..m], n, b, c0);
      InPrefix(actions, m, i);
    }
  }

  lemma {:induction false} ActionOpens(w: World, a: Action, n: nat)
    requires n in w.calls && n in Do(w, a).calls && Arrives(w.calls[n])
    requires Do(w, a).calls[n] != w.calls[n] && !Refusal(Do(w, a).calls[n])
    ensures a.Step? && a.n == n && a.x.id !in w.ids
    ensures Opens(w.store, w.calls[n], AccountSafety.Held(Do(w, a).calls[n]), |w.log|)
  {
    CallFrom(w, a, n);
    FirstOpens(w.store, w.calls[n], a.x, |w.log|);
  }

  lemma {:induction false} ActionHolds(w: World, a: Action, n: nat)
    requires n in w.calls && n in Do(w, a).calls && !Arrives(w.calls[n]) && !Refusal(Do(w, a).calls[n])
    ensures !Refusal(w.calls[n])
    ensures AccountSafety.Held(Do(w, a).calls[n]) in {None, AccountSafety.Held(w.calls[n])}
  {
    if w.calls[n] != Do(w, a).calls[n] {
      CallFrom(w, a, n);
      HeldStays(w.store, w.calls[n], a.x, |w.log|);
    }
  }

  // ------------------------------------------------------ the step that led here

  lemma {:induction false} LastStep(actions: seq<Action>, n: nat) returns (i: nat, c: Call)
    requires n in Run(actions).calls && !Arrives(Run(actions).calls[n])
    ensures i < |actions| && Steps(actions, i, n, c)
    ensures Then(Run(actions[..i]).store, c, actions[i].x, |Run(actions[..i]).log|) == Run(actions).calls[n]
  {
    var m := |actions| - 1;
    var before := Run(actions[..m]);
    if n in before.calls && before.calls[n] == Run(actions).calls[n] {
      i, c := LastStep(actions[..m], n);
      InPrefix(actions, m, i);
    } else {
      CallFrom(before, actions[m], n);
      i, c := m, before.calls[n];
    }
  }

  // The same for request n as it stands before the k-th action.
  lemma {:induction false} StepTo(actions: seq<Action>, k: nat, n: nat, d: Call)
    returns (i: nat, c: Call, b: nat, c0: Call)
    requires k < |actions| && Steps(actions, k, n, d) && !Arrives(d)
    ensures b < k && Begins(actions, b, n, c0) && Carries(c0, d)
    ensures b < i < k && Steps(actions, i, n, c) && Carries(c0, c)
    ensures Then(Run(actions[..i]).store, c, actions[i].x, |Run(actions[..i]).log|) == d
  {
    var upTo := actions[..k];
    b, c0 := Begun(upTo, n);
    InPrefix(actions, k, b);
    Carried(upTo, n, b, c0);
    i, c := LastStep(upTo, n);
    InPrefix(actions, k, i);
    if b < i {
      InPrefix(actions, i, b);
      Carried(actions[..i], n, b, c0);
    } else {
      NotYet(actions, i, b, n);
    }
  }

  lemma {:induction false} NotYet(actions: seq<Action>, i: nat, b: nat, n: nat)
    requires i <= b <= |actions| && n in Run(actions[..i]).calls
    ensures n in Run(actions[..b]).calls
  {
    if i < b {
      NotYet(actions, i, b - 1, n);
      InPrefix(actions, b, b - 1);
      CallsStay(Run(actions[..b - 1]), actions[b - 1], n);
    }
  }

  // A logged token was signed, and a logged transaction of a request committed, by
  // some request's step.
  lemma {:induction false} Logged(actions: seq<Action>, e: Event) returns (k: nat, n: nat, c: Call)
    requires e in Run(actions).log && (e.Issued? || (e.Committed? && !IsElsewhere(e.tx)))
    ensures k < |actions| && Steps(actions, k, n, c)
    ensures e.Issued? ==> c == Granted(e.r, e.device, e.dev) && e.at == actions[k].x.now
    ensures e.Committed? ==> c.Ready? && c.tx == e.tx && Apply(Run(actions[..k]).store, e.tx).1.None?
  {
    var m := |actions| - 1;
    var before := Run(actions[..m]);
    if e in before.log {
      k, n, c := Logged(actions[..m], e);
      InPrefix(actions, m, k);
    } else {
      LoggedNow(before, actions[m], e);
      k, n := m, actions[m].n;
      c := before.calls[n];
    }
  }

  lemma {:induction false} LoggedNow(w: World, a: Action, e: Event)
    requires e in Do(w, a).log && e !in w.log && (e.Issued? || (e.Committed? && !IsElsewhere(e.tx)))
    ensures a.Step? && a.n in w.calls && a.x.id !in w.ids && !w.calls[a.n].Finished?
    ensures e.Issued? ==> w.calls[a.n] == Granted(e.r, e.device, e.dev) && e.at == a.x.now
    ensures e.Committed? ==> w.calls[a.n].Ready? && w.calls[a.n].tx == e.tx && Apply(w.store, e.tx).1.None?
  {
  }

  // ------------------------------------------------------------------- passwords

  // The request a token goes back to: its first read found the account live and not
  // suspended, at the address typed, and that row is the one behind the token. A
  // sign-in had typed that row's password; there is no third way to a token.
  lemma {:induction false} TokenIsEarned(actions: seq<Action>, e: Event)
    returns (b: nat, i: nat, k: nat, n: nat, c0: Call)
    requires e in Run(actions).log && e.Issued?
    ensures b < i < k < |actions| && Begins(actions, b, n, c0) && Steps(actions, i, n, c0)
    ensures Steps(actions, k, n, Granted(e.r, e.device, e.dev)) && e.at == actions[k].x.now
    ensures c0.SignInA? || c0.VerifyA?
    ensures var s := Run(actions[..i]).store;
            && e.r.seen == |Run(actions[..i]).log| && Live(s, e.r.user) && e.r.row == s.users[e.r.user]
            && !e.r.row.suspended && e.r.row.email == Address.Normalize(c0.email)
            && (c0.SignInA? ==> e.r.row.password == Bcrypt(c0.password))
  {
    var c: Call;
    k, n, c := Logged(actions, e);
    var r: Option<Read>;
    b, c0, i, r := OpenedBefore(actions, k, n, c);
  }

  // Any request that has gone on was opened by its first read.
  lemma {:induction false} OpenedBefore(actions: seq<Action>, k: nat, n: nat, c: Call)
    returns (b: nat, c0: Call, i: nat, r: Option<Read>)
    requires k < |actions| && Steps(actions, k, n, c) && !Arrives(c)
    ensures b < i < k && Begins(actions, b, n, c0) && Carries(c0, c) && Steps(actions, i, n, c0)
    ensures Opens(Run(actions[..i]).store, c0, r, |Run(actions[..i]).log|)
    ensures AccountSafety.Held(c) in {None, r}
  {
    var upTo := actions[..k];
    b, c0 := Begun(upTo, n);
    InPrefix(actions, k, b);
    Carried(upTo, n, b, c0);
    i, r := Opened(upTo, n, b, c0);
    InPrefix(actions, k, i);
  }

  // What must have been typed for a change that asks for the password.
  predicate TypedFor(s: Store, c0: Call, tx: Tx) {
    match tx
    case SetPassword(u, hash) =>
      && c0.PasswordA? && c0.user == u && Knows(s, u, c0.current) && hash == Bcrypt(c0.password)
      && c0.password == c0.confirm && MIN_PASSWORD <= |c0.password| <= MAX_PASSWORD
    case TrustDevice(_, u) => c0.FactorA? && c0.user == u && c0.enabled && Knows(s, u, c0.password)
    case SetTwoFactor(u, enabled) => c0.FactorA? && c0.user == u && c0.enabled == enabled && Knows(s, u, c0.password)
    case ReplaceChange(_, u, _, _, email) =>
      && c0.ChangeA? && c0.user == u && Knows(s, u, c0.password) && email == Address.Normalize(c0.email)
      && email !in {"", s.users[u].email}
    case _ => true
  }

  // Every password, second-factor setting, trusted device and pending change of
  // address that a request commits was asked for by somebody who had typed the
  // account's password, as it stood when the request read it.
  lemma {:induction false} ChangeIsEarned(actions: seq<Action>, k: nat, n: nat, tx: Tx, next: Call)
    returns (b: nat, i: nat, c0: Call)
    requires k < |actions| && Steps(actions, k, n, Ready(tx, next))
    ensures b < i < k && Begins(actions, b, n, c0) && Steps(actions, i, n, c0)
    ensures TypedFor(Run(actions[..i]).store, c0, tx)
  {
    var r: Option<Read>;
    b, c0, i, r := OpenedBefore(actions, k, n, Ready(tx, next));
  }

  // And wherever the log says that a password was checked, it was.
  lemma {:induction false} CheckedIsKnown(actions: seq<Action>, u: Id) returns (i: nat, n: nat, c: Call)
    requires Checked(u) in Run(actions).log
    ensures i < |actions| && Steps(actions, i, n, c)
    ensures (c.FactorA? || c.ChangeA?) && c.user == u && Knows(Run(actions[..i]).store, u, c.password)
  {
    var m := |actions| - 1;
    var before := Run(actions[..m]);
    if Checked(u) in before.log {
      i, n, c := CheckedIsKnown(actions[..m], u);
      InPrefix(actions, m, i);
    } else {
      CheckedNow(before, actions[m], u);
      i, n := m, actions[m].n;
      c := before.calls[n];
    }
  }

  lemma {:induction false} CheckedNow(w: World, a: Action, u: Id)
    requires Checked(u) in Do(w, a).log && Checked(u) !in w.log
    ensures a.Step? && a.n in w.calls && a.x.id !in w.ids
    ensures var c := w.calls[a.n]; (c.FactorA? || c.ChangeA?) && c.user == u && Knows(w.store, u, c.password)
  {
    assert a.Step? && a.n in w.calls && a.x.id !in w.ids && !w.calls[a.n].Ready? && !w.calls[a.n].Granted?;
    CheckedBy(w.store, w.calls[a.n], a.x, |w.log|);
  }

  lemma {:induction false} CheckedBy(s: Store, c: Call, x: Draw, seen: nat)
    requires !c.Ready? && ChecksPassword(Next(s, c, x, seen))
    ensures (c.FactorA? || c.ChangeA?) && c.user == Checks(Next(s, c, x, seen)) && Knows(s, c.user, c.password)
  {
  }

  // ----------------------------------------------------------------------- codes

  // The account's code, unspent and unexpired.
  predicate Current(t: Codes.Table, u: Id, now: int, code: Id) {
    code in t && t[code].user == u && !t[code].spent && now < t[code].expires
  }

  // What is typed matches the account's current code, and for a sign-in its device.
  ghost predicate Matches(s: Store, c: Call, now: int, p: Codes.Purpose, code: Id) {
    match c
    case VerifyC(r, digits, d) =>
      && p == Codes.TwoFactor && Current(s.challenges, r.user, now, code) && s.challenges[code].device == d
      && s.challenges[code].hash == Codes.HashCode(Codes.TwoFactor, r.row.uuid, digits)
    case ResetB(r, digits, _) =>
      && p == Codes.Reset && Current(s.resets, r.user, now, code)
      && s.resets[code].hash == Codes.HashCode(Codes.Reset, r.row.uuid, digits)
    case ConfirmA(u, digits) =>
      && p == Codes.EmailChange && Current(s.changes, u, now, code) && u in s.users && code in s.targets
      && s.changes[code].hash == Codes.HashCode(Codes.EmailChange, s.users[u].uuid, digits)
    case _ => false
  }

  // What redeeming it writes, and how the request goes on.
  ghost predicate Redeems(s: Store, c: Call, tx: Tx, next: Call) {
    match tx
    case ConsumeChallenge(_, d) => c.VerifyC? && d == c.d && next == VerifyD(c.r, d)
    case ConsumeReset(_, u, hash, _) =>
      c.ResetB? && u == c.r.user && hash == Bcrypt(c.password) && next == Finished(Done)
    case ConsumeChange(code, u, email, _) =>
      c.ConfirmA? && u == c.user && code in s.targets && email == s.targets[code] && next == Finished(Done)
    case _ => false
  }

  lemma {:induction false} SpendsMatching(s: Store, c0: Call, c: Call, x: Draw, seen: nat, p: Codes.Purpose, code: Id)
    requires Carries(c0, c) && !c.Finished? && Then(s, c, x, seen).Ready?
    requires AccountCodes.Spends(Then(s, c, x, seen).tx, p) == Some(code)
    ensures Matches(s, c, x.now, p, code) && Redeems(s, c, Then(s, c, x, seen).tx, Then(s, c, x, seen).next)
  {
  }

  // The logged transaction that raised a code with this row.
  predicate RaisedBy(e: Event, p: Codes.Purpose, code: Id, row: Codes.Row) {
    && e.Committed?
    && match p
       case TwoFactor => e.tx == ReplaceChallenge(code, row.user, row.device, row.hash, row.expires)
       case Reset => e.tx == ReplaceReset(code, row.user, row.hash, row.expires)
       case EmailChange =>
         e.tx.ReplaceChange? && e.tx == ReplaceChange(code, row.user, row.hash, row.expires, e.tx.email)
  }

  ghost predicate AllRaised(w: World, p: Codes.Purpose) {
    forall code :: code in AccountCodes.TableOf(w.store, p) ==>
        exists e :: e in w.log && RaisedBy(e, p, code, AccountCodes.TableOf(w.store, p)[code])
  }

  // What never changes about a code's row.
  predicate SameCode(a: Codes.Row, b: Codes.Row) {
    a.user == b.user && a.device == b.device && a.hash == b.hash && a.expires == b.expires
  }

  lemma {:induction false} CodeFrom(s: Store, tx: Tx, p: Codes.Purpose, code: Id)
    requires Apply(s, tx).1.None? && code in AccountCodes.TableOf(Apply(s, tx).0, p)
    ensures var row := AccountCodes.TableOf(Apply(s, tx).0, p)[code];
            || RaisedBy(Committed(tx, BumpOf(s, tx)), p, code, row)
            || (code in AccountCodes.TableOf(s, p) && SameCode(AccountCodes.TableOf(s, p)[code], row))
  {
  }

  lemma {:induction false} CommitStaysRaised(w: World, tx: Tx, p: Codes.Purpose)
    requires AllRaised(w, p)
    ensures AllRaised(Commit(w, tx), p)
  {
    var w' := Commit(w, tx);
    if Apply(w.store, tx).1.None? {
      var e := Committed(tx, BumpOf(w.store, tx));
      assert e in w'.log;
      forall code | code in AccountCodes.TableOf(w'.store, p)
        ensures exists e :: e in w'.log && RaisedBy(e, p, code, AccountCodes.TableOf(w'.store, p)[code])
      {
        CodeFrom(w.store, tx, p, code);
        if code in AccountCodes.TableOf(w.store, p) && !RaisedBy(e, p, code, AccountCodes.TableOf(w'.store, p)[code]) {
          var was :| was in w.log && RaisedBy(was, p, code, AccountCodes.TableOf(w.store, p)[code]);
          assert was in w'.log;
        }
      }
    }
  }

  lemma {:induction false} ActionStaysRaised(w: World, a: Action, p: Codes.Purpose)
    requires AllRaised(w, p)
    ensures AllRaised(Do(w, a), p)
  {
    var tx := if a.Elsewhere? then Some(a.tx)
              else if a.Step? && a.n in w.calls && w.calls[a.n].Ready? then Some(w.calls[a.n].tx) else None;
    if tx.Some? { CommitStaysRaised(w, tx.value, p); }
    assert forall e :: e in w.log ==> e in Do(w, a).log;
  }

  lemma {:induction false} RunStaysRaised(actions: seq<Action>, p: Codes.Purpose)
    ensures AllRaised(Run(actions), p)
  {
    if actions != [] {
      RunStaysRaised(actions[..|actions| - 1], p);
      ActionStaysRaised(Run(actions[..|actions| - 1]), actions[|actions| - 1], p);
    }
  }

  // The h-th action drew these digits for this code: at sign-in and for a change of
  // address on behalf of a request that had shown the account's password, for a reset
  // because its address was given.
  ghost predicate Drew(actions: seq<Action>, h: nat, p: Codes.Purpose, code: Id, row: Codes.Row, digits: string)
    requires h < |actions|
  {
    && actions[h].Step? && actions[h].x.id == code && actions[h].x.digits == digits
    && match p
       case TwoFactor => row.expires == actions[h].x.now + CODE_TTL && DrewChallenge(actions, h, row, digits)
       case Reset => row.expires == actions[h].x.now + RESET_TTL && DrewReset(actions, h, row, digits)
       case EmailChange => row.expires == actions[h].x.now + CHANGE_TTL && DrewChange(actions, h, row, digits)
  }

  ghost predicate DrewChallenge(actions: seq<Action>, h: nat, row: Codes.Row, digits: string)
    requires h < |actions|
  {
    exists m: nat, r: Read, dev: Device ::
      && Steps(actions, h, m, SignInC(r, row.device, dev)) && r.user == row.user && r.row.twoFactor
      && !dev.trusted && !dev.revoked && row.hash == Codes.HashCode(Codes.TwoFactor, r.row.uuid, digits)
      && ByPassword(actions, h, m, r)
  }

  // Request m is a sign-in that had typed the password of the row r it read.
  ghost predicate ByPassword(actions: seq<Action>, h: nat, m: nat, r: Read)
    requires h < |actions|
  {
    exists i: nat, c0: Call ::
      && i < h && Steps(actions, i, m, c0) && c0.SignInA?
      && Opens(Run(actions[..i]).store, c0, Some(r), |Run(actions[..i]).log|)
  }

  ghost predicate DrewChange(actions: seq<Action>, h: nat, row: Codes.Row, digits: string)
    requires h < |actions|
  {
    exists m: nat, email: string, password: string ::
      && Steps(actions, h, m, ChangeA(row.user, email, password))
      && Knows(Run(actions[..h]).store, row.user, password)
      && row.hash == Codes.HashCode(Codes.EmailChange, Run(actions[..h]).store.users[row.user].uuid, digits)
  }

  ghost predicate DrewReset(actions: seq<Action>, h: nat, row: Codes.Row, digits: string)
    requires h < |actions|
  {
    exists m: nat, email: string ::
      && Steps(actions, h, m, ForgotA(email)) && Live(Run(actions[..h]).store, row.user)
      && Run(actions[..h]).store.users[row.user].email == Address.Normalize(email)
      && row.hash == Codes.HashCode(Codes.Reset, Run(actions[..h]).store.users[row.user].uuid, digits)
  }

  lemma {:induction false} RaisesByDrawing(s: Store, c0: Call, c: Call, x: Draw, seen: nat, tx: Tx)
    requires Carries(c0, c) && !c.Finished? && Then(s, c, x, seen).Ready? && Then(s, c, x, seen).tx == tx
    ensures tx.ReplaceChallenge? ==>
              && c.SignInC? && tx.user == c.r.user && tx.device == c.d && c.r.row.twoFactor
              && !IsTrusted(c.dev) && !c.dev.revoked && x.id == tx.code && tx.expires == x.now + CODE_TTL
              && tx.secret == Codes.HashCode(Codes.TwoFactor, c.r.row.uuid, x.digits)
    ensures tx.ReplaceChange? ==>
              && c.ChangeA? && tx.user == c.user && Knows(s, c.user, c.password)
              && x.id == tx.code && tx.expires == x.now + CHANGE_TTL
              && tx.secret == Codes.HashCode(Codes.EmailChange, s.users[c.user].uuid, x.digits)
    ensures tx.ReplaceReset? ==>
              && c.ForgotA? && Live(s, tx.user) && s.users[tx.user].email == Address.Normalize(c.email)
              && x.id == tx.code && tx.expires == x.now + RESET_TTL
              && tx.secret == Codes.HashCode(Codes.Reset, s.users[tx.user].uuid, x.digits)
  {
  }

  // Every code in the store was drawn so.
  lemma {:induction false} CodeIsDrawn(actions: seq<Action>, p: Codes.Purpose, code: Id) returns (h: nat)
    requires code in AccountCodes.TableOf(Run(actions).store, p)
    ensures h < |actions| && actions[h].Step?
    ensures Drew(actions, h, p, code, AccountCodes.TableOf(Run(actions).store, p)[code], actions[h].x.digits)
  {
    RunStaysRaised(actions, p);
    var row := AccountCodes.TableOf(Run(actions).store, p)[code];
    var e :| e in Run(actions).log && RaisedBy(e, p, code, row);
    var k, m, ready := Logged(actions, e);
    h := RaisedByDrawing(actions, k, m, ready, p, code, row);
  }

  lemma {:induction false} RaisedByDrawing(
    actions: seq<Action>, k: nat, m: nat, ready: Call, p: Codes.Purpose, code: Id, row: Codes.Row) returns (h: nat)
    requires k < |actions| && Steps(actions, k, m, ready) && ready.Ready?
    requires RaisedBy(Committed(ready.tx, None), p, code, row)
    ensures h < |actions| && actions[h].Step? && Drew(actions, h, p, code, row, actions[h].x.digits)
  {
    var c, b, c0;
    h, c, b, c0 := StepTo(actions, k, m, ready);
    RaisesByDrawing(Run(actions[..h]).store, c0, c, actions[h].x, |Run(actions[..h]).log|, ready.tx);
    if p == Codes.TwoFactor {
      var b', c0', i, r := OpenedBefore(actions, h, m, c);
      assert ByPassword(actions, h, m, c.r);
    }
  }

  // The digits a request typed.
  function Typed(c0: Call): string
    requires c0.VerifyA? || c0.ResetA? || c0.ConfirmA?
  {
    if c0.VerifyA? then c0.digits else if c0.ResetA? then c0.digits else c0.digits
  }

  // The code stands, before the j-th action, for these digits: they were drawn for it.
  ghost predicate StandsFor(actions: seq<Action>, j: nat, p: Codes.Purpose, code: Id, digits: string)
    requires j <= |actions|
  {
    var w := Run(actions[..j]);
    && code in AccountCodes.TableOf(w.store, p)
    && exists h: nat :: h < j && Drew(actions, h, p, code, AccountCodes.TableOf(w.store, p)[code], digits)
  }

  // A code is redeemed only by a request that compared it while it was active, for
  // its account and, at sign-in, its device, having typed exactly the digits drawn
  // for it.
  lemma {:induction false} RedeemedByItsDigits(
    actions: seq<Action>, k: nat, n: nat, tx: Tx, next: Call, p: Codes.Purpose, code: Id)
    returns (b: nat, c0: Call, j: nat, c: Call)
    requires k < |actions| && Steps(actions, k, n, Ready(tx, next)) && AccountCodes.Spends(tx, p) == Some(code)
    ensures b < j < k && Begins(actions, b, n, c0) && Steps(actions, j, n, c)
    ensures if p == Codes.TwoFactor then c0.VerifyA? else if p == Codes.Reset then c0.ResetA? else c0.ConfirmA?
    ensures Compares(c0, c) && Matches(Run(actions[..j]).store, c, actions[j].x.now, p, code)
    ensures Redeems(Run(actions[..j]).store, c, tx, next)
    ensures StandsFor(actions, j, p, code, Typed(c0))
  {
    j, c, b, c0 := StepTo(actions, k, n, Ready(tx, next));
    SpendsMatching(Run(actions[..j]).store, c0, c, actions[j].x, |Run(actions[..j]).log|, p, code);
    MatchedStandsFor(actions, j, c, p, code, Typed(c0));
  }

  // The digits begun with are the digits compared.
  predicate Compares(c0: Call, c: Call) {
    match c0
    case VerifyA(_, digits, _) => c.VerifyC? && c.digits == digits
    case ResetA(_, digits, _, _) => c.ResetB? && c.digits == digits
    case _ => c == c0
  }

  lemma {:induction false} MatchedStandsFor(
    actions: seq<Action>, j: nat, c: Call, p: Codes.Purpose, code: Id, typed: string)
    requires j < |actions| && actions[j].Step? && Matches(Run(actions[..j]).store, c, actions[j].x.now, p, code)
    requires (c.VerifyC? || c.ResetB? || c.ConfirmA?) && c.digits == typed
    ensures StandsFor(actions, j, p, code, typed)
  {
    var row := AccountCodes.TableOf(Run(actions[..j]).store, p)[code];
    var h := CodeIsDrawn(actions[..j], p, code);
    InPrefix(actions, j, h);
    DrewInPrefix(actions, j, h, p, code, row, actions[h].x.digits);
    SameDigits(actions, j, h, p, code, row, c, actions[h].x.digits, typed);
  }

  lemma {:induction false} DrewInPrefix(
    actions: seq<Action>, j: nat, h: nat, p: Codes.Purpose, code: Id, row: Codes.Row, digits: string)
    requires h < j <= |actions| && Drew(actions[..j], h, p, code, row, digits)
    ensures Drew(actions, h, p, code, row, digits)
  {
    InPrefix(actions, j, h);
    if p == Codes.TwoFactor {
      var m: nat, r: Read, dev: Device :| Steps(actions[..j], h, m, SignInC(r, row.device, dev)) && r.user == row.user
        && r.row.twoFactor && !dev.trusted && !dev.revoked
        && row.hash == Codes.HashCode(Codes.TwoFactor, r.row.uuid, digits) && ByPassword(actions[..j], h, m, r);
      var i: nat, c0: Call :| i < h && Steps(actions[..j], i, m, c0) && c0.SignInA?
        && Opens(Run(actions[..j][..i]).store, c0, Some(r), |Run(actions[..j][..i]).log|);
      InPrefix(actions, j, i);
      assert Steps(actions, i, m, c0);
      assert ByPassword(actions, h, m, r);
      assert Steps(actions, h, m, SignInC(r, row.device, dev));
    } else if p == Codes.Reset {
      var m: nat, email: string :| Steps(actions[..j], h, m, ForgotA(email))
        && Live(Run(actions[..j][..h]).store, row.user)
        && Run(actions[..j][..h]).store.users[row.user].email == Address.Normalize(email)
        && row.hash == Codes.HashCode(Codes.Reset, Run(actions[..j][..h]).store.users[row.user].uuid, digits);
      assert Steps(actions, h, m, ForgotA(email));
    } else {
      var m: nat, email: string, password: string :| Steps(actions[..j], h, m, ChangeA(row.user, email, password))
        && Knows(Run(actions[..j][..h]).store, row.user, password)
        && row.hash == Codes.HashCode(Codes.EmailChange, Run(actions[..j][..h]).store.users[row.user].uuid, digits);
      assert Steps(actions, h, m, ChangeA(row.user, email, password));
    }
  }

  // Two hashes of one code: the same digits.
  lemma {:induction false} SameDigits(
    actions: seq<Action>, j: nat, h: nat, p: Codes.Purpose, code: Id, row: Codes.Row, c: Call,
    drawn: string, typed: string)
    requires h < j < |actions| && Drew(actions, h, p, code, row, drawn)
    requires actions[j].Step? && Matches(Run(actions[..j]).store, c, actions[j].x.now, p, code)
    requires row == AccountCodes.TableOf(Run(actions[..j]).store, p)[code]
    requires c.digits == typed
    ensures drawn == typed
  {
    if p == Codes.TwoFactor {
      var m: nat, r: Read, dev: Device :| Steps(actions, h, m, SignInC(r, row.device, dev)) && r.user == row.user
        && r.row.twoFactor && !dev.trusted && !dev.revoked
        && row.hash == Codes.HashCode(Codes.TwoFactor, r.row.uuid, drawn) && ByPassword(actions, h, m, r);
      Codes.HashesSeparate(Codes.TwoFactor, r.row.uuid, drawn, Codes.TwoFactor, c.r.row.uuid, typed);
    } else if p == Codes.Reset {
      var s := Run(actions[..h]).store;
      var m: nat, email: string :| Steps(actions, h, m, ForgotA(email)) && Live(s, row.user)
        && s.users[row.user].email == Address.Normalize(email)
        && row.hash == Codes.HashCode(Codes.Reset, s.users[row.user].uuid, drawn);
      Codes.HashesSeparate(Codes.Reset, s.users[row.user].uuid, drawn, Codes.Reset, c.r.row.uuid, typed);
    } else {
      var s := Run(actions[..h]).store;
      var m: nat, email: string, password: string :| Steps(actions, h, m, ChangeA(row.user, email, password))
        && Knows(s, row.user, password)
        && row.hash == Codes.HashCode(Codes.EmailChange, s.users[row.user].uuid, drawn);
      Codes.HashesSeparate(Codes.EmailChange, s.users[row.user].uuid, drawn,
                           Codes.EmailChange, Run(actions[..j]).store.users[c.user].uuid, typed);
    }
  }

  // A token of a verification follows the redemption, by that same request, of a
  // code standing for the digits it typed, which trusted the device of the token.
  lemma {:induction false} SecondFactorIsTyped(
    actions: seq<Action>, k: nat, n: nat, r: Read, d: Id, dev: Device, b: nat, c0: Call)
    returns (j: nat, i: nat, code: Id)
    requires k < |actions| && Steps(actions, k, n, Granted(r, d, dev))
    requires b < k && Begins(actions, b, n, c0) && c0.VerifyA?
    ensures b < j < k && Steps(actions, j, n, VerifyC(r, c0.digits, d))
    ensures Matches(Run(actions[..j]).store, VerifyC(r, c0.digits, d), actions[j].x.now, Codes.TwoFactor, code)
    ensures StandsFor(actions, j, Codes.TwoFactor, code, c0.digits)
    ensures j < i < k && Steps(actions, i, n, Ready(ConsumeChallenge(code, d), VerifyD(r, d)))
    ensures Apply(Run(actions[..i]).store, ConsumeChallenge(code, d)).1.None?
  {
    var i1, c1, b1, e1 := StepTo(actions, k, n, Granted(r, d, dev));
    BegunOnce(actions, b, b1, n);
    GrantedFrom(c0, Run(actions[..i1]).store, c1, actions[i1].x, |Run(actions[..i1]).log|);
    var c2, b2, e2;
    i, c2, b2, e2 := StepTo(actions, i1, n, c1);
    RedeemedFrom(e2, Run(actions[..i]).store, c2, actions[i].x, |Run(actions[..i]).log|);
    code := c2.tx.code;
    var b3, e3, c3;
    b3, e3, j, c3 := RedeemedByItsDigits(actions, i, n, c2.tx, c2.next, Codes.TwoFactor, code);
    BegunOnce(actions, b, b3, n);
  }

  lemma {:induction false} GrantedFrom(c0: Call, s: Store, c: Call, x: Draw, seen: nat)
    requires c0.VerifyA? && Carries(c0, c) && !c.Finished? && Then(s, c, x, seen).Granted?
    ensures c == VerifyD(Then(s, c, x, seen).r, Then(s, c, x, seen).d)
  {
  }

  lemma {:induction false} RedeemedFrom(c0: Call, s: Store, c: Call, x: Draw, seen: nat)
    requires Carries(c0, c) && !c.Finished? && Then(s, c, x, seen).VerifyD?
    ensures c.Ready? && c.next == Then(s, c, x, seen) && c.tx.ConsumeChallenge? && c.tx.device == c.next.d
    ensures Apply(s, c.tx).1.None?
  {
  }

  lemma {:induction false} BegunOnce(actions: seq<Action>, a: nat, b: nat, n: nat)
    requires a < |actions| && b < |actions|
    requires exists c, d :: Begins(actions, a, n, c) && Begins(actions, b, n, d)
    ensures a == b
  {
    var c, d :| Begins(actions, a, n, c) && Begins(actions, b, n, d);
    var x, y := if a < b then a else b, if a < b then b else a;
    if x < y {
      InPrefix(actions, x + 1, x);
      BeginsNow(Run(actions[..x]), n, actions[x].call);
      NotYet(actions, x + 1, y, n);
    }
  }
}
