/**
  Accounts, devices, sign-in codes and reset codes (internal/domain/user), with
  each request split into its reads and its transactions, and the interleavings of
  any number of them, from an empty installation on.

  Login events, profile fields, locale, device labels, the bcrypt semaphore and
  protected accounts are not modelled. bcrypt is injective here.
 */
module Accounts {
  import Address
  import Codes
  import Tokens

  type Id = nat
  const NIL: Id := 0

  const CODE_TTL: int := 600     // ten minutes, in seconds
  const CHANGE_TTL: int := 900   // fifteen
  const RESET_TTL: int := 900
  const MIN_PASSWORD: nat := 12
  const MAX_PASSWORD: nat := 72   // what bcrypt takes

  datatype Option<T> = None | Some(value: T)

  datatype PasswordHash = Bcrypt(password: string)
  datatype Fingerprint = Sha256(token: nat)

  datatype User = User(
    uuid: Codes.Uuid, email: string, password: PasswordHash, epoch: nat, suspended: bool, twoFactor: bool, live: bool)

  // trusted: TrustedAt is set. IsTrusted also asks that the device is not revoked.
  datatype Device = Device(user: Id, key: Fingerprint, trusted: bool, revoked: bool)

  predicate IsTrusted(d: Device) { d.trusted && !d.revoked }

  // targets: the address each change asks for, beside its code's row.
  datatype Store = Store(
    users: map<Id, User>, devices: map<Id, Device>, challenges: Codes.Table, resets: Codes.Table,
    changes: Codes.Table, targets: map<Id, string>)

  datatype Error =
    | ErrNotFound | ErrInvalidCredentials | ErrSuspended | ErrDeviceRevoked | ErrInvalidTwoFactorCode
    | ErrInvalidResetCode | ErrInvalidEmailCode | ErrEmailInvalid | ErrSameEmail | ErrEmailTaken
    | ErrPasswordMismatch | ErrPasswordTooShort | ErrPasswordTooLong | ErrStore

  // ------------------------------------------------------------- transactions

  datatype Tx =
    | CreateUser(user: Id, uuid: Codes.Uuid, email: string, hash: PasswordHash)
    | SetPassword(user: Id, hash: PasswordHash)
    | BumpEpoch(user: Id)
    | SetSuspended(user: Id, on: bool)
    | DeleteUser(user: Id)
    | SetTwoFactor(user: Id, enabled: bool)
    | CreateDevice(device: Id, user: Id, key: Fingerprint)
    | TrustDevice(device: Id, owner: Id)   // owner: whose password was checked; not written
    | RevokeDevice(user: Id, device: Id)
    | ReplaceChallenge(code: Id, user: Id, device: Id, secret: Codes.CodeHash, expires: int)
    | FailChallenge(code: Id)
    | ConsumeChallenge(code: Id, device: Id)
    | ReplaceReset(code: Id, user: Id, secret: Codes.CodeHash, expires: int)
    | FailReset(code: Id)
    | ConsumeReset(code: Id, user: Id, hash: PasswordHash, loaded: nat)
    | ReplaceChange(code: Id, user: Id, secret: Codes.CodeHash, expires: int, email: string)
    | FailChange(code: Id)
    | ConsumeChange(code: Id, user: Id, email: string, loaded: nat)

  predicate Live(s: Store, u: Id) { u in s.users && s.users[u].live }

  predicate AddressTaken(s: Store, email: string) {
    exists u :: u in s.users && s.users[u].live && s.users[u].email == email
  }

  predicate TakenByOther(s: Store, u: Id, email: string) {
    exists v :: v in s.users && v != u && s.users[v].live && s.users[v].email == email
  }

  predicate KeyTaken(s: Store, u: Id, key: Fingerprint) {
    exists d :: d in s.devices && s.devices[d].user == u && s.devices[d].key == key
  }

  function Put(s: Store, u: Id, row: User): Store { s.(users := s.users[u := row]) }

  function PutDevice(s: Store, d: Id, row: Device): Store { s.(devices := s.devices[d := row]) }

  // The account is retired and every device it had is revoked; the trust column
  // keeps its value.
  function Retire(s: Store, u: Id): Store
    requires u in s.users
  {
    Store(
      s.users[u := s.users[u].(live := false)],
      map d | d in s.devices :: if s.devices[d].user == u then s.devices[d].(revoked := true) else s.devices[d],
      s.challenges, s.resets, s.changes, s.targets)
  }

  // A device row, FOR UPDATE, and Device.Trust on it.
  function Trust(s: Store, d: Id): (Store, Option<Error>) {
    if d !in s.devices then (s, Some(ErrNotFound))
    else if s.devices[d].revoked then (s, Some(ErrDeviceRevoked))
    else (PutDevice(s, d, s.devices[d].(trusted := true)), None)
  }

  function Apply(s: Store, tx: Tx): (Store, Option<Error>) {
    match tx
    case CreateUser(u, uuid, email, hash) =>
      if u in s.users || AddressTaken(s, email) then (s, Some(ErrStore))
      else (Put(s, u, User(uuid, email, hash, 0, false, false, true)), None)
    case SetPassword(u, hash) =>
      if !Live(s, u) then (s, Some(ErrNotFound))
      else (Put(s, u, s.users[u].(password := hash, epoch := s.users[u].epoch + 1)), None)
    case BumpEpoch(u) =>
      if !Live(s, u) then (s, Some(ErrNotFound))
      else (Put(s, u, s.users[u].(epoch := s.users[u].epoch + 1)), None)
    case SetSuspended(u, on) =>
      if !Live(s, u) then (s, Some(ErrNotFound))
      else if on then (Put(s, u, s.users[u].(suspended := true, epoch := s.users[u].epoch + 1)), None)
      else (Put(s, u, s.users[u].(suspended := false)), None)
    case DeleteUser(u) => if !Live(s, u) then (s, Some(ErrNotFound)) else (Retire(s, u), None)
    case SetTwoFactor(u, enabled) =>
      if u !in s.users then (s, None) else (Put(s, u, s.users[u].(twoFactor := enabled)), None)
    case CreateDevice(d, u, key) =>
      if u !in s.users || d in s.devices || KeyTaken(s, u, key) then (s, Some(ErrStore))
      else (PutDevice(s, d, Device(u, key, false, false)), None)
    case TrustDevice(d, _) => Trust(s, d)
    case RevokeDevice(u, d) =>
      if d !in s.devices || s.devices[d].user != u then (s, Some(ErrNotFound))
      else if s.devices[d].revoked then (s, None)
      else (PutDevice(s, d, s.devices[d].(trusted := false, revoked := true)), None)
    case ReplaceChallenge(c, u, d, hash, expires) =>
      if u !in s.users || d !in s.devices || c in s.challenges then (s, Some(ErrStore))
      else (s.(challenges := Codes.Replace(s.challenges, c, Codes.Row(u, d, hash, expires, 0, false))), None)
    case FailChallenge(c) => (s.(challenges := Codes.Fail(s.challenges, c)), None)
    case ConsumeChallenge(c, d) =>
      // Spending and trusting land together or not at all.
      var (challenges, spent) := Codes.SpendIfOpen(s.challenges, c);
      if !spent then (s, Some(ErrInvalidTwoFactorCode))
      else
        var (s', err) := Trust(s, d);
        if err.Some? then (s, err) else (s'.(challenges := challenges), None)
    case ReplaceReset(c, u, hash, expires) =>
      if u !in s.users || c in s.resets then (s, Some(ErrStore))
      else (s.(resets := Codes.Replace(s.resets, c, Codes.Row(u, NIL, hash, expires, 0, false))), None)
    case FailReset(c) => (s.(resets := Codes.Fail(s.resets, c)), None)
    case ConsumeReset(c, u, hash, loaded) =>
      var (resets, found) := Codes.SpendAnyway(s.resets, c, loaded);
      if !found then (s, Some(ErrNotFound))
      else
        var changed := if Live(s, u) then Put(s, u, s.users[u].(password := hash, epoch := s.users[u].epoch + 1))
            else s;
        (changed.(resets := resets), None)
    case ReplaceChange(c, u, hash, expires, email) =>
      if u !in s.users || c in s.changes || c in s.targets then (s, Some(ErrStore))
      else
        (s.(changes := Codes.Replace(s.changes, c, Codes.Row(u, NIL, hash, expires, 0, false)),
            targets := s.targets[c := email]), None)
    case FailChange(c) => (s.(changes := Codes.Fail(s.changes, c)), None)
    case ConsumeChange(c, u, email, loaded) =>
      // The unique index on live addresses decides, not an earlier lookup.
      if u !in s.users then (s, Some(ErrNotFound))
      else if s.users[u].live && TakenByOther(s, u, email) then (s, Some(ErrEmailTaken))
      else
        var (changes, found) := Codes.SpendAnyway(s.changes, c, loaded);
        if !found then (s, Some(ErrNotFound))
        else (Put(s, u, s.users[u].(email := email)).(changes := changes), None)
  }

  // The account whose session epoch a transaction moves.
  function BumpOf(s: Store, tx: Tx): Option<Id> {
    if Apply(s, tx).1.Some? then None
    else match tx
      case SetPassword(u, _) => Some(u)
      case BumpEpoch(u) => Some(u)
      case SetSuspended(u, on) => if on then Some(u) else None
      case ConsumeReset(_, u, _, _) => if Live(s, u) then Some(u) else None
      case _ => None
  }

  // ------------------------------------------------------------------- calls

  datatype Answer =
    | SignedIn(user: Id, device: Id) | Challenged(device: Id) | Done | Refused(error: Error)

  // A user row as a request read it, and how long the log was then.
  datatype Read = Read(user: Id, row: User, seen: nat)

  datatype Call =
    // SignIn: nothing read; the account read and the password right; the device resolved.
    | SignInA(email: string, password: string, key: Option<nat>)
    | SignInB(r: Read, key: Option<nat>)
    | SignInC(r: Read, d: Id, dev: Device)
    // VerifyTwoFactor: the account, the device, the challenge, the device again.
    | VerifyA(email: string, digits: string, key: Option<nat>)
    | VerifyB(r: Read, digits: string, key: Option<nat>)
    | VerifyC(r: Read, digits: string, d: Id)
    | VerifyD(r: Read, d: Id)
    // Both end here: a token to sign for this row and this device.
    | Granted(r: Read, d: Id, dev: Device)
    // SetTwoFactor: the password, the device to trust.
    | FactorA(user: Id, password: string, enabled: bool, key: Option<nat>)
    | FactorB(user: Id, enabled: bool, key: Option<nat>)
    // ChangePassword, BeginPasswordReset, CompletePasswordReset
    | PasswordA(user: Id, current: string, password: string, confirm: string)
    | ForgotA(email: string)
    | ResetA(email: string, digits: string, password: string, confirm: string)
    | ResetB(r: Read, digits: string, password: string)
    // BeginEmailChange, ConfirmEmailChange
    | ChangeA(user: Id, email: string, password: string)
    | ConfirmA(user: Id, digits: string)
    // A transaction, and how the request goes on after it succeeds.
    | Ready(tx: Tx, next: Call)
    | Finished(answer: Answer)

  // ByEmail: one live account an address.
  ghost function ByEmail(s: Store, email: string): (r: Option<Id>)
    ensures r.Some? ==> Live(s, r.value) && s.users[r.value].email == email
    ensures r.None? ==> !AddressTaken(s, email)
  {
    if AddressTaken(s, email) then
      var u :| u in s.users && s.users[u].live && s.users[u].email == email;
      Some(u)
    else None
  }

  // DeviceByFingerprint
  ghost function DeviceByKey(s: Store, u: Id, key: Fingerprint): (r: Option<Id>)
    ensures r.Some? ==> r.value in s.devices && s.devices[r.value].user == u && s.devices[r.value].key == key
    ensures r.None? ==> !KeyTaken(s, u, key)
  {
    if KeyTaken(s, u, key) then
      var d :| d in s.devices && s.devices[d].user == u && s.devices[d].key == key;
      Some(d)
    else None
  }

  // ActiveDevice
  predicate DeviceActive(s: Store, u: Id, d: Id) {
    d in s.devices && s.devices[d].user == u && !s.devices[d].revoked
  }

  // The newest active code: which one it is does not matter to anything proved.
  ghost function ActiveCode(t: Codes.Table, u: Id, now: int): (r: Option<Id>)
    ensures r.Some? ==> Codes.Active(t, u, now, r.value)
    ensures r.None? ==> forall c :: !Codes.Active(t, u, now, c)
  {
    if exists c :: Codes.Active(t, u, now, c) then
      var c :| Codes.Active(t, u, now, c);
      Some(c)
    else None
  }

  // requireMatchingPassword
  function PasswordProblem(password: string, confirm: string): Option<Error> {
    if password != confirm then Some(ErrPasswordMismatch)
    else if |password| < MIN_PASSWORD then Some(ErrPasswordTooShort)
    else None
  }

  // What one step draws from the outside: the clock, an id, a code, a device token.
  datatype Draw = Draw(now: int, id: Id, digits: string, token: nat)

  function Stop(e: Error): Call { Finished(Refused(e)) }

  // One read, or signing's place in the line. seen: the length of the log now.
  ghost function Next(s: Store, c: Call, x: Draw, seen: nat): Call {
    match c
    case SignInA(email, password, key) =>
      (match ByEmail(s, Address.Normalize(email))
       case None => Stop(ErrInvalidCredentials)
       case Some(u) =>
         if s.users[u].password != Bcrypt(password) then Stop(ErrInvalidCredentials)
         else if s.users[u].suspended then Stop(ErrSuspended)
         else SignInB(Read(u, s.users[u], seen), key))
    case SignInB(r, key) =>
      if key.Some? && DeviceByKey(s, r.user, Sha256(key.value)).Some? then
        var d := DeviceByKey(s, r.user, Sha256(key.value)).value;
        SignInC(r, d, s.devices[d])
      else
        // An unrecognised device token: a new device, never trusted.
        Ready(CreateDevice(x.id, r.user, Sha256(x.token)),
            SignInC(r, x.id, Device(r.user, Sha256(x.token), false, false)))
    case SignInC(r, d, dev) =>
      if dev.revoked then Stop(ErrDeviceRevoked)
      else if r.row.twoFactor && !IsTrusted(dev) then
        Ready(ReplaceChallenge(x.id, r.user, d, Codes.HashCode(Codes.TwoFactor, r.row.uuid, x.digits),
            x.now + CODE_TTL),
              Finished(Challenged(d)))
      else Granted(r, d, dev)
    case VerifyA(email, digits, key) =>
      (match ByEmail(s, Address.Normalize(email))
       case None => Stop(ErrInvalidTwoFactorCode)
       case Some(u) =>
         if key.None? then Stop(ErrInvalidTwoFactorCode)
         else if s.users[u].suspended then Stop(ErrSuspended)
         else VerifyB(Read(u, s.users[u], seen), digits, key))
    case VerifyB(r, digits, key) =>
      (match if key.None? then None else DeviceByKey(s, r.user, Sha256(key.value))
       case None => Stop(ErrInvalidTwoFactorCode)
       case Some(d) => if s.devices[d].revoked then Stop(ErrDeviceRevoked) else VerifyC(r, digits, d))
    case VerifyC(r, digits, d) =>
      (match ActiveCode(s.challenges, r.user, x.now)
       case None => Stop(ErrInvalidTwoFactorCode)
       case Some(c) =>
         if s.challenges[c].device != d || s.challenges[c].hash != Codes.HashCode(Codes.TwoFactor, r.row.uuid, digits)
         then Ready(FailChallenge(c), Stop(ErrInvalidTwoFactorCode))
         else Ready(ConsumeChallenge(c, d), VerifyD(r, d)))
    case VerifyD(r, d) =>
      if DeviceActive(s, r.user, d) then Granted(r, d, s.devices[d]) else Stop(ErrDeviceRevoked)
    case FactorA(u, password, enabled, key) =>
      if !Live(s, u) then Stop(ErrNotFound)
      else if s.users[u].password != Bcrypt(password) then Stop(ErrInvalidCredentials)
      else FactorB(u, enabled, key)
    case FactorB(u, enabled, key) =>
      var finish := Ready(SetTwoFactor(u, enabled), Finished(Done));
      if enabled && key.Some? && DeviceByKey(s, u, Sha256(key.value)).Some?
      then Ready(TrustDevice(DeviceByKey(s, u, Sha256(key.value)).value, u), finish)
      else finish
    case PasswordA(u, current, password, confirm) =>
      if !Live(s, u) then Stop(ErrNotFound)
      else if s.users[u].password != Bcrypt(current) then Stop(ErrInvalidCredentials)
      else if PasswordProblem(password, confirm).Some? then Stop(PasswordProblem(password, confirm).value)
      else if |password| > MAX_PASSWORD then Stop(ErrPasswordTooLong)
      else Ready(SetPassword(u, Bcrypt(password)), Finished(Done))
    case ForgotA(email) =>
      (match ByEmail(s, Address.Normalize(email))
       case None => Finished(Done)
       case Some(u) =>
         Ready(ReplaceReset(x.id, u, Codes.HashCode(Codes.Reset, s.users[u].uuid, x.digits), x.now + RESET_TTL),
               Finished(Done)))
    case ResetA(email, digits, password, confirm) =>
      if PasswordProblem(password, confirm).Some? then Stop(PasswordProblem(password, confirm).value)
      else (match ByEmail(s, Address.Normalize(email))
            case None => Stop(ErrInvalidResetCode)
            case Some(u) => ResetB(Read(u, s.users[u], seen), digits, password))
    case ResetB(r, digits, password) =>
      (match ActiveCode(s.resets, r.user, x.now)
       case None => Stop(ErrInvalidResetCode)
       case Some(c) =>
         if s.resets[c].hash != Codes.HashCode(Codes.Reset, r.row.uuid, digits)
         then Ready(FailReset(c), Stop(ErrInvalidResetCode))
         else if |password| > MAX_PASSWORD then Stop(ErrPasswordTooLong)
         else Ready(ConsumeReset(c, r.user, Bcrypt(password), s.resets[c].attempts), Finished(Done)))
    case ChangeA(u, email, password) =>
      if Address.Normalize(email) == "" then Stop(ErrEmailInvalid)
      else if !Live(s, u) then Stop(ErrNotFound)
      else if s.users[u].password != Bcrypt(password) then Stop(ErrInvalidCredentials)
      else if Address.Normalize(email) == s.users[u].email then Stop(ErrSameEmail)
      else
        Ready(ReplaceChange(x.id, u, Codes.HashCode(Codes.EmailChange, s.users[u].uuid, x.digits), x.now + CHANGE_TTL,
                            Address.Normalize(email)), Finished(Done))
    case ConfirmA(u, digits) =>
      (match ActiveCode(s.changes, u, x.now)
       case None => Stop(ErrInvalidEmailCode)
       case Some(c) =>
         if u !in s.users || c !in s.targets
             || s.changes[c].hash != Codes.HashCode(Codes.EmailChange, s.users[u].uuid, digits)
         then Ready(FailChange(c), Stop(ErrInvalidEmailCode))
         else Ready(ConsumeChange(c, u, s.targets[c], s.changes[c].attempts), Finished(Done)))
    case Granted(_, _, _) => c
    case Ready(_, _) => c
    case Finished(_) => c
  }

  // ------------------------------------------------------------- interleavings

  datatype Event =
    | Committed(tx: Tx, bumped: Option<Id>)
    | Checked(user: Id)                              // SetTwoFactor or BeginEmailChange saw the right password
    | Issued(r: Read, device: Id, dev: Device, at: int)   // a token was signed

  datatype World = World(store: Store, calls: map<nat, Call>, ids: set<Id>, log: seq<Event>)

  datatype Action =
    | Begin(n: nat, call: Call)
    | Step(n: nat, x: Draw)
    | Elsewhere(tx: Tx)

  predicate Arrives(c: Call) {
    || c.SignInA? || c.VerifyA? || c.FactorA? || c.PasswordA? || c.ForgotA? || c.ResetA? || c.ChangeA?
    || c.ConfirmA?
  }

  // Requests that are one transaction: registration, signing out everywhere,
  // suspension, deletion, a revoked device.
  predicate IsElsewhere(tx: Tx) {
    tx.CreateUser? || tx.BumpEpoch? || tx.SetSuspended? || tx.DeleteUser? || tx.RevokeDevice?
  }

  // The ids such a transaction brings in; a request's own are drawn at its reads.
  function NewIds(tx: Tx): set<Id> {
    match tx
    case CreateUser(u, _, _, _) => {u}
    case _ => {}
  }

  ghost function Do(w: World, a: Action): World {
    match a
    case Begin(n, call) => if n in w.calls || !Arrives(call) then w else w.(calls := w.calls[n := call])
    case Elsewhere(tx) =>
      if !IsElsewhere(tx) || !(NewIds(tx) !! w.ids) then w else Commit(w, tx).(ids := w.ids + NewIds(tx))
    case Step(n, x) =>
      if n !in w.calls || x.id in w.ids then w
      else match w.calls[n]
        case Ready(tx, next) =>
          var outcome := Apply(w.store, tx).1;
          Commit(w, tx).(calls := w.calls[n := if outcome.None? then next else Finished(Refused(outcome.value))])
        case Granted(r, d, dev) =>
          w.(calls := w.calls[n := Finished(SignedIn(r.user, d))], log := w.log + [Issued(r, d, dev, x.now)])
        case c =>
          var c' := Next(w.store, c, x, |w.log|);
          w.(calls := w.calls[n := c'], ids := w.ids + {x.id},
             log := w.log + if ChecksPassword(c') then [Checked(Checks(c'))] else [])
  }

  // The request has just seen this account's password to be right.
  predicate ChecksPassword(c: Call) { c.FactorB? || (c.Ready? && c.tx.ReplaceChange?) }

  function Checks(c: Call): Id
    requires ChecksPassword(c)
  {
    if c.FactorB? then c.user else c.tx.user
  }

  // A transaction that was refused leaves no trace.
  function Commit(w: World, tx: Tx): World {
    var (s, err) := Apply(w.store, tx);
    if err.Some? then w else w.(store := s, log := w.log + [Committed(tx, BumpOf(w.store, tx))])
  }

  const EMPTY := World(Store(map[], map[], map[], map[], map[], map[]), map[], {}, [])

  // Every history of an installation.
  ghost function Run(actions: seq<Action>): World {
    if actions == [] then EMPTY
    else Do(Run(actions[..|actions| - 1]), actions[|actions| - 1])
  }

  // ----------------------------------------------------------- the bearer check

  // The first read of requireBearer, after the token itself has been parsed.
  predicate UserPasses(s: Store, t: Tokens.Session) {
    Live(s, t.user) && s.users[t.user].epoch == t.epoch && !s.users[t.user].suspended
  }

  // requireBearer. Its two reads are separate: early and late are the store then.
  predicate Bearer(signer: Tokens.Signer, token: Tokens.Token, now: int, early: Store, late: Store) {
    var parsed := Tokens.Parse(signer, token, now);
    parsed.Some? && UserPasses(early, parsed.value) && DeviceActive(late, parsed.value.user, parsed.value.device)
  }

  function SessionOf(r: Read, d: Id): Tokens.Session { Tokens.Session(r.user, d, r.row.epoch) }
}
