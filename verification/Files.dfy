/**
  Organization files and account photos (internal/domain/files/service.go with
  internal/store/repositories/file.go). Blob, row and pointer are written in
  separate steps, any of which may fail without effect, and a request may stop
  between any two of them.

  Whether a payload is accepted (name, type, size, scan) is decided before the
  first step here. A missing or deleted account or organization shows as a step
  that fails.
 */
module Files {
  import opened Blobs

  // SHA-256: equal digests mean equal contents.
  datatype Digest = Sha256(content: Bytes)

  // org is absent on a photo, whose owner uploaded it.
  datatype Row = Row(org: Option<Uuid>, owner: Uuid, size: nat, digest: Digest)

  // avatars is users.avatar_id, absent where it is NULL.
  datatype Store = Store(data: map<string, Bytes>, rows: map<Uuid, Row>, avatars: map<Uuid, Uuid>)

  function Put(s: Store, key: string, blob: Bytes): Store { s.(data := s.data[key := blob]) }
  function Remove(s: Store, key: string): Store { Store(s.data - {key}, s.rows, s.avatars) }

  // The row goes, and with it every pointer to it: ON DELETE SET NULL.
  function DropRow(s: Store, id: Uuid): Store {
    Store(s.data, s.rows - {id}, map u | u in s.avatars && s.avatars[u] != id :: s.avatars[u])
  }

  predicate OrgRow(s: Store, org: Uuid, id: Uuid) { id in s.rows && s.rows[id].org == Some(org) }
  predicate AccountRow(s: Store, id: Uuid) { id in s.rows && s.rows[id].org == None }

  function AvatarOf(s: Store, u: Uuid): Option<Uuid> { if u in s.avatars then Some(s.avatars[u]) else None }

  // A request and the step it takes next.
  datatype Call =
    // Upload: store the blob, create the row; or take the blob back.
    | UploadA(org: Uuid, id: Uuid, owner: Uuid, content: Bytes, envelope: Bytes)
    | UploadB(org: Uuid, id: Uuid, owner: Uuid, content: Bytes)
    | UploadUndo(org: Uuid, id: Uuid)
    // Delete: find the row, remove the blob, delete the row.
    | DeleteA(org: Uuid, id: Uuid)
    | DeleteB(org: Uuid, id: Uuid)
    | DeleteC(org: Uuid, id: Uuid)
    // SetAvatar: the blob, the row, AttachAvatar's read and its write, the
    // previous blob, the previous row; or its own row and blob undone.
    | AvatarA(user: Uuid, id: Uuid, content: Bytes, envelope: Bytes)
    | AvatarB(user: Uuid, id: Uuid, content: Bytes)
    | AvatarC(user: Uuid, id: Uuid)
    | AvatarD(user: Uuid, id: Uuid, seen: Option<Uuid>)
    | AvatarE(prev: Uuid)
    | AvatarF(prev: Uuid)
    | UndoRow(id: Uuid)
    | UndoBlob(id: Uuid)
    // DeleteAvatar: DetachAvatar's read and its write, the blob, the row.
    | DropA(user: Uuid)
    | DropB(user: Uuid, prev: Uuid)
    | DropC(prev: Uuid)
    | DropD(prev: Uuid)
    | Finished(ok: bool)

  // One step, which fails without effect when ok is false.
  function Advance(s: Store, c: Call, ok: bool): (Store, Call) {
    match c
    case UploadA(org, id, owner, content, envelope) =>
      if ok then (Put(s, BlobKey(org, id), envelope), UploadB(org, id, owner, content)) else (s, Finished(false))
    case UploadB(org, id, owner, content) =>
      if ok && id !in s.rows
      then (s.(rows := s.rows[id := Row(Some(org), owner, |content|, Sha256(content))]), Finished(true))
      else (s, UploadUndo(org, id))
    case UploadUndo(org, id) => (if ok then Remove(s, BlobKey(org, id)) else s, Finished(false))
    case DeleteA(org, id) => (s, if ok && OrgRow(s, org, id) then DeleteB(org, id) else Finished(false))
    case DeleteB(org, id) => if ok then (Remove(s, BlobKey(org, id)), DeleteC(org, id)) else (s, Finished(false))
    case DeleteC(org, id) => if ok && OrgRow(s, org, id) then (DropRow(s, id), Finished(true)) else (s, Finished(false))
    case AvatarA(user, id, content, envelope) =>
      if ok then (Put(s, AccountKey(id), envelope), AvatarB(user, id, content)) else (s, Finished(false))
    case AvatarB(user, id, content) =>
      if ok && id !in s.rows
      then (s.(rows := s.rows[id := Row(None, user, |content|, Sha256(content))]), AvatarC(user, id))
      else (s, UndoBlob(id))
    case AvatarC(user, id) => (s, if ok && AccountRow(s, id) then AvatarD(user, id, AvatarOf(s, user)) else UndoRow(id))
    case AvatarD(user, id, seen) =>
      if !ok || id !in s.rows then (s, UndoRow(id))
      else (s.(avatars := s.avatars[user := id]), if seen.Some? then AvatarE(seen.value) else Finished(true))
    case AvatarE(prev) => (if ok then Remove(s, AccountKey(prev)) else s, AvatarF(prev))
    case AvatarF(prev) => (if ok && AccountRow(s, prev) then DropRow(s, prev) else s, Finished(true))
    case UndoRow(id) => (if ok && AccountRow(s, id) then DropRow(s, id) else s, UndoBlob(id))
    case UndoBlob(id) => (if ok then Remove(s, AccountKey(id)) else s, Finished(false))
    case DropA(user) => (s, if ok && user in s.avatars then DropB(user, s.avatars[user]) else Finished(false))
    case DropB(user, prev) => if ok then (s.(avatars := s.avatars - {user}), DropC(prev)) else (s, Finished(false))
    case DropC(prev) => if ok then (Remove(s, AccountKey(prev)), DropD(prev)) else (s, Finished(false))
    case DropD(prev) => if ok && AccountRow(s, prev) then (DropRow(s, prev), Finished(true)) else (s, Finished(false))
    case Finished(_) => (s, c)
  }

  // An upload that succeeded.
  datatype Stored = Stored(org: Uuid, id: Uuid, content: Bytes)

  // ids: every file id ever made. cipher and key do not change.
  datatype World = World(store: Store, calls: map<nat, Call>, ids: set<Uuid>, log: seq<Stored>)

  datatype Action = Begin(n: nat, call: Call) | Step(n: nat, ok: bool)

  datatype Cipher = Cipher(aead: Aead, key: Bytes)

  ghost predicate Sealed(k: Cipher, content: Bytes, envelope: Bytes) {
    exists nonce :: |nonce| == NONCE_SIZE && envelope == Envelope(k.aead, k.key, nonce, content)
  }

  // A request as it starts, with a new id for the file it makes.
  ghost predicate Arrives(k: Cipher, w: World, c: Call) {
    match c
    case UploadA(org, id, _, content, envelope) => org != NIL && id !in w.ids && Sealed(k, content, envelope)
    case AvatarA(_, id, content, envelope) => id !in w.ids && Sealed(k, content, envelope)
    case DeleteA(_, _) => true
    case DropA(_) => true
    case _ => false
  }

  // The file a call is making and has not handed over yet.
  function Making(c: Call): Option<Uuid> {
    match c
    case UploadA(_, id, _, _, _) => Some(id)
    case UploadB(_, id, _, _) => Some(id)
    case UploadUndo(_, id) => Some(id)
    case AvatarA(_, id, _, _) => Some(id)
    case AvatarB(_, id, _) => Some(id)
    case AvatarC(_, id) => Some(id)
    case AvatarD(_, id, _) => Some(id)
    case UndoRow(id) => Some(id)
    case UndoBlob(id) => Some(id)
    case _ => None
  }

  function Succeeds(s: Store, c: Call, ok: bool): seq<Stored> {
    if c.UploadB? && ok && c.id !in s.rows then [Stored(c.org, c.id, c.content)] else []
  }

  ghost function Do(k: Cipher, w: World, a: Action): World {
    match a
    case Begin(n, call) =>
      if n in w.calls || !Arrives(k, w, call) then w
      else w.(calls := w.calls[n := call], ids := if Making(call).Some? then w.ids + {Making(call).value} else w.ids)
    case Step(n, ok) =>
      if n !in w.calls then w
      else
        var (s, c) := Advance(w.store, w.calls[n], ok);
        World(s, w.calls[n := c], w.ids, w.log + Succeeds(w.store, w.calls[n], ok))
  }

  const EMPTY := World(Store(map[], map[], map[]), map[], {}, [])

  ghost function Run(k: Cipher, actions: seq<Action>): World {
    if actions == [] then EMPTY
    else Do(k, Run(k, actions[..|actions| - 1]), actions[|actions| - 1])
  }

  // -------------------------------------------------------------------- reads

  function Content(k: Cipher, s: Store, org: Uuid, id: Uuid): Result<(Row, Bytes)> {
    if !OrgRow(s, org, id) || BlobKey(org, id) !in s.data then Error(ErrNotFound)
    else match Open(k.aead, k.key, s.data[BlobKey(org, id)])
      case Ok(plain) => Ok((s.rows[id], plain))
      case Error(e) => Error(e)
  }

  function Avatar(k: Cipher, s: Store, user: Uuid): Result<(Row, Bytes)> {
    if user !in s.avatars || !AccountRow(s, s.avatars[user]) || AccountKey(s.avatars[user]) !in s.data
        then Error(ErrNotFound)
    else match Open(k.aead, k.key, s.data[AccountKey(s.avatars[user])])
      case Ok(plain) => Ok((s.rows[s.avatars[user]], plain))
      case Error(e) => Error(e)
  }
}
