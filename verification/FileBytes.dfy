/**
  Stored bytes come back: whatever else is uploaded, changed or deleted, a blob
  that is there opens to exactly the bytes its row describes, and the blob and row
  of a finished upload stay until that file is itself deleted.
 */
module FileBytes {
  import opened Blobs
  import opened Files
  import opened FileSafety

  function KeyOf(row: Row, p: Uuid): string {
    match row.org
    case Some(org) => BlobKey(org, p)
    case None => AccountKey(p)
  }

  // The blob under the row's key, if there is one, seals the bytes the row is about.
  ghost predicate Genuine(k: Cipher, s: Store, p: Uuid)
    requires p in s.rows
  {
    var row := s.rows[p];
    && row.size == |row.digest.content|
    && (KeyOf(row, p) in s.data ==> Sealed(k, row.digest.content, s.data[KeyOf(row, p)]))
  }

  // What a call still has to write is sealed, and has no row yet.
  ghost predicate Carrying(k: Cipher, s: Store, c: Call) {
    match c
    case UploadA(_, id, _, content, envelope) => id !in s.rows && Sealed(k, content, envelope)
    case UploadB(org, id, _, content) =>
      id !in s.rows && BlobKey(org, id) in s.data && Sealed(k, content, s.data[BlobKey(org, id)])
    case AvatarA(_, id, content, envelope) => id !in s.rows && Sealed(k, content, envelope)
    case AvatarB(_, id, content) =>
      id !in s.rows && AccountKey(id) in s.data && Sealed(k, content, s.data[AccountKey(id)])
    case _ => true
  }

  ghost predicate AllGenuine(k: Cipher, w: World) {
    && Kept(w)
    && (forall p :: p in w.store.rows ==> Genuine(k, w.store, p))
    && (forall n :: n in w.calls ==> Carrying(k, w.store, w.calls[n]))
  }

  // The key a step writes or clears.
  function Touches(c: Call): Option<string> {
    match c
    case UploadA(org, id, _, _, _) => Some(BlobKey(org, id))
    case UploadUndo(org, id) => Some(BlobKey(org, id))
    case DeleteB(org, id) => Some(BlobKey(org, id))
    case AvatarA(_, id, _, _) => Some(AccountKey(id))
    case UndoBlob(id) => Some(AccountKey(id))
    case AvatarE(p) => Some(AccountKey(p))
    case DropC(p) => Some(AccountKey(p))
    case _ => None
  }

  lemma {:induction false} OneKey(s: Store, c: Call, ok: bool, key: string)
    requires Touches(c) != Some(key)
    ensures key in Advance(s, c, ok).0.data <==> key in s.data
    ensures key in s.data ==> Advance(s, c, ok).0.data[key] == s.data[key]
  {
  }

  // A key is written only for a file that has no row yet.
  lemma {:induction false} WritesAreNew(k: Cipher, s: Store, c: Call, ok: bool, key: string)
    requires Carrying(k, s, c) && key in Advance(s, c, ok).0.data
    ensures (key in s.data && Advance(s, c, ok).0.data[key] == s.data[key])
            || ((c.UploadA? || c.AvatarA?) && Touches(c) == Some(key))
  {
  }

  lemma {:induction false} KeyNamesFile(c: Call, row: Row, p: Uuid)
    requires (c.UploadA? || c.AvatarA?) && Touches(c) == Some(KeyOf(row, p))
    ensures Making(c) == Some(p)
  {
    if c.UploadA? {
      match row.org
      case Some(org) => KeysApart(c.org, c.id, org, p);
      case None => KeysApart(c.org, c.id, c.org, p);
    } else {
      match row.org
      case Some(org) => KeysApart(org, p, org, c.id);
      case None => KeysApart(NIL, c.id, NIL, p);
    }
  }

  lemma {:induction false} RowFrom(s: Store, c: Call, ok: bool, p: Uuid)
    requires p in Advance(s, c, ok).0.rows
    ensures var row := Advance(s, c, ok).0.rows[p];
            || (p in s.rows && s.rows[p] == row)
            || (c.UploadB? && c.id == p && row == Row(Some(c.org), c.owner, |c.content|, Sha256(c.content)))
            || (c.AvatarB? && c.id == p && row == Row(None, c.user, |c.content|, Sha256(c.content)))
  {
  }

  lemma {:induction false} StaysGenuine(k: Cipher, s: Store, c: Call, ok: bool, p: Uuid)
    requires Carrying(k, s, c) && (p in s.rows ==> Genuine(k, s, p)) && p in Advance(s, c, ok).0.rows
    ensures Genuine(k, Advance(s, c, ok).0, p)
  {
    var s' := Advance(s, c, ok).0;
    var row := s'.rows[p];
    RowFrom(s, c, ok, p);
    if p in s.rows && s.rows[p] == row && KeyOf(row, p) in s'.data {
      WritesAreNew(k, s, c, ok, KeyOf(row, p));
      if Touches(c) == Some(KeyOf(row, p)) && (c.UploadA? || c.AvatarA?) { KeyNamesFile(c, row, p); }
    }
  }

  lemma {:induction false} NextCarries(k: Cipher, s: Store, c: Call, ok: bool)
    requires Carrying(k, s, c)
    ensures Carrying(k, Advance(s, c, ok).0, Advance(s, c, ok).1)
  {
  }

  lemma {:induction false} OthersCarry(k: Cipher, s: Store, c: Call, ok: bool, d: Call)
    requires Carrying(k, s, d) && Apart(c, d) && Apart(d, c)
    ensures Carrying(k, Advance(s, c, ok).0, d)
  {
    if d.UploadA? || d.UploadB? || d.AvatarA? || d.AvatarB? {
      assert Making(d) == Some(d.id);
      if d.id in Advance(s, c, ok).0.rows { RowsComeFrom(s, c, ok, d.id); }
      if d.AvatarB? { BlobStays(s, c, ok, d.id); }
      if d.UploadB? { UploadStays(s, c, ok, d); }
    }
  }

  // Nobody else touches the blob of an upload in progress.
  lemma {:induction false} UploadStays(s: Store, c: Call, ok: bool, d: Call)
    requires d.UploadB? && BlobKey(d.org, d.id) in s.data && Apart(d, c)
    ensures BlobKey(d.org, d.id) in Advance(s, c, ok).0.data
    ensures Advance(s, c, ok).0.data[BlobKey(d.org, d.id)] == s.data[BlobKey(d.org, d.id)]
  {
    OtherKey(c, d.org, d.id);
    OneKey(s, c, ok, BlobKey(d.org, d.id));
  }

  // A call that neither makes nor deletes a file leaves its document's key alone.
  lemma {:induction false} OtherKey(c: Call, org: Uuid, id: Uuid)
    requires Making(c) != Some(id) && Deleting(c) != Some(id)
    ensures Touches(c) != Some(BlobKey(org, id))
  {
    if c.UploadA? || c.UploadUndo? || c.DeleteB? {
      KeysApart(c.org, c.id, org, id);
    } else if Touches(c).Some? {
      KeysApart(org, id, org, if Making(c).Some? then Making(c).value else Removing(c).value);
    }
  }

  lemma {:induction false} RunGenuine(k: Cipher, actions: seq<Action>)
    ensures AllGenuine(k, Run(k, actions))
  {
    RunKept(k, actions);
    if actions != [] {
      var n := |actions| - 1;
      RunGenuine(k, actions[..n]);
      DoGenuine(k, Run(k, actions[..n]), actions[n]);
    }
  }

  lemma {:induction false} DoGenuine(k: Cipher, w: World, a: Action)
    requires AllGenuine(k, w) && Kept(Do(k, w, a))
    ensures AllGenuine(k, Do(k, w, a))
  {
    match a
    case Begin(n, call) =>
    case Step(n, ok) =>
      if n in w.calls {
        var w' := Do(k, w, a);
        var c := w.calls[n];
        forall p | p in w'.store.rows ensures Genuine(k, w'.store, p) { StaysGenuine(k, w.store, c, ok, p); }
        forall m | m in w'.calls ensures Carrying(k, w'.store, w'.calls[m]) {
          if m == n { NextCarries(k, w.store, c, ok); } else { OthersCarry(k, w.store, c, ok, w.calls[m]); }
        }
      }
  }

  lemma {:induction false} SealedOpens(k: Cipher, content: Bytes, envelope: Bytes)
    requires Lawful(k.aead) && |k.key| == KEY_SIZE && Sealed(k, content, envelope)
    ensures Open(k.aead, k.key, envelope) == Ok(content)
  {
    var nonce :| |nonce| == NONCE_SIZE && envelope == Envelope(k.aead, k.key, nonce, content);
    OpenUndoesSeal(k.aead, k.key, nonce, content);
  }

  // At any moment, reading a document or a photo gives nothing, or exactly the
  // bytes its row's size and digest are about: never corrupt, never another's.
  lemma {:induction false} NeverWrongBytes(k: Cipher, actions: seq<Action>, org: Uuid, id: Uuid, user: Uuid)
    requires Lawful(k.aead) && |k.key| == KEY_SIZE
    ensures var r := Content(k, Run(k, actions).store, org, id);
            r == Error(ErrNotFound) || (r.Ok? && r.value.0.digest == Sha256(r.value.1) && r.value.0.size == |r.value.1|)
    ensures var r := Avatar(k, Run(k, actions).store, user);
            r == Error(ErrNotFound) || (r.Ok? && r.value.0.digest == Sha256(r.value.1) && r.value.0.size == |r.value.1|)
  {
    RunGenuine(k, actions);
    var s := Run(k, actions).store;
    if OrgRow(s, org, id) && BlobKey(org, id) in s.data {
      assert Genuine(k, s, id);
      SealedOpens(k, s.rows[id].digest.content, s.data[BlobKey(org, id)]);
    }
    if user in s.avatars && AccountRow(s, s.avatars[user]) && AccountKey(s.avatars[user]) in s.data {
      assert Genuine(k, s, s.avatars[user]);
      SealedOpens(k, s.rows[s.avatars[user]].digest.content, s.data[AccountKey(s.avatars[user])]);
    }
  }

  // And a photo the account points at is always there to read.
  lemma {:induction false} AvatarAlwaysReads(k: Cipher, actions: seq<Action>, user: Uuid)
    requires Lawful(k.aead) && |k.key| == KEY_SIZE && user in Run(k, actions).store.avatars
    ensures Avatar(k, Run(k, actions).store, user).Ok?
    ensures Avatar(k, Run(k, actions).store, user).value.0.owner == user
  {
    RunGenuine(k, actions);
    PointerNeverDangles(k, actions, user);
    var s := Run(k, actions).store;
    assert Genuine(k, s, s.avatars[user]);
    SealedOpens(k, s.rows[s.avatars[user]].digest.content, s.data[AccountKey(s.avatars[user])]);
  }

  // ------------------------------------------------------------ finished uploads

  predicate Deletes(c: Call, org: Uuid, id: Uuid) {
    match c
    case DeleteA(o, x) => o == org && x == id
    case DeleteB(o, x) => o == org && x == id
    case DeleteC(o, x) => o == org && x == id
    case _ => false
  }

  // The finished uploads of this document are there, and nobody deletes it.
  ghost predicate Lasting(w: World, org: Uuid, id: Uuid) {
    && (forall n :: n in w.calls ==> !Deletes(w.calls[n], org, id))
    && (forall content :: Stored(org, id, content) in w.log ==>
          && id in w.ids && id in w.store.rows && BlobKey(org, id) in w.store.data
          && w.store.rows[id].org == Some(org) && w.store.rows[id].digest == Sha256(content))
  }

  lemma {:induction false} StepLasts(k: Cipher, w: World, n: nat, ok: bool, org: Uuid, id: Uuid)
    requires AllGenuine(k, w) && Lasting(w, org, id) && n in w.calls
    ensures Lasting(Do(k, w, Step(n, ok)), org, id)
  {
    var c := w.calls[n];
    var w' := Do(k, w, Step(n, ok));
    forall content | Stored(org, id, content) in w'.log
      ensures id in w'.ids && id in w'.store.rows && BlobKey(org, id) in w'.store.data
      ensures w'.store.rows[id].org == Some(org) && w'.store.rows[id].digest == Sha256(content)
    {
      if Stored(org, id, content) in w.log { DocumentStays(k, w, n, ok, org, id); }
    }
  }

  // A step by a request that does not delete a document leaves its row and blob.
  lemma {:induction false} DocumentStays(k: Cipher, w: World, n: nat, ok: bool, org: Uuid, id: Uuid)
    requires AllGenuine(k, w) && n in w.calls && !Deletes(w.calls[n], org, id)
    requires OrgRow(w.store, org, id) && BlobKey(org, id) in w.store.data
    ensures var s' := Advance(w.store, w.calls[n], ok).0;
            id in s'.rows && s'.rows[id] == w.store.rows[id] && BlobKey(org, id) in s'.data
  {
    var c := w.calls[n];
    assert Sound(w.store, c, w.ids);
    if c.UploadA? || c.UploadUndo? || c.DeleteB? {
      KeysApart(c.org, c.id, org, id);
    } else if Making(c).Some? {
      KeysApart(org, id, org, Making(c).value);
    } else if Removing(c).Some? {
      KeysApart(org, id, org, Removing(c).value);
    }
    OneKey(w.store, c, ok, BlobKey(org, id));
  }

  lemma {:induction false} RunLasts(k: Cipher, actions: seq<Action>, org: Uuid, id: Uuid)
    requires forall a :: a in actions && a.Begin? ==> !Deletes(a.call, org, id)
    ensures Lasting(Run(k, actions), org, id)
  {
    if actions != [] {
      var n := |actions| - 1;
      RunLasts(k, actions[..n], org, id);
      RunGenuine(k, actions[..n]);
      assert actions[n] in actions;
      var w := Run(k, actions[..n]);
      match actions[n]
      case Begin(m, call) =>
      case Step(m, ok) => if m in w.calls { StepLasts(k, w, m, ok, org, id); }
    }
  }

  // After an upload succeeds, reading that document gives back exactly the bytes
  // uploaded, with their size and digest, through any run of other uploads, photo
  // changes and deletions that never asks for this document to be deleted.
  lemma {:induction false} StoredBytesComeBack(k: Cipher, actions: seq<Action>, org: Uuid, id: Uuid, content: Bytes)
    requires Lawful(k.aead) && |k.key| == KEY_SIZE && Stored(org, id, content) in Run(k, actions).log
    requires forall a :: a in actions && a.Begin? ==> !Deletes(a.call, org, id)
    ensures var r := Content(k, Run(k, actions).store, org, id);
            r.Ok? && r.value.1 == content && r.value.0.size == |content| && r.value.0.digest == Sha256(content)
  {
    RunLasts(k, actions, org, id);
    RunGenuine(k, actions);
    var s := Run(k, actions).store;
    assert Genuine(k, s, id);
    SealedOpens(k, content, s.data[BlobKey(org, id)]);
  }

  // Deleting a document takes the blob first. When the row's turn fails, the row is
  // left with no blob behind it, and stays readable as missing only.
  lemma {:induction false} DeleteLeavesARow(k: Cipher, s: Store, org: Uuid, id: Uuid)
    requires OrgRow(s, org, id) && BlobKey(org, id) in s.data
    ensures var (t, c) := Advance(s, DeleteA(org, id), true);
            var (u, d) := Advance(t, c, true);
            var (v, e) := Advance(u, d, false);
            e == Finished(false) && OrgRow(v, org, id) && BlobKey(org, id) !in v.data
            && Content(k, v, org, id) == Error(ErrNotFound)
  {
  }
}
