/**
  The file service over its blob store and tables, both changed in place: the
  order of writes and the compensation when one fails. Every method is the
  corresponding request of Files run alone, step by step.
 */
module FileService {
  import opened Blobs
  import opened Files

  // Which of a request's steps succeed, in order.
  type Fate = nat -> bool

  // Steps still to take, at most.
  function Left(c: Call): nat {
    match c
    case Finished(_) => 0
    case UploadA(_, _, _, _, _) => 3
    case UploadB(_, _, _, _) => 2
    case UploadUndo(_, _) => 1
    case DeleteA(_, _) => 3
    case DeleteB(_, _) => 2
    case DeleteC(_, _) => 1
    case AvatarA(_, _, _, _) => 6
    case AvatarB(_, _, _) => 5
    case AvatarC(_, _) => 4
    case AvatarD(_, _, _) => 3
    case AvatarE(_) => 2
    case AvatarF(_) => 1
    case UndoRow(_) => 2
    case UndoBlob(_) => 1
    case DropA(_) => 4
    case DropB(_, _) => 3
    case DropC(_) => 2
    case DropD(_) => 1
  }

  lemma {:induction false} AdvanceMakesProgress(s: Store, c: Call, ok: bool)
    requires !c.Finished?
    ensures Left(Advance(s, c, ok).1) < Left(c)
  {
  }

  // A request with nobody else at work, from its i-th step on.
  function Alone(s: Store, c: Call, fate: Fate, i: nat): (Store, Call)
    decreases Left(c)
  {
    if c.Finished? then (s, c)
    else
      AdvanceMakesProgress(s, c, fate(i));
      var (t, d) := Advance(s, c, fate(i));
      Alone(t, d, fate, i + 1)
  }

  lemma {:induction false} AloneStep(s: Store, c: Call, fate: Fate, i: nat)
    requires !c.Finished?
    ensures var (t, d) := Advance(s, c, fate(i)); Alone(s, c, fate, i) == Alone(t, d, fate, i + 1)
  {
  }

  // A refused upload leaves nothing behind, provided the undo goes through.
  lemma {:induction false} FailedUploadUndone(
    s: Store, org: Uuid, id: Uuid, owner: Uuid, content: Bytes, envelope: Bytes, fate: Fate)
    requires BlobKey(org, id) !in s.data && fate(2)
    ensures var (t, c) := Alone(s, UploadA(org, id, owner, content, envelope), fate, 0);
            if fate(0) && fate(1) && id !in s.rows then
              && c == Finished(true)
              && t == Store(s.data[BlobKey(org, id) := envelope],
                            s.rows[id := Row(Some(org), owner, |content|, Sha256(content))], s.avatars)
            else c == Finished(false) && t == s
  {
    AloneStep(s, UploadA(org, id, owner, content, envelope), fate, 0);
    if fate(0) {
      var put := Put(s, BlobKey(org, id), envelope);
      AloneStep(put, UploadB(org, id, owner, content), fate, 1);
      AloneStep(put, UploadUndo(org, id), fate, 2);
      assert put.data - {BlobKey(org, id)} == s.data;
    }
  }

  // A photo's own row and blob, undone.
  lemma {:induction false} PhotoUndone(s: Store, id: Uuid, row: Row, envelope: Bytes, fate: Fate, i: nat)
    requires AccountKey(id) !in s.data && id !in s.rows && row.org == None && fate(i) && fate(i + 1)
    requires forall u :: u in s.avatars ==> s.avatars[u] != id
    ensures var with := Store(s.data[AccountKey(id) := envelope], s.rows[id := row], s.avatars);
            Alone(with, UndoRow(id), fate, i) == (s, Finished(false))
  {
    var with := Store(s.data[AccountKey(id) := envelope], s.rows[id := row], s.avatars);
    AloneStep(with, UndoRow(id), fate, i);
    assert DropRow(with, id) == Store(with.data, s.rows, s.avatars) by {
      assert with.rows - {id} == s.rows && DropRow(with, id).avatars == s.avatars;
    }
    AloneStep(DropRow(with, id), UndoBlob(id), fate, i + 1);
    assert with.data - {AccountKey(id)} == s.data;
  }

  // And so does a refused photo: the account keeps the one it had.
  lemma {:induction false} FailedAvatarUndone(
    s: Store, user: Uuid, id: Uuid, content: Bytes, envelope: Bytes, fate: Fate)
    requires AccountKey(id) !in s.data && id !in s.rows && forall u :: u in s.avatars ==> s.avatars[u] != id
    requires fate(0) && !(fate(1) && fate(2) && fate(3))
    requires (!fate(1) ==> fate(2)) && (!fate(2) ==> fate(3) && fate(4)) && (!fate(3) ==> fate(4) && fate(5))
    ensures Alone(s, AvatarA(user, id, content, envelope), fate, 0) == (s, Finished(false))
  {
    var put := Put(s, AccountKey(id), envelope);
    AloneStep(s, AvatarA(user, id, content, envelope), fate, 0);
    AloneStep(put, AvatarB(user, id, content), fate, 1);
    if !fate(1) {
      AloneStep(put, UndoBlob(id), fate, 2);
      assert put.data - {AccountKey(id)} == s.data;
    } else {
      var row := Row(None, user, |content|, Sha256(content));
      var with := Store(s.data[AccountKey(id) := envelope], s.rows[id := row], s.avatars);
      AloneStep(with, AvatarC(user, id), fate, 2);
      AloneStep(with, AvatarD(user, id, AvatarOf(with, user)), fate, 3);
      PhotoUndone(s, id, row, envelope, fate, if fate(2) then 4 else 3);
    }
  }

  // A stored document goes, blob and row, and nothing else but pointers to it; one
  // that is not this organization's is left alone.
  lemma {:induction false} DeleteAnswers(s: Store, org: Uuid, id: Uuid, fate: Fate)
    requires fate(0) && fate(1) && fate(2)
    ensures var (t, c) := Alone(s, DeleteA(org, id), fate, 0);
            if OrgRow(s, org, id) then
              && c == Finished(true) && t.data == s.data - {BlobKey(org, id)} && t.rows == s.rows - {id}
              && forall u :: (u in t.avatars <==> u in s.avatars && s.avatars[u] != id)
                  && (u in t.avatars ==> t.avatars[u] == s.avatars[u])
            else c == Finished(false) && t == s
  {
    AloneStep(s, DeleteA(org, id), fate, 0);
    if OrgRow(s, org, id) {
      AloneStep(s, DeleteB(org, id), fate, 1);
      AloneStep(Remove(s, BlobKey(org, id)), DeleteC(org, id), fate, 2);
    }
  }

  // The blob is removed first: a failure before that changes nothing, a failure
  // after it leaves the row.
  lemma {:induction false} DeleteHalfDone(s: Store, org: Uuid, id: Uuid, fate: Fate)
    requires OrgRow(s, org, id) && !(fate(0) && fate(1) && fate(2))
    ensures Alone(s, DeleteA(org, id), fate, 0)
            == (if fate(0) && fate(1) then Remove(s, BlobKey(org, id)) else s, Finished(false))
  {
    AloneStep(s, DeleteA(org, id), fate, 0);
    AloneStep(s, DeleteB(org, id), fate, 1);
    AloneStep(Remove(s, BlobKey(org, id)), DeleteC(org, id), fate, 2);
  }

  // A photo set without a failure is the one pointed at, with its row and its blob;
  // the one before, if there was one, is gone, row and blob.
  lemma {:induction false} SetAvatarAnswers(
    s: Store, user: Uuid, id: Uuid, content: Bytes, envelope: Bytes, fate: Fate)
    requires id !in s.rows && forall i :: 0 <= i < 6 ==> fate(i)
    requires forall u :: u in s.avatars ==> s.avatars[u] != id && AccountRow(s, s.avatars[u])
    requires forall u, v :: u in s.avatars && v in s.avatars && s.avatars[u] == s.avatars[v] ==> u == v
    ensures var made := PhotoMade(s, user, id, content, envelope);
            Alone(s, AvatarA(user, id, content, envelope), fate, 0)
            == (if user in s.avatars
                then Store(made.data - {AccountKey(s.avatars[user])}, made.rows - {s.avatars[user]}, made.avatars)
                else made,
                Finished(true))
  {
    var put := Put(s, AccountKey(id), envelope);
    var with := put.(rows := s.rows[id := Row(None, user, |content|, Sha256(content))]);
    var made := PhotoMade(s, user, id, content, envelope);
    AloneStep(s, AvatarA(user, id, content, envelope), fate, 0);
    AloneStep(put, AvatarB(user, id, content), fate, 1);
    AloneStep(with, AvatarC(user, id), fate, 2);
    AloneStep(with, AvatarD(user, id, AvatarOf(s, user)), fate, 3);
    if user in s.avatars { PreviousGone(made, s.avatars[user], fate, 4); }
  }

  function PhotoMade(s: Store, user: Uuid, id: Uuid, content: Bytes, envelope: Bytes): Store {
    Store(s.data[AccountKey(id) := envelope], s.rows[id := Row(None, user, |content|, Sha256(content))],
          s.avatars[user := id])
  }

  lemma {:induction false} PreviousGone(s: Store, prev: Uuid, fate: Fate, i: nat)
    requires AccountRow(s, prev) && fate(i) && fate(i + 1) && forall u :: u in s.avatars ==> s.avatars[u] != prev
    ensures Alone(s, AvatarE(prev), fate, i)
            == (Store(s.data - {AccountKey(prev)}, s.rows - {prev}, s.avatars), Finished(true))
  {
    AloneStep(s, AvatarE(prev), fate, i);
    AloneStep(Remove(s, AccountKey(prev)), AvatarF(prev), fate, i + 1);
    assert DropRow(Remove(s, AccountKey(prev)), prev).avatars == s.avatars;
  }

  // A photo taken off without a failure is gone, pointer, blob and row; without one
  // there is nothing to take off.
  lemma {:induction false} DeleteAvatarAnswers(s: Store, user: Uuid, fate: Fate)
    requires forall i :: 0 <= i < 4 ==> fate(i)
    requires forall u :: u in s.avatars ==> AccountRow(s, s.avatars[u])
    requires forall u, v :: u in s.avatars && v in s.avatars && s.avatars[u] == s.avatars[v] ==> u == v
    ensures var (t, c) := Alone(s, DropA(user), fate, 0);
            if user in s.avatars then
              && c == Finished(true)
              && t == Store(s.data - {AccountKey(s.avatars[user])}, s.rows - {s.avatars[user]}, s.avatars - {user})
            else c == Finished(false) && t == s
  {
    AloneStep(s, DropA(user), fate, 0);
    if user in s.avatars {
      var prev := s.avatars[user];
      var off := s.(avatars := s.avatars - {user});
      AloneStep(s, DropB(user, prev), fate, 1);
      AloneStep(off, DropC(prev), fate, 2);
      AloneStep(Remove(off, AccountKey(prev)), DropD(prev), fate, 3);
      assert DropRow(Remove(off, AccountKey(prev)), prev).avatars == off.avatars;
    }
  }

  class Service {
    const blobs: MemoryBlobs
    var rows: map<Uuid, Row>
    var avatars: map<Uuid, Uuid>

    function View(): Store
      reads this, blobs
    {
      Store(blobs.data, rows, avatars)
    }

    constructor (b: MemoryBlobs)
      ensures blobs == b && rows == map[] && avatars == map[]
    {
      blobs, rows, avatars := b, map[], map[];
    }

    // DELETE, with ON DELETE SET NULL on the pointers: one account after another.
    method DeleteRow(id: Uuid)
      modifies this
      ensures View() == DropRow(old(View()), id)
    {
      rows := rows - {id};
      var was := avatars;
      var todo := set u | u in avatars && avatars[u] == id;
      while todo != {}
        invariant todo <= avatars.Keys <= was.Keys && rows == old(rows) - {id}
        invariant forall u :: u in was ==> (u in avatars <==> was[u] != id || u in todo)
        invariant forall u :: u in avatars ==> avatars[u] == was[u]
        decreases todo
      {
        var u :| u in todo;
        avatars, todo := avatars - {u}, todo - {u};
      }
      assert avatars == DropRow(old(View()), id).avatars;
    }

    method Upload(org: Uuid, id: Uuid, owner: Uuid, content: Bytes, envelope: Bytes, fate: Fate) returns (ok: bool)
      modifies this, blobs
      ensures (View(), Finished(ok)) == Alone(old(View()), UploadA(org, id, owner, content, envelope), fate, 0)
    {
      AloneStep(View(), UploadA(org, id, owner, content, envelope), fate, 0);
      if !fate(0) { return false; }
      var key := blobs.Put(org, id, envelope);
      AloneStep(View(), UploadB(org, id, owner, content), fate, 1);
      if !fate(1) || id in rows {
        AloneStep(View(), UploadUndo(org, id), fate, 2);
        if fate(2) { blobs.Remove(org, id); }
        return false;
      }
      rows := rows[id := Row(Some(org), owner, |content|, Sha256(content))];
      return true;
    }

    method Delete(org: Uuid, id: Uuid, fate: Fate) returns (ok: bool)
      modifies this, blobs
      ensures (View(), Finished(ok)) == Alone(old(View()), DeleteA(org, id), fate, 0)
    {
      AloneStep(View(), DeleteA(org, id), fate, 0);
      if !fate(0) || !OrgRow(View(), org, id) { return false; }
      AloneStep(View(), DeleteB(org, id), fate, 1);
      if !fate(1) { return false; }
      blobs.Remove(org, id);
      AloneStep(View(), DeleteC(org, id), fate, 2);
      if !fate(2) || !OrgRow(View(), org, id) { return false; }
      DeleteRow(id);
      return true;
    }

    method Read(k: Cipher, org: Uuid, id: Uuid) returns (r: Result<(Row, Bytes)>)
      ensures r == Content(k, View(), org, id)
    {
      if !OrgRow(View(), org, id) { return Error(ErrNotFound); }
      var blob := blobs.Fetch(org, id);
      if blob.Error? { return Error(ErrNotFound); }
      match Open(k.aead, k.key, blob.value)
      case Ok(plain) => return Ok((rows[id], plain));
      case Error(e) => return Error(e);
    }

    // Its own row and blob are undone when the pointer cannot be set.
    method UndoAvatar(id: Uuid, fate: Fate, i: nat)
      modifies this, blobs
      ensures (View(), Finished(false)) == Alone(old(View()), Files.UndoRow(id), fate, i)
    {
      AloneStep(View(), Files.UndoRow(id), fate, i);
      if fate(i) && AccountRow(View(), id) { DeleteRow(id); }
      AloneStep(View(), UndoBlob(id), fate, i + 1);
      if fate(i + 1) { blobs.RemoveAccount(id); }
    }

    // The previous photo goes, blob first, whatever fails.
    method RemovePrevious(prev: Uuid, fate: Fate, i: nat)
      modifies this, blobs
      ensures (View(), Finished(true)) == Alone(old(View()), AvatarE(prev), fate, i)
    {
      AloneStep(View(), AvatarE(prev), fate, i);
      if fate(i) { blobs.RemoveAccount(prev); }
      AloneStep(View(), AvatarF(prev), fate, i + 1);
      if fate(i + 1) && AccountRow(View(), prev) { DeleteRow(prev); }
    }

    method SetAvatar(user: Uuid, id: Uuid, content: Bytes, envelope: Bytes, fate: Fate) returns (ok: bool)
      modifies this, blobs
      ensures (View(), Finished(ok)) == Alone(old(View()), AvatarA(user, id, content, envelope), fate, 0)
    {
      AloneStep(View(), AvatarA(user, id, content, envelope), fate, 0);
      if !fate(0) { return false; }
      var key := blobs.PutAccount(id, envelope);
      AloneStep(View(), AvatarB(user, id, content), fate, 1);
      if !fate(1) || id in rows {
        AloneStep(View(), UndoBlob(id), fate, 2);
        if fate(2) { blobs.RemoveAccount(id); }
        return false;
      }
      rows := rows[id := Row(None, user, |content|, Sha256(content))];
      ok := AttachAvatar(user, id, fate);
    }

    method AttachAvatar(user: Uuid, id: Uuid, fate: Fate) returns (ok: bool)
      modifies this, blobs
      ensures (View(), Finished(ok)) == Alone(old(View()), AvatarC(user, id), fate, 2)
    {
      AloneStep(View(), AvatarC(user, id), fate, 2);
      if !fate(2) || !AccountRow(View(), id) {
        UndoAvatar(id, fate, 3);
        return false;
      }
      var prev := AvatarOf(View(), user);
      AloneStep(View(), AvatarD(user, id, prev), fate, 3);
      if !fate(3) {
        UndoAvatar(id, fate, 4);
        return false;
      }
      avatars := avatars[user := id];
      if prev.Some? { RemovePrevious(prev.value, fate, 4); }
      return true;
    }

    method DeleteAvatar(user: Uuid, fate: Fate) returns (ok: bool)
      modifies this, blobs
      ensures (View(), Finished(ok)) == Alone(old(View()), DropA(user), fate, 0)
    {
      AloneStep(View(), DropA(user), fate, 0);
      if !fate(0) || user !in avatars { return false; }
      var prev := avatars[user];
      AloneStep(View(), DropB(user, prev), fate, 1);
      if !fate(1) { return false; }
      avatars := avatars - {user};
      AloneStep(View(), DropC(prev), fate, 2);
      if !fate(2) { return false; }
      blobs.RemoveAccount(prev);
      AloneStep(View(), DropD(prev), fate, 3);
      if !fate(3) || !AccountRow(View(), prev) { return false; }
      DeleteRow(prev);
      return true;
    }
  }
}
