/**
  What is left when photo changes are over: exactly the photos accounts point at,
  as long as no step fails and no pointer moves between another request's read of
  it and its write. The repository's AttachAvatar and DetachAvatar read and write
  in two statements, so it can move, and then a photo is left behind for good.
 */
module FileQuiet {
  import opened Blobs
  import opened Files
  import opened FileSafety

  predicate HasBlob(c: Call, p: Uuid) {
    match c
    case AvatarB(_, id, _) => id == p
    case AvatarC(_, id) => id == p
    case AvatarD(_, id, _) => id == p
    case AvatarE(prev) => prev == p
    case DropC(prev) => prev == p
    case _ => false
  }

  predicate HasRow(c: Call, p: Uuid) {
    match c
    case AvatarC(_, id) => id == p
    case AvatarD(_, id, _) => id == p
    case AvatarE(prev) => prev == p
    case AvatarF(prev) => prev == p
    case DropC(prev) => prev == p
    case DropD(prev) => prev == p
    case _ => false
  }

  ghost predicate BlobDue(w: World, p: Uuid) {
    Pointed(w.store, p) || exists n :: n in w.calls && HasBlob(w.calls[n], p)
  }

  ghost predicate RowDue(w: World, p: Uuid) {
    Pointed(w.store, p) || exists n :: n in w.calls && HasRow(w.calls[n], p)
  }

  // Every photo blob and row is pointed at or some request's business.
  ghost predicate Exact(w: World) {
    && (forall p: Uuid :: AccountKey(p) in w.store.data <==> BlobDue(w, p))
    && (forall p: Uuid :: AccountRow(w.store, p) <==> RowDue(w, p))
    && (forall n, m | n in w.calls && m in w.calls && n != m
        && Removing(w.calls[n]).Some? :: Removing(w.calls[n]) != Removing(w.calls[m]))
    && (forall n :: n in w.calls ==> !w.calls[n].UndoRow? && !w.calls[n].UndoBlob?)
  }

  // The pointer is still what the call read.
  predicate Unmoved(s: Store, c: Call) {
    match c
    case AvatarD(u, _, seen) => AvatarOf(s, u) == seen
    case DropB(u, p) => AvatarOf(s, u) == Some(p)
    case _ => true
  }

  // Begin, or a step that succeeds and finds the pointer unmoved.
  ghost predicate Smooth(w: World, a: Action) {
    a.Step? ==> a.ok && (a.n in w.calls ==> Unmoved(w.store, w.calls[a.n]))
  }

  // Pointers after a smooth step.
  lemma {:induction false} PointedAfter(s: Store, c: Call, ids: set<Uuid>, p: Uuid)
    requires PointersGood(s) && Sound(s, c, ids) && Unmoved(s, c)
    ensures Pointed(Advance(s, c, true).0, p)
            <==> (c.AvatarD? && c.id == p)
                 || (Pointed(s, p) && !(c.AvatarD? && c.seen == Some(p)) && !(c.DropB? && c.prev == p))
  {
    var s' := Advance(s, c, true).0;
    if c.AvatarD? {
      AttachedAfter(s, c, ids, p);
    } else if c.DropB? {
      DetachedAfter(s, c, ids, p);
    } else {
      forall u ensures u in s'.avatars <==> u in s.avatars {
        if u in s.avatars { assert Pointed(s, s.avatars[u]) && Whole(s, s.avatars[u], u); }
      }
    }
  }

  lemma {:induction false} AttachedAfter(s: Store, c: Call, ids: set<Uuid>, p: Uuid)
    requires Sound(s, c, ids) && Unmoved(s, c) && c.AvatarD?
    ensures Pointed(Advance(s, c, true).0, p) <==> c.id == p || (Pointed(s, p) && c.seen != Some(p))
  {
    var s' := Advance(s, c, true).0;
    assert s'.avatars == s.avatars[c.user := c.id];
    assert s'.avatars[c.user] == c.id;
    if Pointed(s, p) && c.seen != Some(p) {
      var u :| u in s.avatars && s.avatars[u] == p;
      assert s'.avatars[u] == p;
    }
  }

  lemma {:induction false} DetachedAfter(s: Store, c: Call, ids: set<Uuid>, p: Uuid)
    requires Sound(s, c, ids) && Unmoved(s, c) && c.DropB?
    ensures Pointed(Advance(s, c, true).0, p) <==> Pointed(s, p) && c.prev != p
  {
    var s' := Advance(s, c, true).0;
    if Pointed(s, p) && c.prev != p {
      var u :| u in s.avatars && s.avatars[u] == p;
      assert s'.avatars[u] == p;
    }
  }

  // Blobs and rows after a smooth step.
  lemma {:induction false} BlobAfter(s: Store, c: Call, p: Uuid)
    requires !c.UndoBlob?
    ensures AccountKey(p) in Advance(s, c, true).0.data
            <==> (c.AvatarA? && c.id == p) || (AccountKey(p) in s.data && !((c.AvatarE? || c.DropC?) && c.prev == p))
  {
    if c.UploadA? || c.UploadUndo? || c.DeleteB? {
      Keys(c.org, c.id, p);
    } else if c.AvatarA? {
      Keys(NIL, c.id, p);
    } else if Removing(c).Some? {
      Keys(NIL, Removing(c).value, p);
    }
  }

  lemma {:induction false} RowAfter(s: Store, c: Call, p: Uuid)
    requires !c.UndoRow? && NoRowYet(s, c)
    ensures AccountRow(Advance(s, c, true).0, p)
            <==> (c.AvatarB? && c.id == p) || (AccountRow(s, p) && !((c.AvatarF? || c.DropD?) && c.prev == p))
  {
  }

  // What the call itself answers for, before and after.
  lemma {:induction false} BlobHandover(s: Store, c: Call, ids: set<Uuid>, p: Uuid)
    requires Sound(s, c, ids) && !c.UndoBlob? && !c.UndoRow?
    ensures HasBlob(Advance(s, c, true).1, p)
            <==> (c.AvatarA? && c.id == p)
                 || (HasBlob(c, p) && !(c.AvatarD? && c.id == p) && !((c.AvatarE? || c.DropC?) && c.prev == p))
                 || (c.AvatarD? && c.seen == Some(p)) || (c.DropB? && c.prev == p)
  {
  }

  lemma {:induction false} RowHandover(s: Store, c: Call, ids: set<Uuid>, p: Uuid)
    requires Sound(s, c, ids) && !c.UndoBlob? && !c.UndoRow?
    ensures HasRow(Advance(s, c, true).1, p)
            <==> (c.AvatarB? && c.id == p)
                 || (HasRow(c, p) && !(c.AvatarD? && c.id == p) && !((c.AvatarF? || c.DropD?) && c.prev == p))
                 || (c.AvatarD? && c.seen == Some(p)) || (c.DropB? && c.prev == p)
  {
  }

  lemma {:induction false} NothingUndone(s: Store, c: Call, ids: set<Uuid>)
    requires Sound(s, c, ids) && !c.UndoBlob? && !c.UndoRow?
    ensures !Advance(s, c, true).1.UndoRow? && !Advance(s, c, true).1.UndoBlob?
  {
  }

  ghost predicate OtherBlob(w: World, n: nat, p: Uuid) { exists m :: m in w.calls && m != n && HasBlob(w.calls[m], p) }

  ghost predicate OtherRow(w: World, n: nat, p: Uuid) { exists m :: m in w.calls && m != n && HasRow(w.calls[m], p) }

  lemma {:induction false} DueAfter(k: Cipher, w: World, n: nat, p: Uuid)
    requires n in w.calls
    ensures var w' := Do(k, w, Step(n, true));
            && (BlobDue(w', p) <==> Pointed(w'.store, p) || HasBlob(w'.calls[n], p) || OtherBlob(w, n, p))
            && (RowDue(w', p) <==> Pointed(w'.store, p) || HasRow(w'.calls[n], p) || OtherRow(w, n, p))
    ensures BlobDue(w, p) <==> Pointed(w.store, p) || HasBlob(w.calls[n], p) || OtherBlob(w, n, p)
    ensures RowDue(w, p) <==> Pointed(w.store, p) || HasRow(w.calls[n], p) || OtherRow(w, n, p)
  {
    var w' := Do(k, w, Step(n, true));
    assert forall m :: m in w.calls && m != n ==> w'.calls[m] == w.calls[m];
  }

  // A photo being taken away is nobody else's.
  lemma {:induction false} SoleRemover(w: World, n: nat, p: Uuid)
    requires Kept(w) && Exact(w) && n in w.calls && Removing(w.calls[n]) == Some(p)
    ensures !Pointed(w.store, p) && !OtherBlob(w, n, p) && !OtherRow(w, n, p)
  {
    assert Sound(w.store, w.calls[n], w.ids);
    forall m | m in w.calls && m != n ensures !HasBlob(w.calls[m], p) && !HasRow(w.calls[m], p) {
      assert Apart(w.calls[m], w.calls[n]);
      assert Removing(w.calls[m]) != Some(p);
    }
  }

  lemma {:induction false} StepExactAt(k: Cipher, w: World, n: nat, p: Uuid)
    requires Kept(w) && Exact(w) && n in w.calls && Unmoved(w.store, w.calls[n])
    ensures var w' := Do(k, w, Step(n, true));
            && (AccountKey(p) in w'.store.data <==> BlobDue(w', p))
            && (AccountRow(w'.store, p) <==> RowDue(w', p))
  {
    var c := w.calls[n];
    assert Sound(w.store, c, w.ids);
    PointedAfter(w.store, c, w.ids, p);
    BlobAfter(w.store, c, p);
    RowAfter(w.store, c, p);
    BlobHandover(w.store, c, w.ids, p);
    RowHandover(w.store, c, w.ids, p);
    DueAfter(k, w, n, p);
    if Removing(c) == Some(p) { SoleRemover(w, n, p); }
  }

  lemma {:induction false} StepOneRemover(k: Cipher, w: World, n: nat, m: nat)
    requires Kept(w) && Exact(w) && n in w.calls && m in w.calls && m != n && Unmoved(w.store, w.calls[n])
    ensures var c' := Advance(w.store, w.calls[n], true).1;
            Removing(c').Some? ==> Removing(c') != Removing(w.calls[m])
  {
    var c := w.calls[n];
    var c' := Advance(w.store, c, true).1;
    NextMakesTheSame(w.store, c, true);
    assert Sound(w.store, w.calls[m], w.ids);
    if Removing(c').Some? && Removing(c') != Removing(c) {
      assert Pointed(w.store, Removing(c').value);
    }
  }

  lemma {:induction false} StepExact(k: Cipher, w: World, n: nat)
    requires Kept(w) && Exact(w) && n in w.calls && Unmoved(w.store, w.calls[n])
    ensures Exact(Do(k, w, Step(n, true)))
  {
    var w' := Do(k, w, Step(n, true));
    forall p: Uuid ensures AccountKey(p) in w'.store.data <==> BlobDue(w', p) { StepExactAt(k, w, n, p); }
    forall p: Uuid ensures AccountRow(w'.store, p) <==> RowDue(w', p) { StepExactAt(k, w, n, p); }
    forall m, x | m in w'.calls && x in w'.calls && m != x && Removing(w'.calls[m]).Some?
      ensures Removing(w'.calls[m]) != Removing(w'.calls[x])
    {
      if m == n { StepOneRemover(k, w, n, x); }
      if x == n { StepOneRemover(k, w, n, m); }
    }
    assert Sound(w.store, w.calls[n], w.ids);
    NothingUndone(w.store, w.calls[n], w.ids);
  }

  lemma {:induction false} BeginExact(k: Cipher, w: World, n: nat, call: Call)
    requires Exact(w) && n !in w.calls && Arrives(k, w, call)
    ensures Exact(Do(k, w, Begin(n, call)))
  {
    var w' := Do(k, w, Begin(n, call));
    forall p: Uuid ensures (BlobDue(w', p) <==> BlobDue(w, p)) && (RowDue(w', p) <==> RowDue(w, p)) {
      assert forall m :: m in w.calls ==> w'.calls[m] == w.calls[m];
    }
  }

  ghost predicate AllSmooth(k: Cipher, actions: seq<Action>) {
    forall i :: 0 <= i < |actions| ==> Smooth(Run(k, actions[..i]), actions[i])
  }

  lemma {:induction false} RunExact(k: Cipher, actions: seq<Action>)
    requires AllSmooth(k, actions)
    ensures Exact(Run(k, actions))
  {
    if actions != [] {
      var n := |actions| - 1;
      forall i | 0 <= i < n ensures Smooth(Run(k, actions[..n][..i]), actions[..n][i]) {
        assert actions[..n][..i] == actions[..i];
      }
      RunExact(k, actions[..n]);
      RunKept(k, actions[..n]);
      var w := Run(k, actions[..n]);
      assert Smooth(w, actions[n]);
      match actions[n]
      case Begin(m, call) => if m !in w.calls && Arrives(k, w, call) { BeginExact(k, w, m, call); }
      case Step(m, _) => if m in w.calls { StepExact(k, w, m); }
    }
  }

  // With no failures, no pointer moving under a request, and nothing in flight,
  // photo blobs, photo rows and pointers are exactly one another.
  lemma {:induction false} QuietIsExact(k: Cipher, actions: seq<Action>, p: Uuid)
    requires AllSmooth(k, actions) && forall n :: n in Run(k, actions).calls ==> Run(k, actions).calls[n].Finished?
    ensures var s := Run(k, actions).store;
            (AccountKey(p) in s.data <==> Pointed(s, p)) && (AccountRow(s, p) <==> Pointed(s, p))
  {
    RunExact(k, actions);
  }

  // --------------------------------------------------------- a photo left behind

  // No request is making, taking away or about to replace this photo.
  ghost predicate Nobodys(w: World, p: Uuid) {
    forall n :: n in w.calls ==>
        Making(w.calls[n]) != Some(p) && Removing(w.calls[n]) != Some(p) && Saw(w.calls[n]) != Some(p)
  }

  // Stored, pointed at by nobody, and nobody's business.
  ghost predicate Orphan(w: World, p: Uuid) {
    && p in w.ids && AccountRow(w.store, p) && AccountKey(p) in w.store.data && !Pointed(w.store, p)
    && Nobodys(w, p)
  }

  lemma {:induction false} StepOrphan(k: Cipher, w: World, n: nat, ok: bool, p: Uuid)
    requires Kept(w) && Orphan(w, p) && n in w.calls
    ensures Orphan(Do(k, w, Step(n, ok)), p)
  {
    var c := w.calls[n];
    NextMakesTheSame(w.store, c, ok);
    NextSeesStored(w.store, c, ok);
    BlobStays(w.store, c, ok, p);
    WholeStays(w.store, c, ok, p, w.store.rows[p].owner);
    forall u | u in Advance(w.store, c, ok).0.avatars ensures Advance(w.store, c, ok).0.avatars[u] != p {
      PointerFrom(w.store, c, ok, u);
    }
  }

  // Once left behind, a photo stays behind, whatever else happens.
  lemma {:induction false} OrphanForGood(k: Cipher, actions: seq<Action>, i: nat, p: Uuid)
    requires i <= |actions| && Orphan(Run(k, actions[..i]), p)
    ensures Orphan(Run(k, actions), p)
    decreases |actions|
  {
    if i < |actions| {
      var n := |actions| - 1;
      assert actions[..n][..i] == actions[..i];
      OrphanForGood(k, actions[..n], i, p);
      RunKept(k, actions[..n]);
      var w := Run(k, actions[..n]);
      match actions[n]
      case Begin(m, call) =>
      case Step(m, ok) => if m in w.calls { StepOrphan(k, w, m, ok, p); }
    } else {
      assert actions[..i] == actions;
    }
  }

  lemma {:induction false} Attached(k: Cipher, w: World, n: nat)
    requires Kept(w) && n in w.calls && w.calls[n].AvatarD?
    ensures var c := w.calls[n]; var w' := Do(k, w, Step(n, true));
            && w'.store == Store(w.store.data, w.store.rows, w.store.avatars[c.user := c.id]) && w'.ids == w.ids
            && w'.calls == w.calls[n := if c.seen.Some? then AvatarE(c.seen.value) else Finished(true)]
            && Whole(w.store, c.id, c.user) && !Pointed(w.store, c.id) && c.id in w.ids && c.seen != Some(c.id)
  {
    assert Sound(w.store, w.calls[n], w.ids);
  }

  // Nobody but its maker ever knew of a photo that has just been attached.
  lemma {:induction false} AttachedIsNobodys(k: Cipher, w: World, n: nat)
    requires Kept(w) && n in w.calls && w.calls[n].AvatarD?
    ensures Nobodys(Do(k, w, Step(n, true)), w.calls[n].id)
  {
    Attached(k, w, n);
    assert forall m :: m in w.calls && m != n ==> Apart(w.calls[n], w.calls[m]);
  }

  lemma {:induction false} StaysNobodys(k: Cipher, w: World, n: nat, p: Uuid)
    requires Kept(w) && Nobodys(w, p) && n in w.calls && w.calls[n].AvatarD?
    ensures Nobodys(Do(k, w, Step(n, true)), p)
  {
    Attached(k, w, n);
  }

  // Two requests of one account that have both read its pointer, and then both
  // write: the first one's photo is left behind. Nothing fails.
  lemma {:induction false} TwoAtOnceLeaveOne(k: Cipher, w: World, n: nat, m: nat)
    requires Kept(w) && n in w.calls && m in w.calls && n != m
    requires w.calls[n].AvatarD? && w.calls[m].AvatarD? && w.calls[n].user == w.calls[m].user
    ensures Orphan(Do(k, Do(k, w, Step(n, true)), Step(m, true)), w.calls[n].id)
  {
    var c, d := w.calls[n], w.calls[m];
    var one := Do(k, w, Step(n, true));
    StepKept(k, w, n, true);
    assert Apart(c, d) && Apart(d, c) && Sound(one.store, d, one.ids);
    Attached(k, w, n);
    Attached(k, one, m);
    var two := Do(k, one, Step(m, true));
    forall u | u in two.store.avatars ensures two.store.avatars[u] != c.id {
      assert u != c.user ==> u in w.store.avatars && w.store.avatars[u] == two.store.avatars[u];
      assert u in w.store.avatars ==> Pointed(w.store, w.store.avatars[u]);
    }
    AttachedIsNobodys(k, w, n);
    StaysNobodys(k, one, m, c.id);
  }

  // A photo change that has just begun, up to the point where it has read the pointer.
  ghost function HasRead(k: Cipher, w: World, n: nat): World {
    Do(k, Do(k, Do(k, w, Step(n, true)), Step(n, true)), Step(n, true))
  }

  function Onward(s: Store, c: Call): Call
    requires c.AvatarA? || c.AvatarB? || c.AvatarC?
  {
    match c
    case AvatarA(user, id, content, _) => AvatarB(user, id, content)
    case AvatarB(user, id, _) => AvatarC(user, id)
    case AvatarC(user, id) => AvatarD(user, id, AvatarOf(s, user))
  }

  lemma {:induction false} TowardsRead(k: Cipher, w: World, n: nat)
    requires Kept(w) && n in w.calls && (w.calls[n].AvatarA? || w.calls[n].AvatarB? || w.calls[n].AvatarC?)
    ensures var w' := Do(k, w, Step(n, true));
            Kept(w') && w'.store.avatars == w.store.avatars && w'.calls == w.calls[n := Onward(w.store, w.calls[n])]
  {
    StepKept(k, w, n, true);
    assert Sound(w.store, w.calls[n], w.ids);
  }

  lemma {:induction false} ReachesRead(k: Cipher, w: World, n: nat)
    requires Kept(w) && n in w.calls && w.calls[n].AvatarA?
    ensures var r := HasRead(k, w, n);
            && Kept(r) && r.store.avatars == w.store.avatars
            && r.calls == w.calls[n := AvatarD(w.calls[n].user, w.calls[n].id, AvatarOf(w.store, w.calls[n].user))]
  {
    TowardsRead(k, w, n);
    FromTheRow(k, Do(k, w, Step(n, true)), n);
  }

  lemma {:induction false} FromTheRow(k: Cipher, w: World, n: nat)
    requires Kept(w) && n in w.calls && w.calls[n].AvatarB?
    ensures var r := Do(k, Do(k, w, Step(n, true)), Step(n, true));
            && Kept(r) && r.store.avatars == w.store.avatars
            && r.calls == w.calls[n := AvatarD(w.calls[n].user, w.calls[n].id, AvatarOf(w.store, w.calls[n].user))]
  {
    TowardsRead(k, w, n);
    TowardsRead(k, Do(k, w, Step(n, true)), n);
  }

  // So any two photo changes of one account that have begun can leave a photo
  // behind that no later request ever removes.
  lemma {:induction false} PhotosCanBeLeftBehind(k: Cipher, w: World, n: nat, m: nat)
    requires Kept(w) && n in w.calls && m in w.calls && n != m
    requires w.calls[n].AvatarA? && w.calls[m].AvatarA? && w.calls[n].user == w.calls[m].user
    ensures Orphan(Do(k, Do(k, HasRead(k, HasRead(k, w, n), m), Step(n, true)), Step(m, true)), w.calls[n].id)
  {
    ReachesRead(k, w, n);
    ReachesRead(k, HasRead(k, w, n), m);
    TwoAtOnceLeaveOne(k, HasRead(k, HasRead(k, w, n), m), n, m);
  }
}
