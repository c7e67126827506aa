/**
  When an organization's document has a row without its blob, or a blob without
  its row: exactly, over every run, with steps failing and requests stopping
  anywhere.
 */
module FileDocuments {
  import opened Blobs
  import opened Files
  import opened FileSafety
  import opened FileBytes

  datatype Doc = Doc(org: Uuid, id: Uuid)

  // ------------------------------------------------------------- the history

  predicate Takes(w: World, a: Action, c: Call, ok: bool) {
    a.Step? && a.ok == ok && a.n in w.calls && w.calls[a.n] == c
  }

  // A deletion removes the blob; deletes the row; fails to delete the row.
  predicate Erases(w: World, a: Action, d: Doc) { Takes(w, a, DeleteB(d.org, d.id), true) }
  predicate Drops(w: World, a: Action, d: Doc) {
    Takes(w, a, DeleteC(d.org, d.id), true) && OrgRow(w.store, d.org, d.id)
  }
  predicate Fails(w: World, a: Action, d: Doc) { Takes(w, a, DeleteC(d.org, d.id), false) }

  // A refused upload fails to take its blob back.
  predicate Abandons(w: World, a: Action, d: Doc) { Takes(w, a, UploadUndo(d.org, d.id), false) }

  // What has ever happened to a document.
  datatype Past = Past(erased: bool, dropped: bool, failed: bool, abandoned: bool)

  function Then(w: World, a: Action, d: Doc, p: Past): Past {
    Past(
      p.erased || Erases(w, a, d), p.dropped || Drops(w, a, d),
      p.failed || Fails(w, a, d), p.abandoned || Abandons(w, a, d))
  }

  ghost function History(k: Cipher, actions: seq<Action>, d: Doc): Past {
    if actions == [] then Past(false, false, false, false)
    else
      var n := |actions| - 1;
      Then(Run(k, actions[..n]), actions[n], d, History(k, actions[..n], d))
  }

  // -------------------------------------------------- what is so at every moment

  predicate HasRow(s: Store, d: Doc) { OrgRow(s, d.org, d.id) }

  predicate HasBlob(s: Store, d: Doc) { BlobKey(d.org, d.id) in s.data }

  // Past its blob step, with the row or the undoing still to come.
  predicate Uploading(c: Call, d: Doc) {
    match c
    case UploadB(org, id, _, _) => org == d.org && id == d.id
    case UploadUndo(org, id) => org == d.org && id == d.id
    case _ => false
  }

  ghost predicate InUpload(w: World, d: Doc) { exists n :: n in w.calls && Uploading(w.calls[n], d) }

  ghost predicate InDeletion(w: World, d: Doc) { exists n :: n in w.calls && w.calls[n] == DeleteC(d.org, d.id) }

  ghost predicate NobodyMakes(w: World, id: Uuid) { forall n :: n in w.calls ==> Making(w.calls[n]) != Some(id) }

  ghost predicate NobodyDeletes(w: World, id: Uuid) { forall n :: n in w.calls ==> Deleting(w.calls[n]) != Some(id) }

  ghost predicate RowsRight(w: World, d: Doc, p: Past) {
    && (p.erased && !p.dropped ==> HasRow(w.store, d) && !HasBlob(w.store, d) && (InDeletion(w, d) || p.failed))
    && (HasRow(w.store, d) && !p.erased ==> HasBlob(w.store, d))
    && (p.dropped ==> d.id in w.ids && d.id !in w.store.rows && !HasBlob(w.store, d) && NobodyMakes(w, d.id))
    && (p.dropped ==> p.erased)
  }

  ghost predicate BlobsRight(w: World, d: Doc, p: Past) {
    && (HasBlob(w.store, d) && !HasRow(w.store, d) ==> InUpload(w, d) || p.abandoned)
    && (InUpload(w, d) ==> HasBlob(w.store, d) && !p.erased && !p.abandoned)
    && (p.abandoned ==>
          && d.id in w.ids && d.id !in w.store.rows && HasBlob(w.store, d) && !p.erased
          && NobodyMakes(w, d.id) && NobodyDeletes(w, d.id))
  }

  predicate DeletionRight(s: Store, c: Call, d: Doc, p: Past) {
    && (c == DeleteB(d.org, d.id) ==> HasRow(s, d) || p.dropped)
    && (c == DeleteC(d.org, d.id) ==> p.erased)
  }

  ghost predicate Right(w: World, d: Doc, p: Past) {
    && Kept(w) && RowsRight(w, d, p) && BlobsRight(w, d, p)
    && forall n :: n in w.calls ==> DeletionRight(w.store, w.calls[n], d, p)
  }

  // A call that is neither making nor deleting the file leaves its row and blob.
  lemma {:induction false} Untouched(w: World, n: nat, ok: bool, d: Doc)
    requires Kept(w) && n in w.calls && Making(w.calls[n]) != Some(d.id) && Deleting(w.calls[n]) != Some(d.id)
    ensures var s' := Advance(w.store, w.calls[n], ok).0;
            HasBlob(s', d) == HasBlob(w.store, d) && HasRow(s', d) == HasRow(w.store, d)
    ensures d.id !in w.store.rows ==> d.id !in Advance(w.store, w.calls[n], ok).0.rows
  {
    var c := w.calls[n];
    OtherKey(c, d.org, d.id);
    OneKey(w.store, c, ok, BlobKey(d.org, d.id));
    if d.id in Advance(w.store, c, ok).0.rows { RowsComeFrom(w.store, c, ok, d.id); }
  }

  // Who is uploading or deleting the document after a step by n.
  lemma {:induction false} InFlightAfter(k: Cipher, w: World, n: nat, ok: bool, d: Doc)
    requires n in w.calls
    ensures var w' := Do(k, w, Step(n, ok)); var c' := w'.calls[n];
            && (InUpload(w', d) <==> Uploading(c', d) || exists m :: m in w.calls && m != n && Uploading(w.calls[m], d))
            && (InDeletion(w', d)
                <==> c' == DeleteC(d.org, d.id)
                     || exists m :: m in w.calls && m != n && w.calls[m] == DeleteC(d.org, d.id))
    ensures InUpload(w, d)
            <==> Uploading(w.calls[n], d) || exists m :: m in w.calls && m != n && Uploading(w.calls[m], d)
    ensures InDeletion(w, d)
            <==> w.calls[n] == DeleteC(d.org, d.id)
                 || exists m :: m in w.calls && m != n && w.calls[m] == DeleteC(d.org, d.id)
  {
    var w' := Do(k, w, Step(n, ok));
    assert forall m :: m in w.calls && m != n ==> m in w'.calls && w'.calls[m] == w.calls[m];
  }

  // Nobody starts making a file again, and deleting starts only at a row.
  lemma {:induction false} NobodyAfter(k: Cipher, w: World, n: nat, ok: bool, id: Uuid)
    requires n in w.calls
    ensures NobodyMakes(w, id) ==> NobodyMakes(Do(k, w, Step(n, ok)), id)
    ensures NobodyDeletes(w, id) && id !in w.store.rows ==> NobodyDeletes(Do(k, w, Step(n, ok)), id)
  {
    NextMakesTheSame(w.store, w.calls[n], ok);
    NextSeesStored(w.store, w.calls[n], ok);
  }

  // A request that is about something else.
  lemma {:induction false} ElsewhereRight(k: Cipher, w: World, n: nat, ok: bool, d: Doc, p: Past)
    requires Right(w, d, p) && n in w.calls && Making(w.calls[n]) != Some(d.id) && Deleting(w.calls[n]) != Some(d.id)
    ensures var w' := Do(k, w, Step(n, ok)); RowsRight(w', d, p) && BlobsRight(w', d, p)
    ensures Then(w, Step(n, ok), d, p) == p
  {
    var c := w.calls[n];
    Untouched(w, n, ok, d);
    InFlightAfter(k, w, n, ok, d);
    NobodyAfter(k, w, n, ok, d.id);
    NextMakesTheSame(w.store, c, ok);
    NextIsElsewhere(w.store, c, ok, d);
  }

  lemma {:induction false} NextIsElsewhere(s: Store, c: Call, ok: bool, d: Doc)
    requires Making(c) != Some(d.id) && Deleting(c) != Some(d.id)
    ensures !Uploading(Advance(s, c, ok).1, d) && Advance(s, c, ok).1 != DeleteC(d.org, d.id) && !Uploading(c, d)
  {
  }

  // A request making this file: its upload, or a photo or another organization's.
  lemma {:induction false} MakerRight(k: Cipher, w: World, n: nat, ok: bool, d: Doc, p: Past)
    requires Right(w, d, p) && n in w.calls && Making(w.calls[n]) == Some(d.id)
    ensures var w', p' := Do(k, w, Step(n, ok)), Then(w, Step(n, ok), d, p);
            RowsRight(w', d, p') && BlobsRight(w', d, p')
  {
    var c := w.calls[n];
    assert Sound(w.store, c, w.ids);
    InFlightAfter(k, w, n, ok, d);
    assert !p.dropped && !p.abandoned && !HasRow(w.store, d) && !p.erased;
    assert forall m :: m in w.calls && m != n ==> Apart(c, w.calls[m]) && !Uploading(w.calls[m], d);
    MakerStep(w.store, c, ok, d);
    if Abandons(w, Step(n, ok), d) { AbandonedAlone(k, w, n, d); }
  }

  // What each of its steps does to the document's blob and row.
  lemma {:induction false} MakerStep(s: Store, c: Call, ok: bool, d: Doc)
    requires Making(c) == Some(d.id) && NoRowYet(s, c)
    ensures var (s', c') := Advance(s, c, ok);
            && (HasRow(s', d) <==> c.UploadB? && c.org == d.org && ok)
            && (HasBlob(s', d) <==> (HasBlob(s, d) || (c.UploadA? && c.org == d.org && ok))
                                    && !(c.UploadUndo? && c.org == d.org && ok))
            && (Uploading(c', d) <==> (c.UploadA? && c.org == d.org && ok) || (c.UploadB? && c.org == d.org && !ok))
            && c' != DeleteC(d.org, d.id)
            && (Making(c') != None && d.id in s'.rows ==> !HasRow(s', d))
  {
    if c.UploadA? || c.UploadUndo? {
      KeysApart(c.org, c.id, d.org, d.id);
    } else {
      KeysApart(d.org, d.id, d.org, d.id);
      OneKeyPhoto(s, c, ok, d);
    }
  }

  lemma {:induction false} OneKeyPhoto(s: Store, c: Call, ok: bool, d: Doc)
    requires Making(c) == Some(d.id) && !c.UploadA? && !c.UploadUndo?
    ensures HasBlob(Advance(s, c, ok).0, d) == HasBlob(s, d)
  {
    KeysApart(d.org, d.id, d.org, d.id);
    OneKey(s, c, ok, BlobKey(d.org, d.id));
  }

  lemma {:induction false} AbandonedAlone(k: Cipher, w: World, n: nat, d: Doc)
    requires Kept(w) && n in w.calls && w.calls[n] == UploadUndo(d.org, d.id)
    ensures var w' := Do(k, w, Step(n, false));
            d.id in w'.ids && d.id !in w'.store.rows && NobodyMakes(w', d.id) && NobodyDeletes(w', d.id)
  {
    assert Sound(w.store, w.calls[n], w.ids);
    assert forall m :: m in w.calls && m != n ==> Apart(w.calls[n], w.calls[m]);
  }

  // What a deletion's step does to the document's blob and row.
  lemma {:induction false} DeleterStep(s: Store, c: Call, ok: bool, d: Doc)
    requires Deleting(c) == Some(d.id)
    ensures var (s', c') := Advance(s, c, ok);
            && (HasBlob(s', d) <==> HasBlob(s, d) && !(ok && c == DeleteB(d.org, d.id)))
            && (HasRow(s', d) <==> HasRow(s, d) && !(ok && c == DeleteC(d.org, d.id)))
            && (d.id !in s.rows ==> d.id !in s'.rows)
            && (ok && c == DeleteC(d.org, d.id) && HasRow(s, d) ==> d.id !in s'.rows)
            && (c' == DeleteC(d.org, d.id) <==> ok && c == DeleteB(d.org, d.id))
            && !Uploading(c', d) && !Uploading(c, d)
  {
    KeysApart(c.org, c.id, d.org, d.id);
  }

  // A request deleting a file of this id.
  lemma {:induction false} DeleterRight(k: Cipher, w: World, n: nat, ok: bool, d: Doc, p: Past)
    requires Right(w, d, p) && n in w.calls && Deleting(w.calls[n]) == Some(d.id)
    ensures var w', p' := Do(k, w, Step(n, ok)), Then(w, Step(n, ok), d, p);
            RowsRight(w', d, p') && BlobsRight(w', d, p')
  {
    var c := w.calls[n];
    assert Sound(w.store, c, w.ids) && DeletionRight(w.store, c, d, p);
    InFlightAfter(k, w, n, ok, d);
    NobodyAfter(k, w, n, ok, d.id);
    assert forall m :: m in w.calls && m != n ==> Apart(w.calls[m], c);
    assert NobodyMakes(w, d.id);
    DeleterStep(w.store, c, ok, d);
    NobodyUploads(w, d);
  }

  lemma {:induction false} NobodyUploads(w: World, d: Doc)
    requires NobodyMakes(w, d.id)
    ensures !InUpload(w, d)
  {
  }

  lemma {:induction false} StepDeletionRight(k: Cipher, w: World, n: nat, ok: bool, d: Doc, p: Past, m: nat)
    requires Right(w, d, p) && n in w.calls && m in w.calls
    ensures var w' := Do(k, w, Step(n, ok)); DeletionRight(w'.store, w'.calls[m], d, Then(w, Step(n, ok), d, p))
  {
    var c := w.calls[n];
    assert DeletionRight(w.store, w.calls[m], d, p) && DeletionRight(w.store, c, d, p);
    assert Sound(w.store, c, w.ids);
    if HasRow(w.store, d) { RowStaysOrDrops(w, n, ok, d); }
  }

  lemma {:induction false} RowStaysOrDrops(w: World, n: nat, ok: bool, d: Doc)
    requires Kept(w) && n in w.calls && HasRow(w.store, d)
    ensures HasRow(Advance(w.store, w.calls[n], ok).0, d) || Drops(w, Step(n, ok), d)
  {
    assert Sound(w.store, w.calls[n], w.ids);
  }

  lemma {:induction false} StepRight(k: Cipher, w: World, n: nat, ok: bool, d: Doc, p: Past)
    requires Right(w, d, p) && n in w.calls
    ensures Right(Do(k, w, Step(n, ok)), d, Then(w, Step(n, ok), d, p))
  {
    var w' := Do(k, w, Step(n, ok));
    StepKept(k, w, n, ok);
    forall m | m in w'.calls ensures DeletionRight(w'.store, w'.calls[m], d, Then(w, Step(n, ok), d, p)) {
      StepDeletionRight(k, w, n, ok, d, p, m);
    }
    if Making(w.calls[n]) == Some(d.id) {
      MakerRight(k, w, n, ok, d, p);
    } else if Deleting(w.calls[n]) == Some(d.id) {
      DeleterRight(k, w, n, ok, d, p);
    } else {
      ElsewhereRight(k, w, n, ok, d, p);
    }
  }

  // A request that begins makes a new file, if any, and is past no step.
  lemma {:induction false} Beginner(k: Cipher, w: World, call: Call, d: Doc)
    requires Arrives(k, w, call)
    ensures !Uploading(call, d) && Deleting(call) == None && (Making(call).Some? ==> Making(call).value !in w.ids)
    ensures forall s, p :: DeletionRight(s, call, d, p)
  {
  }

  lemma {:induction false} BeginRight(k: Cipher, w: World, n: nat, call: Call, d: Doc, p: Past)
    requires Right(w, d, p) && n !in w.calls && Arrives(k, w, call)
    ensures Right(Do(k, w, Begin(n, call)), d, p)
  {
    var w' := Do(k, w, Begin(n, call));
    BeginKept(k, w, n, call);
    Beginner(k, w, call, d);
    assert forall m :: m in w.calls ==> m in w'.calls && w'.calls[m] == w.calls[m];
    assert InDeletion(w, d) ==> InDeletion(w', d);
    SameUploads(w, w', n, d);
  }

  lemma {:induction false} SameUploads(w: World, w': World, n: nat, d: Doc)
    requires n !in w.calls && n in w'.calls && w' == World(w.store, w.calls[n := w'.calls[n]], w'.ids, w.log)
    requires !Uploading(w'.calls[n], d)
    ensures InUpload(w', d) <==> InUpload(w, d)
  {
    assert forall m :: m in w.calls ==> m in w'.calls && w'.calls[m] == w.calls[m];
  }

  lemma {:induction false} RunRight(k: Cipher, actions: seq<Action>, d: Doc)
    ensures Right(Run(k, actions), d, History(k, actions, d))
  {
    if actions != [] {
      var n := |actions| - 1;
      var w := Run(k, actions[..n]);
      RunRight(k, actions[..n], d);
      match actions[n]
      case Begin(m, call) =>
        if m !in w.calls && Arrives(k, w, call) { BeginRight(k, w, m, call, d, History(k, actions[..n], d)); }
      case Step(m, ok) => if m in w.calls { StepRight(k, w, m, ok, d, History(k, actions[..n], d)); }
    }
  }

  // ------------------------------------------------------------------ the results

  // In every run a document has a row and no blob exactly when some deletion of it
  // has passed its blob step and none has passed its row step.
  lemma {:induction false} RowWithoutBlobIff(k: Cipher, actions: seq<Action>, d: Doc)
    ensures var s, p := Run(k, actions).store, History(k, actions, d);
            HasRow(s, d) && !HasBlob(s, d) <==> p.erased && !p.dropped
  {
    RunRight(k, actions, d);
  }

  // And a blob and no row exactly when an upload of it is past its blob step and
  // not over, or failed to take the blob back.
  lemma {:induction false} BlobWithoutRowIff(k: Cipher, actions: seq<Action>, d: Doc)
    ensures var w := Run(k, actions);
            HasBlob(w.store, d) && !HasRow(w.store, d) <==> InUpload(w, d) || History(k, actions, d).abandoned
  {
    RunRight(k, actions, d);
    var w := Run(k, actions);
    if n :| n in w.calls && Uploading(w.calls[n], d) { assert Sound(w.store, w.calls[n], w.ids); }
  }

  // So with no failed row deletion, no failed undo, and no upload or deletion under
  // way, document rows and document blobs are exactly one another.
  lemma {:induction false} DocumentsExact(k: Cipher, actions: seq<Action>, d: Doc)
    requires !History(k, actions, d).failed && !History(k, actions, d).abandoned
    requires !InUpload(Run(k, actions), d) && !InDeletion(Run(k, actions), d)
    ensures HasRow(Run(k, actions).store, d) <==> HasBlob(Run(k, actions).store, d)
  {
    RunRight(k, actions, d);
  }
}
