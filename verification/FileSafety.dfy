/**
  What every interleaving of uploads, deletions and photo changes keeps, with
  steps failing and requests stopping anywhere.
 */
module FileSafety {
  import opened Blobs
  import opened Files

  // ------------------------------------------------------- the avatar pointer

  ghost predicate Pointed(s: Store, p: Uuid) { exists u :: u in s.avatars && s.avatars[u] == p }

  // A photo that is all there.
  predicate Whole(s: Store, p: Uuid, owner: Uuid) {
    p in s.rows && s.rows[p].org == None && s.rows[p].owner == owner && AccountKey(p) in s.data
  }

  ghost predicate PointersGood(s: Store) { forall u :: u in s.avatars ==> Whole(s, s.avatars[u], u) }

  // The photo a call is taking away.
  function Removing(c: Call): Option<Uuid> {
    match c
    case AvatarE(p) => Some(p)
    case AvatarF(p) => Some(p)
    case DropC(p) => Some(p)
    case DropD(p) => Some(p)
    case _ => None
  }

  // The document a call is deleting.
  function Deleting(c: Call): Option<Uuid> {
    match c
    case DeleteB(_, id) => Some(id)
    case DeleteC(_, id) => Some(id)
    case _ => None
  }

  // The pointer a call has read and not yet replaced.
  function SawUser(c: Call): Option<Uuid> {
    match c
    case AvatarD(u, _, seen) => if seen.Some? then Some(u) else None
    case DropB(u, _) => Some(u)
    case _ => None
  }

  function Saw(c: Call): Option<Uuid> {
    match c
    case AvatarD(_, _, seen) => seen
    case DropB(_, p) => Some(p)
    case _ => None
  }

  predicate Ready(s: Store, c: Call) {
    match c
    case AvatarB(_, id, _) => AccountKey(id) in s.data
    case AvatarC(u, id) => Whole(s, id, u)
    case AvatarD(u, id, _) => Whole(s, id, u)
    case _ => true
  }

  predicate Known(c: Call, ids: set<Uuid>) {
    && (Making(c).Some? ==> Making(c).value in ids)
    && (Removing(c).Some? ==> Removing(c).value in ids)
    && (Deleting(c).Some? ==> Deleting(c).value in ids)
    && (Saw(c).Some? ==> Saw(c).value in ids)
    && (c.AvatarD? && c.seen.Some? ==> c.seen.value != c.id)
  }

  // A file being made has no row before its own call creates it, and no
  // organization's row ever.
  predicate NoRowYet(s: Store, c: Call) {
    && (c.UploadA? || c.UploadB? || c.UploadUndo? || c.AvatarA? || c.AvatarB? ==> c.id !in s.rows)
    && (Making(c).Some? && Making(c).value in s.rows ==> s.rows[Making(c).value].org == None)
  }

  ghost predicate OnlyOf(s: Store, p: Uuid, u: Uuid) { forall v :: v in s.avatars && s.avatars[v] == p ==> v == u }

  // What is being made or taken away is nobody's photo; what was seen is one
  // account's at most.
  ghost predicate Unpointed(s: Store, c: Call) {
    && (Making(c).Some? ==> !Pointed(s, Making(c).value))
    && (Removing(c).Some? ==> !Pointed(s, Removing(c).value))
    && (Saw(c).Some? ==> OnlyOf(s, Saw(c).value, SawUser(c).value))
  }

  // What a call relies on about the store.
  ghost predicate Sound(s: Store, c: Call, ids: set<Uuid>) {
    Known(c, ids) && Ready(s, c) && NoRowYet(s, c) && Unpointed(s, c)
  }

  // What a call is making is nobody else's business.
  predicate Apart(c: Call, d: Call) {
    Making(c).Some? ==>
        Making(d) != Making(c) && Removing(d) != Making(c) && Saw(d) != Making(c) && Deleting(d) != Making(c)
  }

  ghost predicate Kept(w: World) {
    && PointersGood(w.store)
    && (forall p :: p in w.store.rows ==> p in w.ids)
    && (forall n :: n in w.calls ==> Sound(w.store, w.calls[n], w.ids))
    && (forall n, m | n in w.calls && m in w.calls && n != m :: Apart(w.calls[n], w.calls[m]))
  }

  lemma {:induction false} Keys(org: Uuid, id: Uuid, p: Uuid)
    ensures BlobKey(org, id) != AccountKey(p) && (AccountKey(id) == AccountKey(p) ==> id == p)
  {
    KeysApart(org, id, org, p);
  }

  // A step touches, among photos, only the ones its call makes or takes away.
  lemma {:induction false} WholeStays(s: Store, c: Call, ok: bool, p: Uuid, owner: Uuid)
    requires Whole(s, p, owner) && Making(c) != Some(p) && Removing(c) != Some(p)
    ensures Whole(Advance(s, c, ok).0, p, owner)
  {
    if c.UploadA? || c.UploadUndo? || c.DeleteB? {
      Keys(c.org, c.id, p);
    } else if Making(c).Some? {
      Keys(NIL, Making(c).value, p);
    } else if Removing(c).Some? {
      Keys(NIL, Removing(c).value, p);
    }
  }

  // Where a pointer comes from after a step.
  lemma {:induction false} PointerFrom(s: Store, c: Call, ok: bool, u: Uuid)
    requires u in Advance(s, c, ok).0.avatars
    ensures var p := Advance(s, c, ok).0.avatars[u];
            (u in s.avatars && s.avatars[u] == p) || (c.AvatarD? && c.user == u && c.id == p)
  {
  }

  lemma {:induction false} PointersStayGood(s: Store, c: Call, ok: bool, ids: set<Uuid>)
    requires PointersGood(s) && Sound(s, c, ids)
    ensures PointersGood(Advance(s, c, ok).0)
  {
    var s' := Advance(s, c, ok).0;
    forall u | u in s'.avatars ensures Whole(s', s'.avatars[u], u) {
      PointerFrom(s, c, ok, u);
      if u in s.avatars && s.avatars[u] == s'.avatars[u] {
        assert Pointed(s, s.avatars[u]);
        WholeStays(s, c, ok, s.avatars[u], u);
      }
    }
  }

  // After its own step a call still relies only on what is so.
  lemma {:induction false} NextIsSound(s: Store, c: Call, ok: bool, ids: set<Uuid>)
    requires PointersGood(s) && Sound(s, c, ids) && forall p :: p in s.rows ==> p in ids
    ensures Sound(Advance(s, c, ok).0, Advance(s, c, ok).1, ids)
  {
    NextIsReady(s, c, ok, ids);
    NextIsUnpointed(s, c, ok, ids);
  }

  lemma {:induction false} NextIsReady(s: Store, c: Call, ok: bool, ids: set<Uuid>)
    requires PointersGood(s) && Sound(s, c, ids) && forall p :: p in s.rows ==> p in ids
    ensures var (s', c') := Advance(s, c, ok); Known(c', ids) && Ready(s', c') && NoRowYet(s', c')
  {
    var c' := Advance(s, c, ok).1;
    if Saw(c').Some? && Saw(c') != Saw(c) { assert Pointed(s, Saw(c').value); }
  }

  lemma {:induction false} NextIsUnpointed(s: Store, c: Call, ok: bool, ids: set<Uuid>)
    requires PointersGood(s) && Sound(s, c, ids)
    ensures Unpointed(Advance(s, c, ok).0, Advance(s, c, ok).1)
  {
    if c.AvatarD? {
      AttachUnpoints(s, c, ok, ids);
    } else if c.DropB? {
      assert Advance(s, c, ok).0.avatars == s.avatars || Advance(s, c, ok).0.avatars == s.avatars - {c.user};
    } else {
      forall u | u in Advance(s, c, ok).0.avatars
        ensures u in s.avatars && s.avatars[u] == Advance(s, c, ok).0.avatars[u]
      {
        PointerFrom(s, c, ok, u);
      }
      RestUnpoint(s, c, ok, ids);
    }
  }

  // Once the pointer has moved on, the photo it named is nobody's.
  lemma {:induction false} AttachUnpoints(s: Store, c: Call, ok: bool, ids: set<Uuid>)
    requires Sound(s, c, ids) && c.AvatarD?
    ensures Unpointed(Advance(s, c, ok).0, Advance(s, c, ok).1)
  {
  }

  lemma {:induction false} RestUnpoint(s: Store, c: Call, ok: bool, ids: set<Uuid>)
    requires PointersGood(s) && Sound(s, c, ids) && !c.AvatarD? && !c.DropB?
    requires forall u :: u in Advance(s, c, ok).0.avatars ==>
        u in s.avatars && s.avatars[u] == Advance(s, c, ok).0.avatars[u]
    ensures Unpointed(Advance(s, c, ok).0, Advance(s, c, ok).1)
  {
    var (s', c') := Advance(s, c, ok);
    assert forall p :: Pointed(s', p) ==> Pointed(s, p);
    assert Making(c') == None || Making(c') == Making(c);
    assert Removing(c') == None || Removing(c') == Removing(c);
  }

  // And so does every other.
  lemma {:induction false} OthersStaySound(s: Store, c: Call, ok: bool, d: Call, ids: set<Uuid>)
    requires Sound(s, c, ids) && Sound(s, d, ids) && Apart(c, d) && Apart(d, c)
    ensures Sound(Advance(s, c, ok).0, d, ids)
  {
    var s' := Advance(s, c, ok).0;
    forall u | u in s'.avatars
      ensures (u in s.avatars && s.avatars[u] == s'.avatars[u]) || (c.AvatarD? && c.user == u && c.id == s'.avatars[u])
    {
      PointerFrom(s, c, ok, u);
    }
    OthersStayReady(s, c, ok, d);
    OthersStayRowless(s, c, ok, d);
  }

  lemma {:induction false} OthersStayRowless(s: Store, c: Call, ok: bool, d: Call)
    requires NoRowYet(s, d) && Apart(c, d) && Apart(d, c)
    ensures NoRowYet(Advance(s, c, ok).0, d)
  {
    if Making(d).Some? && Making(d).value in Advance(s, c, ok).0.rows { RowsComeFrom(s, c, ok, Making(d).value); }
  }

  lemma {:induction false} OthersStayReady(s: Store, c: Call, ok: bool, d: Call)
    requires Ready(s, d) && Apart(c, d) && Apart(d, c)
    ensures Ready(Advance(s, c, ok).0, d)
  {
    match d
    case AvatarB(_, id, _) => BlobStays(s, c, ok, id);
    case AvatarC(u, id) => WholeStays(s, c, ok, id, u);
    case AvatarD(u, id, _) => WholeStays(s, c, ok, id, u);
    case _ =>
  }

  lemma {:induction false} BlobStays(s: Store, c: Call, ok: bool, p: Uuid)
    requires AccountKey(p) in s.data && Making(c) != Some(p) && Removing(c) != Some(p)
    ensures AccountKey(p) in Advance(s, c, ok).0.data
        && Advance(s, c, ok).0.data[AccountKey(p)] == s.data[AccountKey(p)]
  {
    if c.UploadA? || c.UploadUndo? || c.DeleteB? {
      Keys(c.org, c.id, p);
    } else if Making(c).Some? {
      Keys(NIL, Making(c).value, p);
    } else if Removing(c).Some? {
      Keys(NIL, Removing(c).value, p);
    }
  }

  // A call only ever goes from making a file to taking away the one it saw.
  lemma {:induction false} NextMakesTheSame(s: Store, c: Call, ok: bool)
    ensures var c' := Advance(s, c, ok).1;
            && (Making(c') == None || Making(c') == Making(c))
            && (Removing(c') == None || Removing(c') == Removing(c) || Removing(c') == Saw(c))
  {
  }

  // What it newly looks at or deletes is a file that is already there.
  lemma {:induction false} NextSeesStored(s: Store, c: Call, ok: bool)
    ensures var c' := Advance(s, c, ok).1;
            && (Saw(c') == None || Saw(c') == Saw(c) || Pointed(s, Saw(c').value))
            && (Deleting(c') == None || Deleting(c') == Deleting(c)
                || (Deleting(c').value in s.rows && s.rows[Deleting(c').value].org != None))
  {
    if c.DropA? && c.user in s.avatars { assert Pointed(s, s.avatars[c.user]); }
    if c.AvatarC? && c.user in s.avatars { assert Pointed(s, s.avatars[c.user]); }
  }

  lemma {:induction false} NextIsApart(s: Store, c: Call, ok: bool, d: Call, ids: set<Uuid>)
    requires PointersGood(s) && Sound(s, c, ids) && Sound(s, d, ids) && Apart(c, d) && Apart(d, c)
    ensures Apart(Advance(s, c, ok).1, d) && Apart(d, Advance(s, c, ok).1)
  {
    NextMakesTheSame(s, c, ok);
    NextSeesStored(s, c, ok);
  }

  lemma {:induction false} RowsComeFrom(s: Store, c: Call, ok: bool, p: Uuid)
    requires p in Advance(s, c, ok).0.rows
    ensures (p in s.rows && Advance(s, c, ok).0.rows[p] == s.rows[p]) || Making(c) == Some(p)
  {
  }

  lemma {:induction false} StepKept(k: Cipher, w: World, n: nat, ok: bool)
    requires Kept(w) && n in w.calls
    ensures Kept(Do(k, w, Step(n, ok)))
  {
    var c := w.calls[n];
    var w' := Do(k, w, Step(n, ok));
    PointersStayGood(w.store, c, ok, w.ids);
    forall p | p in w'.store.rows ensures p in w'.ids { RowsComeFrom(w.store, c, ok, p); }
    forall m | m in w'.calls ensures Sound(w'.store, w'.calls[m], w'.ids) {
      if m == n { NextIsSound(w.store, c, ok, w.ids); } else { OthersStaySound(w.store, c, ok, w.calls[m], w.ids); }
    }
    forall m, x | m in w'.calls && x in w'.calls && m != x ensures Apart(w'.calls[m], w'.calls[x]) {
      if m == n { NextIsApart(w.store, c, ok, w.calls[x], w.ids); }
      if x == n { NextIsApart(w.store, c, ok, w.calls[m], w.ids); }
    }
  }

  lemma {:induction false} BeginKept(k: Cipher, w: World, n: nat, call: Call)
    requires Kept(w) && n !in w.calls && Arrives(k, w, call)
    ensures Kept(Do(k, w, Begin(n, call)))
  {
    var w' := Do(k, w, Begin(n, call));
    assert Removing(call) == None && Saw(call) == None && Deleting(call) == None;
    if Making(call).Some? {
      var id := Making(call).value;
      assert id !in w.ids;
      forall u | u in w.store.avatars ensures w.store.avatars[u] != id { assert Whole(w.store, w.store.avatars[u], u); }
    }
    forall m | m in w'.calls ensures Sound(w'.store, w'.calls[m], w'.ids) {
      if m != n { assert Sound(w.store, w.calls[m], w.ids); }
    }
    forall m, x | m in w'.calls && x in w'.calls && m != x ensures Apart(w'.calls[m], w'.calls[x]) {
      if m != n { assert Sound(w.store, w.calls[m], w.ids); }
      if x != n { assert Sound(w.store, w.calls[x], w.ids); }
    }
  }

  lemma {:induction false} RunKept(k: Cipher, actions: seq<Action>)
    ensures Kept(Run(k, actions))
  {
    if actions != [] {
      var n := |actions| - 1;
      var w := Run(k, actions[..n]);
      RunKept(k, actions[..n]);
      match actions[n]
      case Begin(m, call) => if m !in w.calls && Arrives(k, w, call) { BeginKept(k, w, m, call); }
      case Step(m, ok) => if m in w.calls { StepKept(k, w, m, ok); }
    }
  }

  // However photo changes interleave, fail or stop, an account's pointer is unset
  // or names a photo of that account whose row and blob are both there.
  lemma {:induction false} PointerNeverDangles(k: Cipher, actions: seq<Action>, u: Uuid)
    ensures var s := Run(k, actions).store;
            u in s.avatars ==> Whole(s, s.avatars[u], u)
  {
    RunKept(k, actions);
  }
}
