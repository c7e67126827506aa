/**
  Which photos are left when photo changes overlap: an exact account of every
  run in which no step fails and every request has finished.
 */
module FilePhotos {
  import opened Blobs
  import opened Files
  import opened FileSafety
  import opened FileQuiet

  // ------------------------------------------------------------- the history

  // A pointer write that takes effect.
  predicate Writes(w: World, a: Action) {
    && a.Step? && a.ok && a.n in w.calls
    && ((w.calls[a.n].AvatarD? && w.calls[a.n].id in w.store.rows) || w.calls[a.n].DropB?)
  }

  // The photo this step attaches.
  function Attaches(w: World, a: Action): set<Uuid> {
    if Writes(w, a) && w.calls[a.n].AvatarD? then {w.calls[a.n].id} else {}
  }

  // The photo whose pointer the writing request had read: it takes that one away.
  function Takes(w: World, a: Action): set<Uuid> {
    if Writes(w, a) && Saw(w.calls[a.n]).Some? then {Saw(w.calls[a.n]).value} else {}
  }

  // The photo this step replaces or detaches without having read it.
  function Overwrites(w: World, a: Action): set<Uuid> {
    if !Writes(w, a) then {}
    else
      var c := w.calls[a.n];
      if AvatarOf(w.store, c.user).Some? && Saw(c) != AvatarOf(w.store, c.user) then {AvatarOf(w.store, c.user).value}
          else {}
  }

  ghost function Attached(k: Cipher, actions: seq<Action>): set<Uuid> {
    if actions == [] then {}
    else
      var n := |actions| - 1;
      Attached(k, actions[..n]) + Attaches(Run(k, actions[..n]), actions[n])
  }

  ghost function Taken(k: Cipher, actions: seq<Action>): set<Uuid> {
    if actions == [] then {}
    else
      var n := |actions| - 1;
      Taken(k, actions[..n]) + Takes(Run(k, actions[..n]), actions[n])
  }

  ghost function Overwritten(k: Cipher, actions: seq<Action>): set<Uuid> {
    if actions == [] then {}
    else
      var n := |actions| - 1;
      Overwritten(k, actions[..n]) + Overwrites(Run(k, actions[..n]), actions[n])
  }

  predicate Flawless(actions: seq<Action>) { forall a :: a in actions && a.Step? ==> a.ok }

  // ----------------------------------------------------- what a step keeps of it

  ghost predicate BlobHeld(w: World, p: Uuid) { exists n :: n in w.calls && HasBlob(w.calls[n], p) }

  ghost predicate RowHeld(w: World, p: Uuid) { exists n :: n in w.calls && HasRow(w.calls[n], p) }

  // An attached photo nobody took is whole; any other is some request's business.
  ghost predicate StoredWell(w: World, att: set<Uuid>, took: set<Uuid>) {
    && (forall p: Uuid :: p in att && p !in took ==> AccountRow(w.store, p) && AccountKey(p) in w.store.data)
    && (forall p: Uuid :: (p !in att || p in took) && AccountKey(p) in w.store.data ==> BlobHeld(w, p))
    && (forall p: Uuid :: (p !in att || p in took) && AccountRow(w.store, p) ==> RowHeld(w, p))
  }

  predicate CallWell(c: Call, att: set<Uuid>, took: set<Uuid>) {
    && (Saw(c).Some? ==> Saw(c).value in att)
    && (Removing(c).Some? ==> Removing(c).value in took)
    && (Making(c).Some? ==> Making(c).value !in att)
    && !c.UndoRow? && !c.UndoBlob?
  }

  // What pointers have to do with it: a photo is pointed at from when it is
  // attached until it is taken or overwritten.
  ghost predicate PointedWell(w: World, att: set<Uuid>, took: set<Uuid>, lost: set<Uuid>) {
    && (forall p: Uuid :: Pointed(w.store, p) <==> p in att && p !in took && p !in lost)
    && took <= att && lost <= att
  }

  ghost predicate Tracked(w: World, att: set<Uuid>, took: set<Uuid>, lost: set<Uuid>) {
    && Kept(w) && att <= w.ids
    && StoredWell(w, att, took) && PointedWell(w, att, took, lost)
    && forall n :: n in w.calls ==> CallWell(w.calls[n], att, took)
  }

  // A pointer write in detail.
  lemma {:induction false} WriteMoves(w: World, a: Action)
    requires Kept(w) && Writes(w, a)
    ensures var c, s' := w.calls[a.n], Advance(w.store, w.calls[a.n], true).0;
            && (forall u :: u != c.user ==> AvatarOf(s', u) == AvatarOf(w.store, u))
            && AvatarOf(s', c.user) == (if c.AvatarD? then Some(c.id) else None)
            && s'.rows == w.store.rows && s'.data == w.store.data
  {
  }

  lemma {:induction false} OthersMoveNothing(w: World, n: nat)
    requires Kept(w) && n in w.calls && !w.calls[n].AvatarD? && !w.calls[n].DropB?
    ensures Advance(w.store, w.calls[n], true).0.avatars == w.store.avatars
  {
    var s' := Advance(w.store, w.calls[n], true).0;
    assert Sound(w.store, w.calls[n], w.ids);
    forall u ensures u in s'.avatars <==> u in w.store.avatars {
      if u in w.store.avatars { assert Pointed(w.store, w.store.avatars[u]) && Whole(w.store, w.store.avatars[u], u); }
    }
  }

  // In a sound world without undoing every attempt to write succeeds.
  lemma {:induction false} WritesAlways(w: World, n: nat)
    requires Kept(w) && n in w.calls && (w.calls[n].AvatarD? || w.calls[n].DropB?)
    ensures Writes(w, Step(n, true))
    ensures w.calls[n].AvatarD? ==> Whole(w.store, w.calls[n].id, w.calls[n].user) && !Pointed(w.store, w.calls[n].id)
    ensures Saw(w.calls[n]).Some? ==> OnlyOf(w.store, Saw(w.calls[n]).value, w.calls[n].user)
  {
    assert Sound(w.store, w.calls[n], w.ids);
  }

  // What a pointer write does to each photo: the account's former one is pointed at
  // no longer, the new one is.
  lemma {:induction false} PointedAfterWrite(w: World, n: nat, p: Uuid)
    requires Kept(w) && n in w.calls && (w.calls[n].AvatarD? || w.calls[n].DropB?)
    ensures var c := w.calls[n];
            Pointed(Advance(w.store, c, true).0, p)
            <==> (c.AvatarD? && p == c.id) || (Pointed(w.store, p) && AvatarOf(w.store, c.user) != Some(p))
  {
    var c := w.calls[n];
    var s' := Advance(w.store, c, true).0;
    WritesAlways(w, n);
    WriteMoves(w, Step(n, true));
    if u :| u in w.store.avatars && w.store.avatars[u] == p && AvatarOf(w.store, c.user) != Some(p) {
      assert AvatarOf(s', u) == Some(p);
      assert s'.avatars[u] == p;
    }
    if c.AvatarD? { assert s'.avatars[c.user] == c.id; }
    if u :| u in s'.avatars && s'.avatars[u] == p && !(c.AvatarD? && p == c.id) {
      assert u != c.user && AvatarOf(w.store, u) == Some(p);
      assert forall v :: v in w.store.avatars && w.store.avatars[v] == p ==> w.store.rows[p].owner == v;
    }
  }

  lemma {:induction false} WritePointedWell(w: World, n: nat, att: set<Uuid>, took: set<Uuid>, lost: set<Uuid>, p: Uuid)
    requires Tracked(w, att, took, lost) && n in w.calls && (w.calls[n].AvatarD? || w.calls[n].DropB?)
    ensures var a := Step(n, true);
            Pointed(Advance(w.store, w.calls[n], true).0, p)
            <==> p in att + Attaches(w, a) && p !in took + Takes(w, a) && p !in lost + Overwrites(w, a)
  {
    var c := w.calls[n];
    WritesAlways(w, n);
    PointedAfterWrite(w, n, p);
    assert Sound(w.store, c, w.ids) && CallWell(c, att, took);
    if Saw(c) == Some(p) && Pointed(w.store, p) {
      var u :| u in w.store.avatars && w.store.avatars[u] == p;
      assert u == c.user;
    }
    if AvatarOf(w.store, c.user) == Some(p) { assert Pointed(w.store, p); }
  }

  lemma {:induction false} StepPointedWell(
    k: Cipher, w: World, n: nat, att: set<Uuid>, took: set<Uuid>, lost: set<Uuid>)
    requires Tracked(w, att, took, lost) && n in w.calls
    ensures var a := Step(n, true);
            PointedWell(Do(k, w, a), att + Attaches(w, a), took + Takes(w, a), lost + Overwrites(w, a))
  {
    var c := w.calls[n];
    var a := Step(n, true);
    if c.AvatarD? || c.DropB? {
      forall p: Uuid
        ensures Pointed(Do(k, w, a).store, p)
                <==> p in att + Attaches(w, a) && p !in took + Takes(w, a) && p !in lost + Overwrites(w, a)
      {
        WritePointedWell(w, n, att, took, lost, p);
      }
      assert CallWell(c, att, took);
      if AvatarOf(w.store, c.user).Some? { assert Pointed(w.store, AvatarOf(w.store, c.user).value); }
    } else {
      OthersMoveNothing(w, n);
    }
  }

  // Storage after a step, one photo at a time.
  lemma {:induction false} StepBlobWell(
    k: Cipher, w: World, n: nat, att: set<Uuid>, took: set<Uuid>, lost: set<Uuid>, p: Uuid)
    requires Tracked(w, att, took, lost) && n in w.calls
    ensures var w', a := Do(k, w, Step(n, true)), Step(n, true);
            var ours := p in att + Attaches(w, a) && p !in took + Takes(w, a);
            && (ours ==> AccountKey(p) in w'.store.data)
            && (!ours && AccountKey(p) in w'.store.data ==> BlobHeld(w', p))
  {
    var c := w.calls[n];
    assert Sound(w.store, c, w.ids) && CallWell(c, att, took);
    if c.AvatarD? || c.DropB? { WritesAlways(w, n); }
    BlobAfter(w.store, c, p);
    BlobHandover(w.store, c, w.ids, p);
    HeldAfter(k, w, n, p);
  }

  lemma {:induction false} StepRowWell(
    k: Cipher, w: World, n: nat, att: set<Uuid>, took: set<Uuid>, lost: set<Uuid>, p: Uuid)
    requires Tracked(w, att, took, lost) && n in w.calls
    ensures var w', a := Do(k, w, Step(n, true)), Step(n, true);
            var ours := p in att + Attaches(w, a) && p !in took + Takes(w, a);
            && (ours ==> AccountRow(w'.store, p))
            && (!ours && AccountRow(w'.store, p) ==> RowHeld(w', p))
  {
    var c := w.calls[n];
    assert Sound(w.store, c, w.ids) && CallWell(c, att, took);
    if c.AvatarD? || c.DropB? { WritesAlways(w, n); }
    RowAfter(w.store, c, p);
    RowHandover(w.store, c, w.ids, p);
    HeldAfter(k, w, n, p);
  }

  lemma {:induction false} HeldAfter(k: Cipher, w: World, n: nat, p: Uuid)
    requires n in w.calls
    ensures var w' := Do(k, w, Step(n, true));
            && (BlobHeld(w, p) && !HasBlob(w.calls[n], p) ==> BlobHeld(w', p))
            && (RowHeld(w, p) && !HasRow(w.calls[n], p) ==> RowHeld(w', p))
            && (HasBlob(w'.calls[n], p) ==> BlobHeld(w', p)) && (HasRow(w'.calls[n], p) ==> RowHeld(w', p))
  {
    var w' := Do(k, w, Step(n, true));
    assert forall m :: m in w.calls && m != n ==> m in w'.calls && w'.calls[m] == w.calls[m];
  }

  lemma {:induction false} StepCallsWell(k: Cipher, w: World, n: nat, att: set<Uuid>, took: set<Uuid>, lost: set<Uuid>)
    requires Tracked(w, att, took, lost) && n in w.calls
    ensures var w', a := Do(k, w, Step(n, true)), Step(n, true);
            forall m :: m in w'.calls ==> CallWell(w'.calls[m], att + Attaches(w, a), took + Takes(w, a))
  {
    var w', a := Do(k, w, Step(n, true)), Step(n, true);
    var c := w.calls[n];
    assert Sound(w.store, c, w.ids) && CallWell(c, att, took);
    if c.AvatarD? || c.DropB? { WritesAlways(w, n); }
    NextMakesTheSame(w.store, c, true);
    NextSeesStored(w.store, c, true);
    NothingUndone(w.store, c, w.ids);
    forall m | m in w'.calls ensures CallWell(w'.calls[m], att + Attaches(w, a), took + Takes(w, a)) {
      if m == n {
        OwnCallWell(w, n, att, took, lost);
      } else {
        assert CallWell(w.calls[m], att, took) && Apart(c, w.calls[m]);
      }
    }
  }

  lemma {:induction false} OwnCallWell(w: World, n: nat, att: set<Uuid>, took: set<Uuid>, lost: set<Uuid>)
    requires Tracked(w, att, took, lost) && n in w.calls
    ensures var a := Step(n, true);
            CallWell(Advance(w.store, w.calls[n], true).1, att + Attaches(w, a), took + Takes(w, a))
  {
    var c := w.calls[n];
    assert Sound(w.store, c, w.ids) && CallWell(c, att, took);
    NextMakesTheSame(w.store, c, true);
    NextSeesStored(w.store, c, true);
    NothingUndone(w.store, c, w.ids);
    if c.AvatarD? || c.DropB? { WritesAlways(w, n); }
  }

  lemma {:induction false} StepTracked(k: Cipher, w: World, n: nat, att: set<Uuid>, took: set<Uuid>, lost: set<Uuid>)
    requires Tracked(w, att, took, lost) && n in w.calls
    ensures var a := Step(n, true);
            Tracked(Do(k, w, a), att + Attaches(w, a), took + Takes(w, a), lost + Overwrites(w, a))
  {
    var w', a := Do(k, w, Step(n, true)), Step(n, true);
    StepKept(k, w, n, true);
    StepPointedWell(k, w, n, att, took, lost);
    StepCallsWell(k, w, n, att, took, lost);
    assert Sound(w.store, w.calls[n], w.ids);
    assert StoredWell(w', att + Attaches(w, a), took + Takes(w, a)) by {
      forall p: Uuid | p in att + Attaches(w, a) && p !in took + Takes(w, a)
        ensures AccountRow(w'.store, p) && AccountKey(p) in w'.store.data
      {
        StepBlobWell(k, w, n, att, took, lost, p);
        StepRowWell(k, w, n, att, took, lost, p);
      }
      forall p: Uuid | !(p in att + Attaches(w, a) && p !in took + Takes(w, a)) && AccountKey(p) in w'.store.data
        ensures BlobHeld(w', p)
      {
        StepBlobWell(k, w, n, att, took, lost, p);
      }
      forall p: Uuid | !(p in att + Attaches(w, a) && p !in took + Takes(w, a)) && AccountRow(w'.store, p)
        ensures RowHeld(w', p)
      {
        StepRowWell(k, w, n, att, took, lost, p);
      }
    }
  }

  lemma {:induction false} BeginTracked(
    k: Cipher, w: World, n: nat, call: Call, att: set<Uuid>, took: set<Uuid>, lost: set<Uuid>)
    requires Tracked(w, att, took, lost) && n !in w.calls && Arrives(k, w, call)
    ensures Tracked(Do(k, w, Begin(n, call)), att, took, lost)
  {
    var w' := Do(k, w, Begin(n, call));
    BeginKept(k, w, n, call);
    assert forall m :: m in w.calls ==> m in w'.calls && w'.calls[m] == w.calls[m];
    forall p: Uuid | BlobHeld(w, p) ensures BlobHeld(w', p) {}
    forall p: Uuid | RowHeld(w, p) ensures RowHeld(w', p) {}
  }

  lemma {:induction false} RunTracked(k: Cipher, actions: seq<Action>)
    requires Flawless(actions)
    ensures Tracked(Run(k, actions), Attached(k, actions), Taken(k, actions), Overwritten(k, actions))
  {
    if actions != [] {
      var n := |actions| - 1;
      var w := Run(k, actions[..n]);
      RunTracked(k, actions[..n]);
      assert actions[n] in actions;
      var att, took, lost := Attached(k, actions[..n]), Taken(k, actions[..n]), Overwritten(k, actions[..n]);
      match actions[n]
      case Begin(m, call) =>
        assert att + {} == att && took + {} == took && lost + {} == lost;
        if m !in w.calls && Arrives(k, w, call) { BeginTracked(k, w, m, call, att, took, lost); }
      case Step(m, _) =>
        if m in w.calls {
          StepTracked(k, w, m, att, took, lost);
        } else {
          assert att + {} == att && took + {} == took && lost + {} == lost;
        }
    }
  }

  // ----------------------------------------------------------------- what is left

  ghost predicate Over(w: World) { forall n :: n in w.calls ==> w.calls[n].Finished? }

  // When no step failed and nothing is in flight, the photos with a blob, and those
  // with a row, are exactly the pointed ones and those that were replaced or
  // detached by a write that had not read them, and by none that had.
  lemma {:induction false} PhotosLeft(k: Cipher, actions: seq<Action>, p: Uuid)
    requires Flawless(actions) && Over(Run(k, actions))
    ensures var s := Run(k, actions).store;
            && (AccountKey(p) in s.data <==> AccountRow(s, p))
            && (AccountRow(s, p) <==> Pointed(s, p) || (p in Overwritten(k, actions) && p !in Taken(k, actions)))
  {
    RunTracked(k, actions);
  }

  // The same from the requests' side: a photo is left exactly when it was attached
  // and no write that had read it took it away.
  lemma {:induction false} LeftIff(k: Cipher, actions: seq<Action>, p: Uuid)
    requires Flawless(actions) && Over(Run(k, actions))
    ensures AccountRow(Run(k, actions).store, p) <==> p in Attached(k, actions) && p !in Taken(k, actions)
  {
    RunTracked(k, actions);
  }

  ghost predicate AllPointed(s: Store) { forall p: Uuid :: AccountRow(s, p) <==> Pointed(s, p) }

  // So the three agree exactly when everything overwritten unread was also taken.
  lemma {:induction false} ExactIff(k: Cipher, actions: seq<Action>)
    requires Flawless(actions) && Over(Run(k, actions))
    ensures AllPointed(Run(k, actions).store) <==> Overwritten(k, actions) <= Taken(k, actions)
  {
    var s := Run(k, actions).store;
    forall p: Uuid
      ensures AccountRow(s, p) <==> Pointed(s, p) || (p in Overwritten(k, actions) && p !in Taken(k, actions))
    {
      PhotosLeft(k, actions, p);
    }
    RunTracked(k, actions);
    if AllPointed(s) {
      forall p | p in Overwritten(k, actions) ensures p in Taken(k, actions) {
        assert AccountRow(s, p) <==> Pointed(s, p);
      }
    }
  }

  // ------------------------------------------------- one photo change at a time

  // The account whose pointer a request still has to write.
  function Changing(c: Call): Option<Uuid> {
    match c
    case AvatarA(u, _, _, _) => Some(u)
    case AvatarB(u, _, _) => Some(u)
    case AvatarC(u, _) => Some(u)
    case AvatarD(u, _, _) => Some(u)
    case DropA(u) => Some(u)
    case DropB(u, _) => Some(u)
    case _ => None
  }

  // No photo change of an account is begun while an earlier one of that account has
  // yet to write the pointer; in particular, while it is unanswered.
  ghost predicate InTurn(w: World, a: Action) {
    a.Begin? && Changing(a.call).Some? ==> forall m :: m in w.calls ==> Changing(w.calls[m]) != Changing(a.call)
  }

  ghost predicate AllInTurn(k: Cipher, actions: seq<Action>) {
    forall i :: 0 <= i < |actions| ==> InTurn(Run(k, actions[..i]), actions[i])
  }

  // Every account has at most one change under way, and finds its pointer unmoved.
  ghost predicate Orderly(w: World) {
    && (forall n, m | n in w.calls && m in w.calls && n != m && Changing(w.calls[n]).Some? ::
          Changing(w.calls[m]) != Changing(w.calls[n]))
    && (forall n :: n in w.calls ==> Unmoved(w.store, w.calls[n]))
  }

  lemma {:induction false} ChangingStays(s: Store, c: Call)
    ensures Changing(Advance(s, c, true).1) == None || Changing(Advance(s, c, true).1) == Changing(c)
    ensures Unmoved(s, c) && !c.AvatarD? && !c.DropB? ==> Unmoved(s, Advance(s, c, true).1)
    ensures c.AvatarD? || c.DropB? ==> Changing(Advance(s, c, true).1) == None || c.AvatarD?
  {
  }

  lemma {:induction false} StepOrderly(k: Cipher, w: World, n: nat)
    requires Kept(w) && Orderly(w) && n in w.calls
    ensures Orderly(Do(k, w, Step(n, true)))
  {
    var w' := Do(k, w, Step(n, true));
    ChangingStays(w.store, w.calls[n]);
    forall m | m in w'.calls ensures Unmoved(w'.store, w'.calls[m]) { StepUnmoved(k, w, n, m); }
  }

  lemma {:induction false} StepUnmoved(k: Cipher, w: World, n: nat, m: nat)
    requires Kept(w) && Orderly(w) && n in w.calls && m in w.calls
    ensures var w' := Do(k, w, Step(n, true)); Unmoved(w'.store, w'.calls[m])
  {
    ChangingStays(w.store, w.calls[n]);
    if w.calls[n].AvatarD? || w.calls[n].DropB? {
      if m != n { UnmovedByOthers(w, n, m); } else { WritesAlways(w, n); }
    } else {
      OthersMoveNothing(w, n);
    }
  }

  lemma {:induction false} UnmovedByOthers(w: World, n: nat, m: nat)
    requires Kept(w) && Orderly(w) && n in w.calls && m in w.calls && n != m
        && (w.calls[n].AvatarD? || w.calls[n].DropB?)
    ensures Unmoved(Advance(w.store, w.calls[n], true).0, w.calls[m])
  {
    WritesAlways(w, n);
    WriteMoves(w, Step(n, true));
    assert Unmoved(w.store, w.calls[m]) && Changing(w.calls[m]) != Changing(w.calls[n]);
  }

  lemma {:induction false} DoOrderly(k: Cipher, w: World, a: Action)
    requires Kept(w) && Orderly(w) && InTurn(w, a) && (a.Step? ==> a.ok)
    ensures Smooth(w, a) && Orderly(Do(k, w, a))
  {
    match a
    case Begin(n, call) => if n !in w.calls && Arrives(k, w, call) { BeginOrderly(k, w, n, call); }
    case Step(n, _) => if n in w.calls { StepOrderly(k, w, n); }
  }

  lemma {:induction false} BeginOrderly(k: Cipher, w: World, n: nat, call: Call)
    requires Orderly(w) && InTurn(w, Begin(n, call)) && n !in w.calls && Arrives(k, w, call)
    ensures Orderly(Do(k, w, Begin(n, call)))
  {
  }

  lemma {:induction false} InTurnIsSmooth(k: Cipher, actions: seq<Action>)
    requires Flawless(actions) && AllInTurn(k, actions)
    ensures Orderly(Run(k, actions)) && AllSmooth(k, actions)
  {
    if actions != [] {
      var n := |actions| - 1;
      forall i | 0 <= i < n ensures InTurn(Run(k, actions[..n][..i]), actions[..n][i]) {
        assert actions[..n][..i] == actions[..i];
      }
      InTurnIsSmooth(k, actions[..n]);
      RunKept(k, actions[..n]);
      assert actions[n] in actions && InTurn(Run(k, actions[..n]), actions[n]);
      DoOrderly(k, Run(k, actions[..n]), actions[n]);
      SmoothOneMore(k, actions);
    }
  }

  lemma {:induction false} SmoothOneMore(k: Cipher, actions: seq<Action>)
    requires actions != [] && AllSmooth(k, actions[..|actions| - 1])
    requires Smooth(Run(k, actions[..|actions| - 1]), actions[|actions| - 1])
    ensures AllSmooth(k, actions)
  {
    var n := |actions| - 1;
    forall i | 0 <= i < |actions| ensures Smooth(Run(k, actions[..i]), actions[i]) {
      if i < n {
        assert actions[..n][..i] == actions[..i];
        assert Smooth(Run(k, actions[..n][..i]), actions[..n][i]);
      }
    }
  }

  // When no step fails and no two photo changes of one account overlap, photo
  // blobs, photo rows and pointers end up exactly one another.
  lemma {:induction false} InTurnIsExact(k: Cipher, actions: seq<Action>, p: Uuid)
    requires Flawless(actions) && AllInTurn(k, actions) && Over(Run(k, actions))
    ensures var s := Run(k, actions).store;
            (AccountKey(p) in s.data <==> Pointed(s, p)) && (AccountRow(s, p) <==> Pointed(s, p))
  {
    InTurnIsSmooth(k, actions);
    QuietIsExact(k, actions, p);
  }
}
