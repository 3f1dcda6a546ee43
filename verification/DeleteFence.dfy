/**
 The delete fence: while a delete or an eviction holds a key, nothing puts
 another pod incarnation or another VM under it (`claimDeleting`,
 `claimDeletingIncarnation` and the sections they guard).
 */
module DeleteFence {
  import opened Wrappers
  import opened Tables
  import opened ProviderRuns

  /** The key's pod is gone or still the same incarnation, and its VM is gone or a record of the same VM. */
  ghost predicate SameOrGone(t: Tables, t': Tables, key: Key) {
    && (t'.Tracked(key).Some? ==> t.Tracked(key).Some? && t'.Tracked(key).value.uid == t.Tracked(key).value.uid)
    && (t'.VMFor(key).Some? ==> t.VMFor(key).Some? && t'.VMFor(key).value.id == t.VMFor(key).value.id)
  }

  lemma FrameKeepsTracked(t: Tables, t': Tables, key: Key)
    requires OnlyLifecycleDiffers(t, t')
    ensures t'.Tracked(key).Some? <==> t.Tracked(key).Some?
    ensures t.Tracked(key).Some? ==> t'.Tracked(key).value.uid == t.Tracked(key).value.uid
    ensures SameOrGone(t, t', key)
  {
  }

  lemma SetVMFrame(t: Tables, key: Key, v: VM)
    ensures t.SetVM(key, v) == t.(vmsByPod := t.vmsByPod[key := v], vmsByName := t.SetVM(key, v).vmsByName)
  {
  }

  /** Tracking changes only its pod's own key. */
  lemma TrackPodFrame(t: Tables, r: Ref, v: Option<VM>)
    requires t.WellFormed() && r in t.objects
    ensures var t' := t.TrackPod(r, v);
            && t'.WellFormed() && t'.deleting == t.deleting && t'.lastRestart == t.lastRestart
            && (forall key :: key != t.objects[r].key ==> SameOrGone(t, t', key))
  {
    var own := t.objects[r].key;
    var a := t.Reassert(own, r);
    ReassertFrame(t, own, r);
    var b := a.(pods := a.pods[own := r]);
    assert b.WellFormed() && b.deleting == t.deleting && b.lastRestart == t.lastRestart;
    var t' := t.TrackPod(r, v);
    if v.Some? {
      SetVMFrame(b, own, v.value);
    }
    assert t'.objects == a.objects && t'.pods == b.pods;
    forall key | key != own
      ensures SameOrGone(t, t', key)
    {
      FrameKeepsTracked(t, a, key);
      assert t'.Tracked(key) == a.Tracked(key) && t'.VMFor(key) == a.VMFor(key);
    }
  }

  lemma DropVMFrame(t: Tables, key: Key)
    ensures var t' := t.DropVM(key);
            && t'.objects == t.objects && t'.pods == t.pods && t'.deleting == t.deleting && t'.intents == t.intents
            && t'.vmsByPod == t.vmsByPod - {key}
  {
  }

  lemma UntrackFrame(t: Tables, key: Key)
    ensures var t' := t.Untrack(key);
            && t'.objects == t.objects && t'.pods == t.pods - {key} && t'.deleting == t.deleting
            && t'.vmsByPod == t.vmsByPod - {key} && t'.intents == t.intents - {key}
  {
  }

  /** Detaching removes the key's pod and VM, or neither, and may index the VM by name. */
  lemma DetachShape(t: Tables, key: Key, uid: UID, v: Option<VM>)
    ensures var t' := t.DetachIncarnation(key, uid, v).0;
            && t'.objects == t.objects && t'.deleting == t.deleting
            && ((t'.pods == t.pods && t'.vmsByPod == t.vmsByPod)
                || (t'.pods == t.pods - {key} && t'.vmsByPod == t.vmsByPod - {key}))
  {
    UntrackFrame(t, key);
    var (u, dropped) := t.UntrackIncarnation(key, uid);
    assert u == if dropped then t.Untrack(key) else t;
    var t' := t.DetachIncarnation(key, uid, v).0;
    assert t' == t || t' == u.(vmsByName := t'.vmsByName);
  }

  lemma DetachFrame(t: Tables, key: Key, uid: UID, v: Option<VM>)
    requires t.WellFormed()
    ensures var t' := t.DetachIncarnation(key, uid, v).0;
            && t'.WellFormed() && t'.deleting == t.deleting && forall k :: SameOrGone(t, t', k)
  {
    DetachShape(t, key, uid, v);
    ShrunkIsSameOrGone(t, t.DetachIncarnation(key, uid, v).0, key);
  }

  lemma ShrunkIsSameOrGone(t: Tables, t': Tables, key: Key)
    requires t.WellFormed() && t'.objects == t.objects
    requires (t'.pods == t.pods && t'.vmsByPod == t.vmsByPod)
             || (t'.pods == t.pods - {key} && t'.vmsByPod == t.vmsByPod - {key})
    ensures t'.WellFormed() && forall k :: SameOrGone(t, t', k)
  {
  }

  lemma FailCreateFrame(t: Tables, r: Ref, key: Key)
    requires t.WellFormed() && r in t.objects
    ensures t.FailCreate(r).WellFormed() && SameOrGone(t, t.FailCreate(r), key)
  {
  }

  lemma UpdateVMFrame(t: Tables, key: Key, id: VMID, copy: Ref)
    ensures var t' := t.UpdateTrackedVM(key, id, copy).0;
            && t' == t.(vmsByPod := t'.vmsByPod, vmsByName := t'.vmsByName)
            && forall k :: SameOrGone(t, t', k)
  {
  }

  /** A section that puts no other incarnation and no other VM under the key, if it is being deleted. */
  ghost predicate Fenced(t: Tables, t': Tables, key: Key) {
    t'.WellFormed() && t'.deleting == t.deleting && (key in t.deleting ==> SameOrGone(t, t', key))
  }

  lemma NewObjectIsFenced(t: Tables, r: Ref, pod: Pod, key: Key)
    requires t.WellFormed() && r !in t.objects
    ensures Fenced(t, t.(objects := t.objects[r := pod]), key)
  {
    assert forall k :: t.(objects := t.objects[r := pod]).Tracked(k) == t.Tracked(k);
  }

  lemma TracksAreFenced(t: Tables, e: TrackingEvent, key: Key)
    requires t.WellFormed() && TrackingEnabled(t, e) && (e.TrackUnlessDeleting? || e.TrackIncarnation?)
    ensures Fenced(t, TrackingStep(t, e), key)
  {
    match e
    case TrackUnlessDeleting(r, v) => TrackPodFrame(t, r, v);
    case TrackIncarnation(r, v) =>
      TrackPodFrame(t, r, Some(v));
      NamesAreFenced(t, t.IndexOrphan(v), key);
  }

  lemma NamesAreFenced(t: Tables, t': Tables, key: Key)
    requires t.WellFormed() && t' == t.(vmsByName := t'.vmsByName)
    ensures Fenced(t, t', key)
  {
  }

  lemma ForgetIsFenced(t: Tables, k: Key, key: Key)
    requires t.WellFormed()
    ensures Fenced(t, t.DropVM(k), key)
  {
    DropVMFrame(t, k);
  }

  /** No tracking section puts another incarnation or another VM under a key that is being deleted. */
  lemma TrackingIsFenced(t: Tables, e: TrackingEvent, key: Key)
    requires t.WellFormed() && TrackingEnabled(t, e)
    ensures Fenced(t, TrackingStep(t, e), key)
  {
    match e
    case NewObject(r, pod) => NewObjectIsFenced(t, r, pod, key);
    case TrackUnlessDeleting(_, _) => TracksAreFenced(t, e, key);
    case TrackIncarnation(_, _) => TracksAreFenced(t, e, key);
    case Detach(k, uid, v) => DetachFrame(t, k, uid, v);
    case FailCreate(r) => FailCreateFrame(t, r, key);
    case DropIndexed(name, v) => NamesAreFenced(t, t.DropIndexed(name, v), key);
    case IndexOrphan(v) => NamesAreFenced(t, t.IndexOrphan(v), key);
    case ForgetVMOnly(k) => ForgetIsFenced(t, k, key);
    case UpdateVM(k, id, copy) => UpdateVMFrame(t, k, id, copy);
  }

  lemma LifecycleIsFenced(t: Tables, e: LifecycleEvent)
    requires t.WellFormed() && e.r in t.objects
    ensures var t' := LifecycleStep(t, e).0;
            && t'.WellFormed() && t'.deleting == t.deleting && forall key :: SameOrGone(t, t', key)
  {
    LifecycleFrame(t, e);
  }

  /** What a claim's key may hold while the claim is held. */
  ghost predicate ClaimKept(t: Tables, c: Claim) {
    && (t.Tracked(c.key).Some? ==> c.owner == Some(t.Tracked(c.key).value.uid))
    && (t.VMFor(c.key).Some? ==> c.bound == Some(t.VMFor(c.key).value.id))
  }

  /** The claimed pod is the tracked one, if any was tracked, and the VM read under the claim is the one it bound. */
  ghost predicate ClaimHonest(c: Claim) {
    && (c.owner.Some? ==> c.owner.value == c.uid)
    && (c.seen.Some? ==> c.seen == c.bound)
  }

  ghost predicate Fence(w: World) {
    && w.t.WellFormed()
    && w.active <= w.claims.Keys
    && (!w.started ==> w.active == {})
    && (forall o :: o in w.active ==> w.claims[o].key in w.t.deleting)
    && (forall key :: key in w.t.deleting ==> exists o :: o in w.active && w.claims[o].key == key)
    && (forall a, b :: a in w.active && b in w.active && w.claims[a].key == w.claims[b].key ==> a == b)
    && (forall o :: o in w.active ==> ClaimKept(w.t, w.claims[o]))
    && (forall o :: o in w.claims ==> ClaimHonest(w.claims[o]))
    && (forall o, id :: (o, id) in w.removed ==> o in w.claims && w.claims[o].bound == Some(id))
  }

  /** A step that leaves the claims alone and is fenced on every claimed key keeps the fence. */
  lemma FenceKept(w: World, w': World)
    requires Fence(w) && w'.t.WellFormed() && w'.t.deleting == w.t.deleting
    requires w'.claims == w.claims && w'.active == w.active && w'.removed == w.removed
    requires w.started ==> w'.started
    requires forall key :: key in w.t.deleting ==> SameOrGone(w.t, w'.t, key)
    ensures Fence(w')
  {
    forall o | o in w'.active
      ensures ClaimKept(w'.t, w'.claims[o])
    {
      assert ClaimKept(w.t, w.claims[o]);
      assert SameOrGone(w.t, w'.t, w.claims[o].key);
    }
  }

  lemma NewClaimIsListed(w: World, w': World, op: Op, c: Claim)
    requires Fence(w) && op !in w.claims
    requires w' == w.(t := w.t.(deleting := w.t.deleting + {c.key}), claims := w.claims[op := c], active := w.active + {op})
    ensures forall key :: key in w'.t.deleting ==> exists o :: o in w'.active && w'.claims[o].key == key
  {
    forall key | key in w'.t.deleting
      ensures exists o :: o in w'.active && w'.claims[o].key == key
    {
      if key == c.key {
        assert op in w'.active && w'.claims[op].key == key;
      } else {
        var o :| o in w.active && w.claims[o].key == key;
        assert o in w'.active && w'.claims[o].key == key;
      }
    }
  }

  lemma NewClaimIsKept(w: World, w': World, op: Op, c: Claim)
    requires Fence(w) && op !in w.claims && ClaimKept(w.t, c)
    requires w' == w.(t := w.t.(deleting := w.t.deleting + {c.key}), claims := w.claims[op := c], active := w.active + {op})
    ensures forall o :: o in w'.active ==> ClaimKept(w'.t, w'.claims[o]) && w'.claims[o].key in w'.t.deleting
  {
    forall o | o in w'.active
      ensures ClaimKept(w'.t, w'.claims[o]) && w'.claims[o].key in w'.t.deleting
    {
      assert o != op ==> ClaimKept(w.t, w.claims[o]);
    }
  }

  lemma NewClaimIsAlone(w: World, w': World, op: Op, c: Claim)
    requires Fence(w) && op !in w.claims && c.key !in w.t.deleting
    requires w' == w.(t := w.t.(deleting := w.t.deleting + {c.key}), claims := w.claims[op := c], active := w.active + {op})
    ensures forall a, b :: a in w'.active && b in w'.active && w'.claims[a].key == w'.claims[b].key ==> a == b
  {
  }

  /** A claim taken on a free key fences what the key holds at that moment. */
  lemma NewClaimIsFenced(w: World, w': World, op: Op, c: Claim)
    requires Fence(w) && w.started && op !in w.claims && c.key !in w.t.deleting
    requires ClaimKept(w.t, c) && ClaimHonest(c)
    requires w' == w.(t := w.t.(deleting := w.t.deleting + {c.key}), claims := w.claims[op := c], active := w.active + {op})
    ensures Fence(w')
  {
    NewClaimIsListed(w, w', op, c);
    NewClaimIsKept(w, w', op, c);
    NewClaimIsAlone(w, w', op, c);
  }

  lemma FinishIsFenced(w: World, op: Op)
    requires Fence(w) && op in w.active && op in w.claims
    ensures Fence(ClaimStep(w, Finish(op)))
  {
    var w' := ClaimStep(w, Finish(op));
    forall key | key in w'.t.deleting
      ensures exists o :: o in w'.active && w'.claims[o].key == key
    {
      var o :| o in w.active && w.claims[o].key == key;
      assert o in w'.active && w'.claims[o].key == key;
    }
    forall o | o in w'.active
      ensures ClaimKept(w'.t, w'.claims[o]) && w'.claims[o].key in w'.t.deleting
    {
      assert ClaimKept(w.t, w.claims[o]);
    }
  }

  /** What a delete reads of its key's VM under the claim is the VM bound when it claimed. */
  lemma ReadIsFenced(w: World, op: Op)
    requires Fence(w) && op in w.active && op in w.claims
    ensures Fence(ClaimStep(w, ReadVM(op)))
  {
    var w' := ClaimStep(w, ReadVM(op));
    assert ClaimKept(w.t, w.claims[op]) && ClaimHonest(w.claims[op]);
    SameClaimsFenced(w, w');
  }

  /** Claims that differ only in what was read keep the fence. */
  lemma SameClaimsFenced(w: World, w': World)
    requires Fence(w) && w'.(claims := w.claims) == w && w'.claims.Keys == w.claims.Keys
    requires forall o :: o in w.claims ==> w'.claims[o] == w.claims[o].(seen := w'.claims[o].seen)
    requires forall o :: o in w.claims ==> ClaimHonest(w'.claims[o])
    ensures Fence(w')
  {
    forall key | key in w'.t.deleting
      ensures exists o :: o in w'.active && w'.claims[o].key == key
    {
      var o :| o in w.active && w.claims[o].key == key;
      assert o in w'.active && w'.claims[o].key == key;
    }
    forall o | o in w'.active
      ensures ClaimKept(w'.t, w'.claims[o])
    {
      assert ClaimKept(w.t, w.claims[o]);
    }
  }

  lemma NewClaimStepIsFenced(w: World, e: ClaimEvent)
    requires Fence(w) && ClaimEnabled(w, e) && (e.ClaimDelete? || e.ClaimEvict?)
    ensures Fence(ClaimStep(w, e))
  {
    match e
    case ClaimDelete(op, key, uid) =>
      if w.t.ClaimDeleting(key, uid).1 == Claimed {
        NewClaimIsFenced(w, ClaimStep(w, e), op, NewClaim(w.t, key, uid, None));
      }
    case ClaimEvict(op, key, uid, id) =>
      if w.t.ClaimDeletingIncarnation(key, uid, id).1 {
        NewClaimIsFenced(w, ClaimStep(w, e), op, NewClaim(w.t, key, uid, Some(id)));
      }
  }

  lemma DropIsFenced(w: World, e: ClaimEvent)
    requires Fence(w) && ClaimEnabled(w, e) && (e.Forget? || e.Untrack?)
    ensures Fence(ClaimStep(w, e))
  {
    UntrackFrame(w.t, w.claims[e.op].key);
    FenceKept(w, ClaimStep(w, e));
  }

  lemma RemoveIsFenced(w: World, op: Op)
    requires Fence(w) && ClaimEnabled(w, RemoveVM(op))
    ensures Fence(ClaimStep(w, RemoveVM(op)))
  {
    assert ClaimHonest(w.claims[op]);
  }

  lemma ClaimIsFenced(w: World, e: ClaimEvent)
    requires Fence(w) && ClaimEnabled(w, e)
    ensures Fence(ClaimStep(w, e))
  {
    match e
    case ClaimDelete(op, key, uid) => NewClaimStepIsFenced(w, e);
    case ClaimEvict(op, key, uid, id) => NewClaimStepIsFenced(w, e);
    case ReadVM(op) => ReadIsFenced(w, op);
    case RemoveVM(op) => RemoveIsFenced(w, op);
    case Forget(op) => DropIsFenced(w, e);
    case Untrack(op) => DropIsFenced(w, e);
    case Finish(op) => FinishIsFenced(w, op);
  }

  lemma StartupIsFenced(w: World, e: StartupEvent)
    requires Fence(w) && StartupEnabled(w, e)
    ensures Fence(StartupStep(w, e))
  {
    match e
    case StartupTrack(r, v) =>
      TrackPodFrame(w.t, r, v);
      FenceKept(w, StartupStep(w, e));
    case StartupSeed(r) => FenceKept(w, StartupStep(w, e));
    case StartupDone => FenceKept(w, StartupStep(w, e));
  }

  /** A tracking section, on its own or as part of a bind. */
  lemma FenceTracking(w: World, te: TrackingEvent, w': World)
    requires Fence(w) && TrackingEnabled(w.t, te)
    requires w' == w.(t := TrackingStep(w.t, te), binders := w'.binders)
    ensures Fence(w')
  {
    TrackingIsFenced(w.t, te, "");
    forall key | key in w.t.deleting
      ensures SameOrGone(w.t, w'.t, key)
    {
      TrackingIsFenced(w.t, te, key);
    }
    FenceKept(w, w');
  }

  lemma FenceLifecycle(w: World, le: LifecycleEvent)
    requires Fence(w) && Enabled(w, Lifecycle(le))
    ensures Fence(Next(w, Lifecycle(le)))
  {
    LifecycleIsFenced(w.t, le);
    FenceKept(w, Next(w, Lifecycle(le)));
  }

  lemma FenceRestarting(w: World, re: RestartEvent)
    requires Fence(w) && Enabled(w, Restarting(re))
    ensures Fence(Next(w, Restarting(re)))
  {
    FenceKept(w, Next(w, Restarting(re)));
  }

  lemma FenceFlushing(w: World, fe: FlushEvent)
    requires Fence(w) && Enabled(w, Flushing(fe))
    ensures Fence(Next(w, Flushing(fe)))
  {
    QuietFlush(w, fe);
    FenceKept(w, Next(w, Flushing(fe)));
  }

  lemma FenceBinding(w: World, be: BindEvent)
    requires Fence(w) && Enabled(w, Binding(be))
    ensures Fence(Next(w, Binding(be)))
  {
    var effect := BindEffect(w, be);
    if effect.Some? {
      FenceTracking(w, effect.value, BindStep(w, be));
    } else {
      FenceKept(w, BindStep(w, be));
    }
  }

  lemma FenceStep(w: World, e: Event)
    requires Fence(w) && Enabled(w, e)
    ensures Fence(Next(w, e))
  {
    match e
    case Tracking(te) => FenceTracking(w, te, Next(w, e));
    case Lifecycle(le) => FenceLifecycle(w, le);
    case Startup(se) => StartupIsFenced(w, se);
    case Claiming(ce) => ClaimIsFenced(w, ce);
    case Restarting(re) => FenceRestarting(w, re);
    case Flushing(fe) => FenceFlushing(w, fe);
    case Binding(be) => FenceBinding(w, be);
  }

  lemma {:induction false} FenceRun(w: World, es: seq<Event>)
    requires Fence(w) && Possible(w, es)
    ensures Fence(Run(w, es))
    decreases |es|
  {
    if es != [] {
      FenceStep(w, es[0]);
      FenceRun(Next(w, es[0]), es[1..]);
    }
  }

  /** At most one delete or eviction holds a key, in every reachable state. */
  lemma OneClaimPerKey(es: seq<Event>, a: Op, b: Op)
    requires Possible(Init, es)
    requires var w := Run(Init, es);
             a in w.active && b in w.active && a in w.claims && b in w.claims && w.claims[a].key == w.claims[b].key
    ensures a == b
  {
    FenceRun(Init, es);
  }

  lemma ClaimPersistsStep(w: World, e: Event, op: Op)
    requires Enabled(w, e) && op in w.claims
    ensures op in Next(w, e).claims && Next(w, e).claims[op].(seen := None) == w.claims[op].(seen := None)
    ensures op !in w.active ==> op !in Next(w, e).active
  {
    if e.Flushing? {
      QuietFlush(w, e.fe);
    }
  }

  /** A claim's record never changes, and a finished claim is never held again. */
  lemma {:induction false} ClaimPersists(w: World, es: seq<Event>, op: Op)
    requires Possible(w, es) && op in w.claims
    ensures var w' := Run(w, es);
            && op in w'.claims && w'.claims[op].(seen := None) == w.claims[op].(seen := None)
            && (op !in w.active ==> op !in w'.active)
    decreases |es|
  {
    if es != [] {
      ClaimPersistsStep(w, es[0], op);
      ClaimPersists(Next(w, es[0]), es[1..], op);
    }
  }

  /** The event is op's successful claim of the key. */
  predicate Claims(w: World, e: Event, op: Op, key: Key)
    requires Enabled(w, e)
  {
    && e.Claiming? && (e.ce.ClaimDelete? || e.ce.ClaimEvict?) && e.ce.op == op && e.ce.key == key
    && op in Next(w, e).active && op !in w.active
  }

  /**
   From the moment op claims the key until it finishes, whatever else runs, the
   key holds the incarnation and the VM it held then, or nothing.
   */
  lemma ClaimFencesIncarnation(before: seq<Event>, e: Event, after: seq<Event>, op: Op, key: Key)
    requires Possible(Init, before) && Enabled(Run(Init, before), e)
    requires Claims(Run(Init, before), e, op, key)
    requires Possible(Next(Run(Init, before), e), after)
    ensures var now := Run(Next(Run(Init, before), e), after);
            op in now.active ==> SameOrGone(Run(Init, before).t, now.t, key)
  {
    var w := Run(Init, before);
    var w1 := Next(w, e);
    FenceRun(Init, before);
    FenceStep(w, e);
    FenceRun(w1, after);
    var now := Run(w1, after);
    ClaimPersists(w1, after, op);
    if op in now.active {
      assert ClaimKept(now.t, now.claims[op]);
    }
  }

  /** The VM a delete or eviction removes is the one its key was bound to when it claimed the key. */
  lemma RemovesOnlyTheClaimedVM(before: seq<Event>, e: Event, after: seq<Event>, op: Op, key: Key, id: VMID)
    requires Possible(Init, before) && Enabled(Run(Init, before), e)
    requires Claims(Run(Init, before), e, op, key)
    requires Possible(Next(Run(Init, before), e), after)
    requires (op, id) in Run(Next(Run(Init, before), e), after).removed
    ensures var v := Run(Init, before).t.VMFor(key); v.Some? && v.value.id == id
  {
    var w := Run(Init, before);
    FenceRun(Init, before);
    FenceStep(w, e);
    FenceRun(Next(w, e), after);
    ClaimPersists(Next(w, e), after, op);
  }

  lemma DropTouchesOnlyTheClaim(w: World, op: Op, drop: ClaimEvent)
    requires Fence(w) && op in w.active && (drop == Forget(op) || drop == Untrack(op)) && ClaimEnabled(w, drop)
    ensures var c, t, t' := w.claims[op], w.t, ClaimStep(w, drop).t;
            && (t.Tracked(c.key).Some? ==> t.Tracked(c.key).value.uid == c.uid && t'.Tracked(c.key).None?)
            && (t.VMFor(c.key).Some? ==> c.bound == Some(t.VMFor(c.key).value.id))
            && (drop.Forget? ==> t'.VMFor(c.key).None?)
            && (forall k :: k != c.key ==> t'.Tracked(k) == t.Tracked(k) && t'.VMFor(k) == t.VMFor(k))
            && (forall k :: k != c.key && k in t.intents ==> k in t'.intents && t'.intents[k] == t.intents[k])
  {
    assert ClaimKept(w.t, w.claims[op]) && ClaimHonest(w.claims[op]);
    UntrackFrame(w.t, w.claims[op].key);
  }

  /** Forgetting or untracking inside a claim drops that claim's incarnation and VM, and leaves every other key as it was. */
  lemma ForgetTouchesOnlyTheClaim(es: seq<Event>, op: Op, drop: ClaimEvent)
    requires Possible(Init, es) && op in Run(Init, es).active
    requires drop == Forget(op) || drop == Untrack(op)
    requires ClaimEnabled(Run(Init, es), drop)
    ensures var w := Run(Init, es);
            var c, t, t' := w.claims[op], w.t, ClaimStep(w, drop).t;
            && (t.Tracked(c.key).Some? ==> t.Tracked(c.key).value.uid == c.uid && t'.Tracked(c.key).None?)
            && (t.VMFor(c.key).Some? ==> c.bound == Some(t.VMFor(c.key).value.id))
            && (drop.Forget? ==> t'.VMFor(c.key).None?)
            && (forall k :: k != c.key ==> t'.Tracked(k) == t.Tracked(k) && t'.VMFor(k) == t.VMFor(k))
            && (forall k :: k != c.key && k in t.intents ==> k in t'.intents && t'.intents[k] == t.intents[k])
  {
    FenceRun(Init, es);
    DropTouchesOnlyTheClaim(Run(Init, es), op, drop);
  }
}
