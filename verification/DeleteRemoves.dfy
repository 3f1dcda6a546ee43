/**
 A delete does what it is for: the VM its key is bound to is removed and the key is free
 afterwards, whatever interleaves with its sections (`deletePod`, `removeThenEvict`).
 */
module DeleteRemoves {
  import opened Wrappers
  import opened Tables
  import opened ProviderRuns
  import opened DeleteFence

  // ---------------------------------------------------------------- how long a claimed key stays bound

  /** The event forgets the key's VM: the watcher's forget, or the claim's own forget or untrack. */
  predicate Frees(w: World, e: Event, key: Key)
    requires Enabled(w, e)
  {
    || e == Tracking(ForgetVMOnly(key))
    || (e.Claiming? && e.ce.Forget? && w.claims[e.ce.op].key == key)
    || (&& e.Claiming? && e.ce.Untrack? && w.claims[e.ce.op].key == key
        && w.t.Tracked(key).Some? && w.t.Tracked(key).value.uid == w.claims[e.ce.op].uid)
  }

  lemma TrackingKeepsBound(t: Tables, e: TrackingEvent, key: Key)
    requires TrackingEnabled(t, e) && key in t.deleting && key in t.vmsByPod
    ensures key in TrackingStep(t, e).vmsByPod <==> e != ForgetVMOnly(key)
  {
    match e
    case TrackUnlessDeleting(r, v) => TrackPodShape(t, r, v);
    case TrackIncarnation(r, v) => TrackPodShape(t, r, Some(v));
    case Detach(k, uid, v) => DetachShape(t, k, uid, v);
    case ForgetVMOnly(k) => DropVMFrame(t, k);
    case _ =>
  }

  lemma ClaimKeepsBound(w: World, e: ClaimEvent, key: Key)
    requires ClaimEnabled(w, e) && key in w.t.vmsByPod
    ensures key in ClaimStep(w, e).t.vmsByPod <==> !Frees(w, Claiming(e), key)
  {
    if e.Forget? || e.Untrack? {
      UntrackFrame(w.t, w.claims[e.op].key);
    }
  }

  lemma BindKeepsBound(w: World, e: BindEvent, key: Key)
    requires BindEnabled(w, e) && key in w.t.deleting && key in w.t.vmsByPod
    ensures key in BindStep(w, e).t.vmsByPod
  {
    if BindEffect(w, e).Some? {
      TrackingKeepsBound(w.t, BindEffect(w, e).value, key);
    }
  }

  lemma QuietKeepsBound(w: World, e: Event, key: Key)
    requires Enabled(w, e) && (e.Lifecycle? || e.Restarting? || e.Flushing?)
    ensures Next(w, e).t.vmsByPod == w.t.vmsByPod
  {
    match e
    case Lifecycle(le) => LifecycleFrame(w.t, le);
    case Restarting(_) =>
    case Flushing(fe) => QuietFlush(w, fe);
  }

  lemma StartupIsOver(w: World, e: StartupEvent, key: Key)
    requires Fence(w) && StartupEnabled(w, e) && key in w.t.deleting
    ensures StartupStep(w, e).t == w.t
  {
    assert w.started;
  }

  /** While a key is claimed its VM stays bound exactly until one of these events. */
  lemma BoundStays(w: World, e: Event, key: Key)
    requires Fence(w) && Enabled(w, e) && key in w.t.deleting && key in w.t.vmsByPod
    ensures key in Next(w, e).t.vmsByPod <==> !Frees(w, e, key)
  {
    match e
    case Tracking(te) => TrackingKeepsBound(w.t, te, key);
    case Startup(se) => StartupIsOver(w, se, key);
    case Claiming(ce) => ClaimKeepsBound(w, ce, key);
    case Binding(be) => BindKeepsBound(w, be, key);
    case _ => QuietKeepsBound(w, e, key);
  }

  ghost predicate NeverFreed(w: World, es: seq<Event>, key: Key)
    requires Possible(w, es)
    decreases |es|
  {
    es == [] || (!Frees(w, es[0], key) && NeverFreed(Next(w, es[0]), es[1..], key))
  }

  lemma {:induction false} BoundRun(w: World, es: seq<Event>, op: Op)
    requires Fence(w) && Possible(w, es) && op in w.active && op in w.claims
    requires w.claims[op].key in w.t.vmsByPod && NeverFreed(w, es, w.claims[op].key) && op in Run(w, es).active
    ensures w.claims[op].key in Run(w, es).t.vmsByPod
    decreases |es|
  {
    if es != [] {
      FenceStep(w, es[0]);
      ClaimPersistsStep(w, es[0], op);
      BoundStays(w, es[0], w.claims[op].key);
      ClaimPersists(Next(w, es[0]), es[1..], op);
      BoundRun(Next(w, es[0]), es[1..], op);
    }
  }

  // ---------------------------------------------------------------- the VM is removed

  /** What a delete reads under its claim is the VM the key is bound to. */
  lemma ReadSeesTheBoundVM(w: World, op: Op)
    requires Enabled(w, Claiming(ReadVM(op)))
    ensures var v, w' := w.t.VMFor(w.claims[op].key), Next(w, Claiming(ReadVM(op)));
            && op in w'.claims && w'.claims[op].seen == (if v.Some? then Some(v.value.id) else None)
            && w'.(claims := w.claims) == w
  {
  }

  /** A delete claims a key exactly when nobody holds it and no other incarnation is tracked. */
  lemma DeleteClaims(w: World, op: Op, key: Key, uid: UID)
    requires Fence(w) && Enabled(w, Claiming(ClaimDelete(op, key, uid)))
    ensures var e := Claiming(ClaimDelete(op, key, uid));
            var free := key !in w.t.deleting && !(w.t.Tracked(key).Some? && w.t.Tracked(key).value.uid != uid);
            && (Claims(w, e, op, key) <==> free)
            && (free ==> op in Next(w, e).claims && Next(w, e).claims[op].key == key && Next(w, e).t.vmsByPod == w.t.vmsByPod
                         && (key in w.t.vmsByPod ==> Next(w, e).claims[op].bound == Some(w.t.vmsByPod[key].id)))
  {
  }

  lemma RemoveTakesWhatIsSeen(w: World, op: Op)
    requires Fence(w) && Enabled(w, Claiming(RemoveVM(op))) && w.claims[op].bound.Some?
    ensures (op, w.claims[op].bound.value) in Next(w, Claiming(RemoveVM(op))).removed
  {
    assert ClaimHonest(w.claims[op]);
  }

  lemma ReadOfClaimedVM(w: World, op: Op)
    requires Fence(w) && Enabled(w, Claiming(ReadVM(op))) && w.claims[op].key in w.t.vmsByPod
    ensures var w' := Next(w, Claiming(ReadVM(op)));
            && Enabled(w', Claiming(RemoveVM(op))) && w'.claims[op].bound == w.claims[op].bound
            && w.claims[op].bound == Some(w.t.vmsByPod[w.claims[op].key].id)
  {
    ReadSeesTheBoundVM(w, op);
    assert ClaimKept(w.t, w.claims[op]);
  }

  /**
   A delete claims a key bound to a VM (from `w` to `claimed`); until it reads (in `ready`),
   whatever else runs, nothing forgets that VM. Then the read makes the remove possible at
   once, and whenever it is made, that VM is removed.
   */
  lemma DeleteRemovesItsVM(before: seq<Event>, op: Op, key: Key, uid: UID, between: seq<Event>, after: seq<Event>,
                           w: World, claimed: World, ready: World, read: World)
    requires Possible(Init, before) && w == Run(Init, before)
    requires Enabled(w, Claiming(ClaimDelete(op, key, uid))) && claimed == Next(w, Claiming(ClaimDelete(op, key, uid)))
    requires key in w.t.vmsByPod && key !in w.t.deleting && !(w.t.Tracked(key).Some? && w.t.Tracked(key).value.uid != uid)
    requires Possible(claimed, between) && NeverFreed(claimed, between, key) && ready == Run(claimed, between)
    requires Enabled(ready, Claiming(ReadVM(op))) && read == Next(ready, Claiming(ReadVM(op)))
    requires Possible(read, after)
    ensures Enabled(read, Claiming(RemoveVM(op)))
    ensures var last := Run(read, after);
            Enabled(last, Claiming(RemoveVM(op))) ==> (op, w.t.vmsByPod[key].id) in Next(last, Claiming(RemoveVM(op))).removed
  {
    FenceRun(Init, before);
    DeleteClaims(w, op, key, uid);
    FenceStep(w, Claiming(ClaimDelete(op, key, uid)));
    FenceRun(claimed, between);
    ClaimPersists(claimed, between, op);
    BoundRun(claimed, between, op);
    ReadOfClaimedVM(ready, op);
    FenceStep(ready, Claiming(ReadVM(op)));
    FenceRun(read, after);
    ClaimPersists(read, after, op);
    var last := Run(read, after);
    if Enabled(last, Claiming(RemoveVM(op))) {
      RemoveTakesWhatIsSeen(last, op);
    }
  }

  /** An eviction claims exactly the incarnation and VM it was told of, and can remove that VM at once. */
  lemma EvictionRemovesItsVM(before: seq<Event>, op: Op, key: Key, uid: UID, id: VMID, w: World)
    requires Possible(Init, before) && w == Run(Init, before) && Enabled(w, Claiming(ClaimEvict(op, key, uid, id)))
    ensures var claimed := Next(w, Claiming(ClaimEvict(op, key, uid, id)));
            var free := && key !in w.t.deleting && w.t.Tracked(key).Some? && w.t.Tracked(key).value.uid == uid
                        && w.t.VMFor(key).Some? && w.t.VMFor(key).value.id == id;
            && (op in claimed.active <==> free)
            && (free ==> Enabled(claimed, Claiming(RemoveVM(op))) && (op, id) in Next(claimed, Claiming(RemoveVM(op))).removed)
  {
    FenceRun(Init, before);
  }

  // ---------------------------------------------------------------- the key is free again

  /** A delete that forgets and finishes leaves the key without pod, VM, intent and claim, and every other claim as it was. */
  lemma DeleteFreesTheKey(before: seq<Event>, op: Op, w: World)
    requires Possible(Init, before) && w == Run(Init, before) && Enabled(w, Claiming(Forget(op)))
    ensures var forgot := Next(w, Claiming(Forget(op)));
            && Enabled(forgot, Claiming(Finish(op)))
            && var key, done := w.claims[op].key, Next(forgot, Claiming(Finish(op)));
               && key !in done.t.deleting && op !in done.active
               && done.t.Tracked(key).None? && done.t.VMFor(key).None? && key !in done.t.intents
               && done.active == w.active - {op} && done.t.deleting == w.t.deleting - {key}
  {
    UntrackFrame(w.t, w.claims[op].key);
  }
}
