/**
 What a rollback of hibernate, or any other `bindRuntime`, leaves in the tables when its
 three sections interleave with everything else (`rollbackHibernate`, `bindRuntime`,
 `applyVMRuntime`).
 */
module HibernateRollback {
  import opened Wrappers
  import opened Tables
  import opened ProviderRuns

  predicate BoundTo(t: Tables, key: Key, v: VM) {
    key in t.vmsByPod && t.vmsByPod[key].id == v.id
  }

  predicate Indexed(t: Tables, v: VM) {
    v.name in t.vmsByName && t.vmsByName[v.name].id == v.id
  }

  /** The VM is bound to the key or indexed under its name, so an update, a delete or a create finds it. */
  predicate Reaches(t: Tables, key: Key, v: VM) {
    BoundTo(t, key, v) || Indexed(t, v)
  }

  // ---------------------------------------------------------------- what takes a VM

  /** A different VM is bound to `k`: that must cover both ways the VM is reached. */
  predicate BindTakes(t: Tables, k: Key, u: VM, key: Key, v: VM) {
    u.id != v.id && (k == key || !BoundTo(t, key, v)) && (u.name == v.name || !Indexed(t, v))
  }

  /** A different VM goes under the name of one that is not bound to its key. */
  predicate IndexTakes(t: Tables, u: VM, key: Key, v: VM) {
    u.id != v.id && u.name == v.name && !BoundTo(t, key, v)
  }

  /** The record bound to `k` is the very one the VM's name is indexed with. */
  predicate NamesRecord(t: Tables, k: Key, v: VM) {
    k in t.vmsByPod && t.vmsByPod[k].name == v.name && v.name in t.vmsByName && t.vmsByName[v.name].ref == t.vmsByPod[k].ref
  }

  /** The binding of `k` is dropped: that must cover both ways the VM is reached. */
  predicate DropTakes(t: Tables, k: Key, key: Key, v: VM) {
    k in t.vmsByPod && (k == key || !BoundTo(t, key, v)) && (NamesRecord(t, k, v) || !Indexed(t, v))
  }

  predicate IsTracked(t: Tables, k: Key, uid: UID) {
    t.Tracked(k).Some? && t.Tracked(k).value.uid == uid
  }

  /** A detach drops the binding of its incarnation, and indexes the VM in hand unless the key still binds one of its name. */
  predicate DetachTakes(t: Tables, k: Key, uid: UID, bind: Option<VM>, key: Key, v: VM) {
    && k !in t.deleting
    && var drops := IsTracked(t, k, uid);
       var indexes := bind.Some? && (drops || t.VMFor(k).None? || t.VMFor(k).value.name != bind.value.name);
       if indexes && bind.value.name == v.name
       then bind.value.id != v.id && (!BoundTo(t, key, v) || (drops && k == key))
       else drops && DropTakes(t, k, key, v)
  }

  /** Which tracking sections take a VM from its key and name, by what they test. */
  predicate TrackingTakes(t: Tables, e: TrackingEvent, key: Key, v: VM)
    requires TrackingEnabled(t, e)
  {
    match e
    case NewObject(_, _) => false
    case TrackUnlessDeleting(r, bind) =>
      bind.Some? && t.objects[r].key !in t.deleting && BindTakes(t, t.objects[r].key, bind.value, key, v)
    case TrackIncarnation(r, u) =>
      if t.objects[r].key in t.deleting || t.IsSuperseded(t.objects[r].key, t.objects[r].uid)
      then IndexTakes(t, u, key, v)
      else BindTakes(t, t.objects[r].key, u, key, v)
    case Detach(k, uid, bind) => DetachTakes(t, k, uid, bind, key, v)
    case FailCreate(_) => false
    case DropIndexed(name, existing) =>
      name == v.name && name in t.vmsByName && t.vmsByName[name].ref == existing.ref && !BoundTo(t, key, v)
    case IndexOrphan(u) => IndexTakes(t, u, key, v)
    case ForgetVMOnly(k) => DropTakes(t, k, key, v)
    case UpdateVM(k, id, _) => k in t.vmsByPod && t.vmsByPod[k].id == id && BindTakes(t, k, t.vmsByPod[k], key, v)
  }

  /** The event takes the VM: startup or a section binds over it or drops it, or a claim forgets or untracks the key that holds it. */
  predicate Takes(w: World, e: Event, key: Key, v: VM)
    requires Enabled(w, e)
  {
    match e
    case Tracking(te) => TrackingTakes(w.t, te, key, v)
    case Startup(se) => se.StartupTrack? && se.bind.Some? && BindTakes(w.t, w.t.objects[se.r].key, se.bind.value, key, v)
    case Claiming(ce) =>
      && (ce.Forget? || (ce.Untrack? && IsTracked(w.t, w.claims[ce.op].key, w.claims[ce.op].uid)))
      && DropTakes(w.t, w.claims[ce.op].key, key, v)
    case Binding(be) => BindEffect(w, be).Some? && TrackingTakes(w.t, BindEffect(w, be).value, key, v)
    case _ => false
  }

  // ---------------------------------------------------------------- and nothing else does

  lemma SetVMReaches(t: Tables, k: Key, u: VM, key: Key, v: VM)
    requires Reaches(t, key, v) && v.name != ""
    ensures Reaches(t.SetVM(k, u), key, v) <==> !BindTakes(t, k, u, key, v)
  {
  }

  lemma TrackPodReaches(t: Tables, r: Ref, bind: Option<VM>, key: Key, v: VM)
    requires r in t.objects && Reaches(t, key, v) && v.name != ""
    ensures Reaches(t.TrackPod(r, bind), key, v) <==> !(bind.Some? && BindTakes(t, t.objects[r].key, bind.value, key, v))
  {
    var own := t.objects[r].key;
    ReassertFrame(t, own, r);
    if bind.Some? {
      SetVMReaches(t, own, bind.value, key, v);
    }
  }

  lemma IndexReaches(t: Tables, u: VM, key: Key, v: VM)
    requires Reaches(t, key, v) && v.name != ""
    ensures Reaches(t.IndexOrphan(u), key, v) <==> !IndexTakes(t, u, key, v)
  {
  }

  lemma DropVMReaches(t: Tables, k: Key, key: Key, v: VM)
    requires Reaches(t, key, v)
    ensures Reaches(t.DropVM(k), key, v) <==> !DropTakes(t, k, key, v)
    ensures BoundTo(t.DropVM(k), key, v) <==> BoundTo(t, key, v) && k != key
  {
  }

  lemma DetachReaches(t: Tables, k: Key, uid: UID, bind: Option<VM>, key: Key, v: VM)
    requires Reaches(t, key, v) && v.name != ""
    ensures Reaches(t.DetachIncarnation(k, uid, bind).0, key, v) <==> !DetachTakes(t, k, uid, bind, key, v)
  {
    if k !in t.deleting {
      DropVMReaches(t, k, key, v);
      var t1 := t.UntrackIncarnation(k, uid).0;
      assert Reaches(t1, key, v) <==> !(IsTracked(t, k, uid) && DropTakes(t, k, key, v));
      assert BoundTo(t1, key, v) <==> BoundTo(t, key, v) && !(IsTracked(t, k, uid) && k == key);
    }
  }

  lemma TrackingReaches(t: Tables, e: TrackingEvent, key: Key, v: VM)
    requires TrackingEnabled(t, e) && Reaches(t, key, v) && v.name != ""
    ensures Reaches(TrackingStep(t, e), key, v) <==> !TrackingTakes(t, e, key, v)
  {
    match e
    case NewObject(_, _) =>
    case TrackUnlessDeleting(r, bind) => TrackPodReaches(t, r, bind, key, v);
    case TrackIncarnation(r, u) =>
      TrackPodReaches(t, r, Some(u), key, v);
      IndexReaches(t, u, key, v);
    case Detach(k, uid, bind) => DetachReaches(t, k, uid, bind, key, v);
    case FailCreate(_) =>
    case DropIndexed(_, _) =>
    case IndexOrphan(u) => IndexReaches(t, u, key, v);
    case ForgetVMOnly(k) => DropVMReaches(t, k, key, v);
    case UpdateVM(k, _, copy) =>
      if k in t.vmsByPod {
        SetVMReaches(t, k, t.vmsByPod[k].(ref := copy), key, v);
      }
  }

  lemma ClaimReaches(w: World, e: ClaimEvent, key: Key, v: VM)
    requires Enabled(w, Claiming(e)) && Reaches(w.t, key, v)
    ensures Reaches(Next(w, Claiming(e)).t, key, v) <==> !Takes(w, Claiming(e), key, v)
  {
    if e.Forget? || e.Untrack? {
      DropVMReaches(w.t, w.claims[e.op].key, key, v);
    }
  }

  lemma StartupReaches(w: World, e: StartupEvent, key: Key, v: VM)
    requires Enabled(w, Startup(e)) && Reaches(w.t, key, v) && v.name != ""
    ensures Reaches(Next(w, Startup(e)).t, key, v) <==> !Takes(w, Startup(e), key, v)
  {
    if e.StartupTrack? {
      TrackPodReaches(w.t, e.r, e.bind, key, v);
    }
  }

  lemma BindReaches(w: World, e: BindEvent, key: Key, v: VM)
    requires Enabled(w, Binding(e)) && Reaches(w.t, key, v) && v.name != ""
    ensures Reaches(Next(w, Binding(e)).t, key, v) <==> !Takes(w, Binding(e), key, v)
  {
    if BindEffect(w, e).Some? {
      TrackingReaches(w.t, BindEffect(w, e).value, key, v);
    }
  }

  lemma FrameReaches(t: Tables, t': Tables, key: Key, v: VM)
    requires OnlyLifecycleDiffers(t, t') && Reaches(t, key, v)
    ensures Reaches(t', key, v)
  {
  }

  lemma LifecycleReaches(w: World, e: LifecycleEvent, key: Key, v: VM)
    requires Enabled(w, Lifecycle(e)) && Reaches(w.t, key, v)
    ensures Reaches(Next(w, Lifecycle(e)).t, key, v)
  {
    LifecycleFrame(w.t, e);
    FrameReaches(w.t, LifecycleStep(w.t, e).0, key, v);
  }

  lemma FlushReaches(w: World, e: FlushEvent, key: Key, v: VM)
    requires Enabled(w, Flushing(e)) && Reaches(w.t, key, v)
    ensures Reaches(Next(w, Flushing(e)).t, key, v)
  {
    QuietFlush(w, e);
  }

  lemma RestartReaches(w: World, e: RestartEvent, key: Key, v: VM)
    requires Reaches(w.t, key, v)
    ensures Reaches(Next(w, Restarting(e)).t, key, v)
  {
  }

  /** A reachable VM stays reachable exactly when the event does not take it. */
  lemma ReachesStep(w: World, e: Event, key: Key, v: VM)
    requires Enabled(w, e) && Reaches(w.t, key, v) && v.name != ""
    ensures Reaches(Next(w, e).t, key, v) <==> !Takes(w, e, key, v)
  {
    match e
    case Tracking(te) => TrackingReaches(w.t, te, key, v);
    case Lifecycle(le) => LifecycleReaches(w, le, key, v);
    case Startup(se) => StartupReaches(w, se, key, v);
    case Claiming(ce) => ClaimReaches(w, ce, key, v);
    case Restarting(re) => RestartReaches(w, re, key, v);
    case Flushing(fe) => FlushReaches(w, fe, key, v);
    case Binding(be) => BindReaches(w, be, key, v);
  }

  /** Some event of the run takes the VM. */
  ghost predicate Taken(w: World, es: seq<Event>, key: Key, v: VM)
    requires Possible(w, es)
    decreases |es|
  {
    es != [] && (Takes(w, es[0], key, v) || Taken(Next(w, es[0]), es[1..], key, v))
  }

  /** The VM is reachable in every state of the run. */
  ghost predicate AlwaysReached(w: World, es: seq<Event>, key: Key, v: VM)
    requires Possible(w, es)
    decreases |es|
  {
    Reaches(w.t, key, v) && (es != [] ==> AlwaysReached(Next(w, es[0]), es[1..], key, v))
  }

  lemma {:induction false} ReachesRun(w: World, es: seq<Event>, key: Key, v: VM)
    requires Possible(w, es) && Reaches(w.t, key, v) && v.name != ""
    ensures AlwaysReached(w, es, key, v) <==> !Taken(w, es, key, v)
    ensures AlwaysReached(w, es, key, v) ==> Reaches(Run(w, es).t, key, v)
    decreases |es|
  {
    if es != [] {
      ReachesStep(w, es[0], key, v);
      if !Takes(w, es[0], key, v) {
        ReachesRun(Next(w, es[0]), es[1..], key, v);
      }
    }
  }

  /** The first section leaves the VM reachable, whether it binds or is refused. */
  lemma BindTrackReaches(w: World, b: Bind)
    requires BindEnabled(w, BindTrack(b)) && w.binders[b].v.name != ""
    ensures Reaches(BindStep(w, BindTrack(b)).t, w.t.objects[w.binders[b].r].key, w.binders[b].v)
  {
  }

  /**
   From the first section of a rollback on, whatever interleaves with its other
   sections and with its end: the VM stays bound or indexed exactly until an event takes
   it, which only a claim's forget or untrack, a binding of another VM over it and a drop
   of its record do, and only where nothing else still reaches it.
   */
  lemma RollbackKeepsVMReachable(w: World, b: Bind, es: seq<Event>)
    requires Enabled(w, Binding(BindTrack(b))) && w.binders[b].v.name != ""
    requires Possible(Next(w, Binding(BindTrack(b))), es)
    ensures var key, v := w.t.objects[w.binders[b].r].key, w.binders[b].v;
            var first := Next(w, Binding(BindTrack(b)));
            && (AlwaysReached(first, es, key, v) <==> !Taken(first, es, key, v))
            && (Reaches(Run(first, es).t, key, v) || Taken(first, es, key, v))
  {
    BindTrackReaches(w, b);
    ReachesRun(Next(w, Binding(BindTrack(b))), es, w.t.objects[w.binders[b].r].key, w.binders[b].v);
  }

  /**
   The closing detach makes it reachable again even if it was taken in between, except
   when a claim holds the key, which then owns its VM, or another VM of the name is bound to it.
   */
  lemma DetachRestoresReach(w: World, b: Bind)
    requires Enabled(w, Binding(BindDetach(b))) && w.binders[b].v.name != ""
    ensures var key, v := w.t.objects[w.binders[b].r].key, w.binders[b].v;
            var t' := Next(w, Binding(BindDetach(b))).t;
            || Reaches(t', key, v)
            || (key in w.t.deleting && t' == w.t)
            || (t'.VMFor(key).Some? && t'.VMFor(key).value.name == v.name && t'.VMFor(key).value.id != v.id)
  {
    var pod := w.t.objects[w.binders[b].r];
    if pod.key !in w.t.deleting {
      var t1 := w.t.UntrackIncarnation(pod.key, pod.uid).0;
      assert t1.VMFor(pod.key).Some? ==> t1 == w.t;
    }
  }
}
