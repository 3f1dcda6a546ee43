/** The restart cooldown of the VM watcher, over whole runs. */
module RestartCooldown {
  import opened Wrappers
  import opened Tables
  import opened ProviderRuns

  /** The watcher restarts the VM in this event. */
  predicate Restarts(w: World, e: Event, id: VMID) {
    e == Restarting(TryRestart(id)) && w.t.TryRestart(id, w.now).1
  }

  /** A key bound to the VM loses its record in this event. */
  ghost predicate Drops(w: World, e: Event, id: VMID)
    requires Enabled(w, e)
  {
    exists key :: key in w.t.vmsByPod && w.t.vmsByPod[key].id == id && key !in Next(w, e).t.vmsByPod
  }

  /** No event of the run drops the VM. */
  ghost predicate NeverDrops(w: World, es: seq<Event>, id: VMID)
    requires Possible(w, es)
    decreases |es|
  {
    es == [] || (!Drops(w, es[0], id) && NeverDrops(Next(w, es[0]), es[1..], id))
  }

  /** The restart at time `at` still counts: it or a later one is on record, or twice the cooldown has passed. */
  predicate Remembers(w: World, id: VMID, at: int) {
    (id in w.t.lastRestart && at <= w.t.lastRestart[id]) || w.now - at >= 2 * RESTART_COOLDOWN
  }

  lemma DropVMRemembers(t: Tables, key: Key, id: VMID)
    ensures id in t.lastRestart && !(key in t.vmsByPod && t.vmsByPod[key].id == id) ==>
      id in t.DropVM(key).lastRestart && t.DropVM(key).lastRestart[id] == t.lastRestart[id]
    ensures key !in t.DropVM(key).vmsByPod
  {
  }

  lemma TrackPodKeepsStamps(t: Tables, r: Ref, v: Option<VM>)
    requires r in t.objects
    ensures t.TrackPod(r, v).lastRestart == t.lastRestart
  {
    ReassertFrame(t, t.objects[r].key, r);
  }

  lemma DetachRemembers(t: Tables, key: Key, uid: UID, v: Option<VM>, id: VMID)
    requires id in t.lastRestart
    requires key in t.vmsByPod && t.vmsByPod[key].id == id ==> key in t.DetachIncarnation(key, uid, v).0.vmsByPod
    ensures var t' := t.DetachIncarnation(key, uid, v).0; id in t'.lastRestart && t'.lastRestart[id] == t.lastRestart[id]
  {
    DropVMRemembers(t, key, id);
  }

  /** Tracking sections lose a restart record only by dropping the VM. */
  lemma TrackingRemembers(t: Tables, e: TrackingEvent, id: VMID)
    requires TrackingEnabled(t, e) && id in t.lastRestart
    requires forall key :: key in t.vmsByPod && t.vmsByPod[key].id == id ==> key in TrackingStep(t, e).vmsByPod
    ensures var t' := TrackingStep(t, e); id in t'.lastRestart && t'.lastRestart[id] == t.lastRestart[id]
  {
    match e
    case TrackUnlessDeleting(r, v) => TrackPodKeepsStamps(t, r, v);
    case TrackIncarnation(r, v) => TrackPodKeepsStamps(t, r, Some(v));
    case ForgetVMOnly(key) => DropVMRemembers(t, key, id);
    case Detach(key, uid, v) => DetachRemembers(t, key, uid, v, id);
    case _ =>
  }

  lemma ClaimRemembers(w: World, e: ClaimEvent, id: VMID)
    requires ClaimEnabled(w, e) && id in w.t.lastRestart
    requires forall key :: key in w.t.vmsByPod && w.t.vmsByPod[key].id == id ==> key in ClaimStep(w, e).t.vmsByPod
    ensures var t' := ClaimStep(w, e).t; id in t'.lastRestart && t'.lastRestart[id] == w.t.lastRestart[id]
  {
    if e.Forget? || e.Untrack? {
      DropVMRemembers(w.t, w.claims[e.op].key, id);
    }
  }

  lemma RestartRemembers(w: World, e: RestartEvent, id: VMID, at: int)
    requires Remembers(w, id, at) && at <= w.now
    ensures Remembers(RestartStep(w, e), id, at)
  {
  }

  lemma StartupRemembers(w: World, e: StartupEvent)
    requires StartupEnabled(w, e)
    ensures StartupStep(w, e).t.lastRestart == w.t.lastRestart
  {
    if e.StartupTrack? {
      ReassertFrame(w.t, w.t.objects[e.r].key, e.r);
    }
  }

  lemma RemembersStep(w: World, e: Event, id: VMID, at: int)
    requires Enabled(w, e) && !Drops(w, e, id) && Remembers(w, id, at) && at <= w.now
    ensures Remembers(Next(w, e), id, at) && at <= Next(w, e).now
  {
    var recorded := id in w.t.lastRestart && at <= w.t.lastRestart[id];
    match e
    case Tracking(te) =>
      if recorded {
        TrackingRemembers(w.t, te, id);
      }
    case Lifecycle(le) => LifecycleFrame(w.t, le);
    case Startup(se) => StartupRemembers(w, se);
    case Claiming(ce) =>
      if recorded {
        ClaimRemembers(w, ce, id);
      }
    case Restarting(re) => RestartRemembers(w, re, id, at);
    case Flushing(fe) => QuietFlush(w, fe);
    case Binding(be) =>
      if recorded && BindEffect(w, be).Some? {
        TrackingRemembers(w.t, BindEffect(w, be).value, id);
      }
  }

  lemma {:induction false} RemembersRun(w: World, es: seq<Event>, id: VMID, at: int)
    requires Possible(w, es) && NeverDrops(w, es, id) && Remembers(w, id, at) && at <= w.now
    ensures Remembers(Run(w, es), id, at)
    decreases |es|
  {
    if es != [] {
      RemembersStep(w, es[0], id, at);
      RemembersRun(Next(w, es[0]), es[1..], id, at);
    }
  }

  /**
   Two watcher restarts of one VM with no drop of it in between are at least the
   cooldown apart, however often stale entries are collected between them.
   */
  lemma RestartsAreSpaced(w: World, first: Event, between: seq<Event>, second: Event, id: VMID)
    requires Enabled(w, first) && Restarts(w, first, id)
    requires Possible(Next(w, first), between) && NeverDrops(Next(w, first), between, id)
    requires Restarts(Run(Next(w, first), between), second, id)
    ensures Run(Next(w, first), between).now - w.now >= RESTART_COOLDOWN
  {
    RemembersRun(Next(w, first), between, id, w.now);
  }

  /** A VM is restarted exactly when the cooldown has passed since the last restart on record; and time does pass. */
  lemma RestartIsAllowedAgain(w: World, id: VMID, d: nat)
    ensures Restarts(w, Restarting(TryRestart(id)), id) <==> id !in w.t.lastRestart || 30_000 <= w.now - w.t.lastRestart[id]
    ensures var restarted := Next(w, Restarting(TryRestart(id)));
            Restarts(w, Restarting(TryRestart(id)), id) ==>
              (Restarts(Next(restarted, Restarting(Tick(d))), Restarting(TryRestart(id)), id) <==> 30_000 <= d)
  {
  }

  /** Collecting forgets exactly the restarts more than twice the cooldown ago. */
  lemma GcForgetsTheStale(w: World, id: VMID)
    ensures id in Next(w, Restarting(GcRestarts)).t.lastRestart <==> id in w.t.lastRestart && w.now - w.t.lastRestart[id] <= 60_000
  {
  }
}
