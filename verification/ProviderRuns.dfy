/**
 Runs of the provider: every section under `p.mu` is one event, taken in any
 order by framework callbacks, the VM watcher, deferred rechecks and background
 work; what the runtime and the apiserver answer is part of the event.
 */
module ProviderRuns {
  import opened Wrappers
  import opened Tables

  type Op = nat
  type Flush = nat
  type Bind = nat

  // ---------------------------------------------------------------- events

  /** Sections that track, detach or re-index pods and VMs; a new object is a pod handed in from outside. */
  datatype TrackingEvent =
    | NewObject(r: Ref, pod: Pod)
    | TrackUnlessDeleting(r: Ref, bind: Option<VM>)
    | TrackIncarnation(r: Ref, v: VM)
    | Detach(key: Key, uid: UID, bind: Option<VM>)
    | FailCreate(r: Ref)
    | DropIndexed(name: string, v: VM)
    | IndexOrphan(v: VM)
    | ForgetVMOnly(key: Key)
    | UpdateVM(key: Key, id: VMID, copy: Ref)

  datatype LifecycleEvent =
    | Apply(r: Ref, state: LifecycleState, message: string)
    | ApplyForWake(r: Ref, id: VMID, state: LifecycleState, message: string)
    | Republish(r: Ref)
    | Lift(r: Ref)

  /** Sections of startup reconcile, before callbacks and watcher run. */
  datatype StartupEvent =
    | StartupTrack(r: Ref, bind: Option<VM>)
    | StartupSeed(r: Ref)
    | StartupDone

  /** Sections of deletes (`deletePod`) and evictions (`removeThenEvict`, `evictGoneIncarnation`). */
  datatype ClaimEvent =
    | ClaimDelete(op: Op, key: Key, uid: UID)
    | ClaimEvict(op: Op, key: Key, uid: UID, id: VMID)
    | ReadVM(op: Op)
    | RemoveVM(op: Op)
    | Forget(op: Op)
    | Untrack(op: Op)
    | Finish(op: Op)

  datatype RestartEvent =
    | TryRestart(id: VMID)
    | GcRestarts
    | Tick(d: nat)

  /** The apiserver's answer to a patch: accepted, refused for this UID or name, or some other error. */
  datatype PatchAnswer = Accepted | Refused | Errored

  datatype FlushEvent =
    | StartFlush(f: Flush, key: Key, uid: UID, status: Status)
    | FlushCheck(f: Flush)
    | FlushPatch(f: Flush, answer: PatchAnswer)
    | FlushRecord(f: Flush)
    | FlushDrop(f: Flush)

  /**
   Sections of one `bindRuntime` call, as rollbacks, creates, wakes and adoptions make
   it; a rollback that re-added a NIC refreshes the tracked record first. `taken` is the
   apiserver saying that another pod owns the name.
   */
  datatype BindEvent =
    | StartBind(b: Bind, r: Ref, v: VM, refresh: bool)
    | BindRefresh(b: Bind, copy: Ref)
    | BindTrack(b: Bind)
    | BindCheck(b: Bind)
    | BindPatch(b: Bind, taken: bool)
    | BindDetach(b: Bind)

  datatype Event =
    | Tracking(te: TrackingEvent)
    | Lifecycle(le: LifecycleEvent)
    | Startup(se: StartupEvent)
    | Claiming(ce: ClaimEvent)
    | Restarting(re: RestartEvent)
    | Flushing(fe: FlushEvent)
    | Binding(be: BindEvent)

  // ---------------------------------------------------------------- state

  /** A successful delete or eviction claim; `owner` and `bound` record what the key held when it was taken. */
  datatype Claim = Claim(key: Key, uid: UID, owner: Option<UID>, bound: Option<VMID>, seen: Option<VMID>)

  datatype FlushPoint = Checking | Patching | Recording | Dropping | Ended

  /** One `flushLifecycle` call. */
  datatype Flusher = Flusher(key: Key, uid: UID, status: Status, attempt: nat, at: FlushPoint)

  const LIFECYCLE_PATCH_ATTEMPTS := 3

  /** Refused, Bound and Detached are ends. */
  datatype BindPoint = Refreshes | Tracks | Checks | Patches | Detaches | IsRefused | IsBound | IsDetached

  datatype Binder = Binder(r: Ref, v: VM, at: BindPoint)

  datatype World = World(
    t: Tables,
    started: bool,
    now: int,
    claims: map<Op, Claim>,
    active: set<Op>,
    removed: set<(Op, VMID)>,
    flushers: map<Flush, Flusher>,
    accepted: set<(Key, UID, Status)>,
    seeded: set<(Key, UID, Status)>,
    binders: map<Bind, Binder>)

  const Init := World(Empty, false, 0, map[], {}, {}, map[], {}, {}, map[])

  // ---------------------------------------------------------------- steps

  predicate TrackingEnabled(t: Tables, e: TrackingEvent) {
    match e
    case NewObject(r, _) => r !in t.objects
    case TrackUnlessDeleting(r, _) => r in t.objects
    case TrackIncarnation(r, _) => r in t.objects
    case FailCreate(r) => r in t.objects
    case _ => true
  }

  function TrackingStep(t: Tables, e: TrackingEvent): Tables
    requires TrackingEnabled(t, e)
  {
    match e
    case NewObject(r, pod) => t.(objects := t.objects[r := pod])
    case TrackUnlessDeleting(r, v) => t.TrackPodUnlessDeleting(r, v).0
    case TrackIncarnation(r, v) => t.TrackPodIncarnation(r, v).0
    case Detach(key, uid, v) => t.DetachIncarnation(key, uid, v).0
    case FailCreate(r) => t.FailCreate(r)
    case DropIndexed(name, v) => t.DropIndexed(name, v)
    case IndexOrphan(v) => t.IndexOrphan(v)
    case ForgetVMOnly(key) => t.DropVM(key)
    case UpdateVM(key, id, copy) => t.UpdateTrackedVM(key, id, copy).0
  }

  function LifecycleStep(t: Tables, e: LifecycleEvent): (Tables, Option<Status>)
    requires e.r in t.objects
  {
    match e
    case Apply(r, state, message) => t.ApplyLifecycle(r, state, message)
    case ApplyForWake(r, id, state, message) => t.ApplyForWake(r, id, state, message)
    case Republish(r) => t.Republish(r)
    case Lift(r) => t.LiftHibernateFailure(r)
  }

  /** A seed reads the pod startup has just tracked, or one whose key is still untracked. */
  predicate StartupEnabled(w: World, e: StartupEvent) {
    match e
    case StartupTrack(r, _) => !w.started && r in w.t.objects
    case StartupSeed(r) =>
      !w.started && r in w.t.objects && (w.t.objects[r].key in w.t.pods ==> w.t.pods[w.t.objects[r].key] == r)
    case StartupDone => true
  }

  function StartupStep(w: World, e: StartupEvent): World
    requires StartupEnabled(w, e)
  {
    match e
    case StartupTrack(r, v) => w.(t := w.t.TrackPod(r, v))
    case StartupSeed(r) =>
      var pod := w.t.objects[r];
      if pod.status.None? then w
      else w.(t := w.t.Seed(r), seeded := w.seeded + {(pod.key, pod.uid, pod.status.value)})
    case StartupDone => w.(started := true)
  }

  predicate ClaimEnabled(w: World, e: ClaimEvent) {
    match e
    case ClaimDelete(op, _, _) => w.started && op !in w.claims
    case ClaimEvict(op, _, _, _) => w.started && op !in w.claims
    case RemoveVM(op) => op in w.active && op in w.claims && w.claims[op].seen.Some?
    case ReadVM(op) => op in w.active && op in w.claims
    case Forget(op) => op in w.active && op in w.claims
    case Untrack(op) => op in w.active && op in w.claims
    case Finish(op) => op in w.active && op in w.claims
  }

  function NewClaim(t: Tables, key: Key, uid: UID, seen: Option<VMID>): Claim {
    Claim(key, uid,
          if t.Tracked(key).Some? then Some(t.Tracked(key).value.uid) else None,
          if t.VMFor(key).Some? then Some(t.VMFor(key).value.id) else None,
          seen)
  }

  function ClaimStep(w: World, e: ClaimEvent): World
    requires ClaimEnabled(w, e)
  {
    match e
    case ClaimDelete(op, key, uid) =>
      var (t, outcome) := w.t.ClaimDeleting(key, uid);
      if outcome != Claimed then w
      else w.(t := t, claims := w.claims[op := NewClaim(w.t, key, uid, None)], active := w.active + {op})
    case ClaimEvict(op, key, uid, id) =>
      var (t, ok) := w.t.ClaimDeletingIncarnation(key, uid, id);
      if !ok then w
      else w.(t := t, claims := w.claims[op := NewClaim(w.t, key, uid, Some(id))], active := w.active + {op})
    case ReadVM(op) =>
      var v := w.t.VMFor(w.claims[op].key);
      w.(claims := w.claims[op := w.claims[op].(seen := if v.Some? then Some(v.value.id) else None)])
    case RemoveVM(op) => w.(removed := w.removed + {(op, w.claims[op].seen.value)})
    case Forget(op) => w.(t := w.t.Untrack(w.claims[op].key))
    case Untrack(op) => w.(t := w.t.UntrackIncarnation(w.claims[op].key, w.claims[op].uid).0)
    case Finish(op) => w.(t := w.t.FinishDeleting(w.claims[op].key), active := w.active - {op})
  }

  function RestartStep(w: World, e: RestartEvent): World {
    match e
    case TryRestart(id) => w.(t := w.t.TryRestart(id, w.now).0)
    case GcRestarts => w.(t := w.t.GcStaleRestarts(w.now))
    case Tick(d) => w.(now := w.now + d)
  }

  predicate FlushEnabled(w: World, e: FlushEvent) {
    match e
    case StartFlush(f, _, _, _) => f !in w.flushers
    case FlushCheck(f) => f in w.flushers && w.flushers[f].at == Checking
    case FlushPatch(f, _) => f in w.flushers && w.flushers[f].at == Patching
    case FlushRecord(f) => f in w.flushers && w.flushers[f].at == Recording
    case FlushDrop(f) => f in w.flushers && w.flushers[f].at == Dropping
  }

  function AfterPatch(fl: Flusher, answer: PatchAnswer): Flusher {
    match answer
    case Accepted => fl.(at := Recording)
    case Refused => fl.(at := Dropping)
    case Errored =>
      fl.(attempt := fl.attempt + 1, at := if fl.attempt + 1 == LIFECYCLE_PATCH_ATTEMPTS then Ended else Checking)
  }

  function FlushStep(w: World, e: FlushEvent): World
    requires FlushEnabled(w, e)
  {
    match e
    case StartFlush(f, key, uid, status) => w.(flushers := w.flushers[f := Flusher(key, uid, status, 0, Checking)])
    case FlushCheck(f) =>
      var fl := w.flushers[f];
      w.(flushers := w.flushers[f := fl.(at := if w.t.Owned(fl.key, fl.uid, fl.status) then Patching else Ended)])
    case FlushPatch(f, answer) =>
      var fl := w.flushers[f];
      w.(flushers := w.flushers[f := AfterPatch(fl, answer)],
         accepted := if answer == Accepted then w.accepted + {(fl.key, fl.uid, fl.status)} else w.accepted)
    case FlushRecord(f) =>
      var fl := w.flushers[f];
      w.(flushers := w.flushers[f := fl.(at := Ended)], t := w.t.RecordFlushed(fl.key, fl.uid, fl.status))
    case FlushDrop(f) =>
      var fl := w.flushers[f];
      w.(flushers := w.flushers[f := fl.(at := Ended)], t := w.t.DropSuperseded(fl.key, fl.uid, fl.status))
  }

  predicate BindEnabled(w: World, e: BindEvent) {
    match e
    case StartBind(b, r, _, _) => b !in w.binders && r in w.t.objects
    case BindRefresh(b, _) => BinderAt(w, b, Refreshes)
    case BindTrack(b) => BinderAt(w, b, Tracks)
    case BindCheck(b) => BinderAt(w, b, Checks)
    case BindPatch(b, _) => BinderAt(w, b, Patches)
    case BindDetach(b) => BinderAt(w, b, Detaches)
  }

  predicate BinderAt(w: World, b: Bind, at: BindPoint) {
    b in w.binders && w.binders[b].at == at && w.binders[b].r in w.t.objects
  }

  /** What the section does to the tables, if anything. */
  function BindEffect(w: World, e: BindEvent): Option<TrackingEvent>
    requires BindEnabled(w, e)
  {
    match e
    case BindRefresh(b, copy) => Some(UpdateVM(w.t.objects[w.binders[b].r].key, w.binders[b].v.id, copy))
    case BindTrack(b) => Some(TrackIncarnation(w.binders[b].r, w.binders[b].v))
    case BindDetach(b) =>
      var pod := w.t.objects[w.binders[b].r];
      Some(Detach(pod.key, pod.uid, Some(w.binders[b].v)))
    case _ => None
  }

  function NextBinder(w: World, e: BindEvent): Binder
    requires BindEnabled(w, e)
  {
    match e
    case StartBind(b, r, v, refresh) => Binder(r, v, if refresh then Refreshes else Tracks)
    case BindRefresh(b, copy) =>
      var bd := w.binders[b];
      var updated := w.t.UpdateTrackedVM(w.t.objects[bd.r].key, bd.v.id, copy).1;
      bd.(at := Tracks, v := if updated then w.t.vmsByPod[w.t.objects[bd.r].key].(ref := copy) else bd.v)
    case BindTrack(b) =>
      var bd := w.binders[b];
      bd.(at := if w.t.TrackPodIncarnation(bd.r, bd.v).1 then Checks else IsRefused)
    case BindCheck(b) =>
      var bd := w.binders[b];
      bd.(at := if w.t.IsSuperseded(w.t.objects[bd.r].key, w.t.objects[bd.r].uid) then Detaches else Patches)
    case BindPatch(b, taken) => w.binders[b].(at := if taken then Detaches else IsBound)
    case BindDetach(b) => w.binders[b].(at := IsDetached)
  }

  function BindStep(w: World, e: BindEvent): World
    requires BindEnabled(w, e)
  {
    var effect := BindEffect(w, e);
    w.(t := if effect.Some? then TrackingStep(w.t, effect.value) else w.t, binders := w.binders[e.b := NextBinder(w, e)])
  }

  predicate Enabled(w: World, e: Event) {
    match e
    case Tracking(te) => TrackingEnabled(w.t, te)
    case Lifecycle(le) => le.r in w.t.objects
    case Startup(se) => StartupEnabled(w, se)
    case Claiming(ce) => ClaimEnabled(w, ce)
    case Restarting(_) => true
    case Flushing(fe) => FlushEnabled(w, fe)
    case Binding(be) => BindEnabled(w, be)
  }

  function Next(w: World, e: Event): World
    requires Enabled(w, e)
  {
    match e
    case Tracking(te) => w.(t := TrackingStep(w.t, te))
    case Lifecycle(le) => w.(t := LifecycleStep(w.t, le).0)
    case Startup(se) => StartupStep(w, se)
    case Claiming(ce) => ClaimStep(w, ce)
    case Restarting(re) => RestartStep(w, re)
    case Flushing(fe) => FlushStep(w, fe)
    case Binding(be) => BindStep(w, be)
  }

  /** Every event of the run is enabled where it happens. */
  predicate Possible(w: World, es: seq<Event>)
    decreases |es|
  {
    es == [] || (Enabled(w, es[0]) && Possible(Next(w, es[0]), es[1..]))
  }

  function Run(w: World, es: seq<Event>): World
    requires Possible(w, es)
    decreases |es|
  {
    if es == [] then w else Run(Next(w, es[0]), es[1..])
  }

  // ---------------------------------------------------------------- frames

  /** Only lifecycle annotations of known pods and the intent table differ. */
  ghost predicate OnlyLifecycleDiffers(t: Tables, t': Tables) {
    && t'.objects.Keys == t.objects.Keys
    && (forall r :: r in t.objects ==> t'.objects[r] == t.objects[r].(status := t'.objects[r].status))
    && t'.(objects := t.objects, intents := t.intents) == t
  }

  lemma StampFrame(t: Tables, r: Ref, s: Status)
    ensures OnlyLifecycleDiffers(t, t.Stamp(r, s))
  {
  }

  lemma FrameCompose(a: Tables, b: Tables, c: Tables)
    requires OnlyLifecycleDiffers(a, b) && OnlyLifecycleDiffers(b, c)
    ensures OnlyLifecycleDiffers(a, c)
  {
  }

  lemma ApplyFrame(t: Tables, r: Ref, state: LifecycleState, message: string)
    requires r in t.objects
    ensures OnlyLifecycleDiffers(t, t.ApplyLifecycle(r, state, message).0)
  {
    var admitted := t.Admitted(r, state, message);
    if admitted.Some? {
      var key := t.objects[r].key;
      var a := t.(intents := t.intents[key := Intent(t.objects[r].uid, admitted.value, None)]);
      var b := a.Stamp(r, admitted.value);
      StampFrame(a, r, admitted.value);
      FrameCompose(t, a, b);
      if t.Tracked(key).Some? {
        StampFrame(b, t.pods[key], admitted.value);
        FrameCompose(t, b, b.Stamp(t.pods[key], admitted.value));
      }
    }
  }

  lemma LifecycleFrame(t: Tables, e: LifecycleEvent)
    requires e.r in t.objects
    ensures OnlyLifecycleDiffers(t, LifecycleStep(t, e).0)
  {
    match e
    case Apply(r, state, message) => ApplyFrame(t, r, state, message);
    case ApplyForWake(r, id, state, message) => ApplyFrame(t, r, state, message);
    case Republish(r) =>
      var key := t.objects[r].key;
      if key in t.intents {
        ApplyFrame(t, r, t.intents[key].status.state, t.intents[key].status.message);
      }
    case Lift(r) => ApplyFrame(t, r, Creating, "");
  }

  lemma ReassertFrame(t: Tables, key: Key, r: Ref)
    requires r in t.objects
    ensures OnlyLifecycleDiffers(t, t.Reassert(key, r))
  {
    if key in t.intents && t.intents[key].uid == t.objects[r].uid {
      StampFrame(t, r, t.intents[key].status);
    }
  }

  /** Reasserting touches this pod's annotations, or drops the key's foreign intent. */
  lemma ReassertShape(t: Tables, key: Key, r: Ref)
    requires r in t.objects
    ensures var a := t.Reassert(key, r);
            && a.(objects := t.objects, intents := t.intents) == t && a.objects.Keys == t.objects.Keys
            && a.objects == t.objects[r := a.objects[r]] && a.objects[r] == t.objects[r].(status := a.objects[r].status)
            && (a.intents == t.intents || a.intents == t.intents - {key})
  {
  }

  lemma TrackPodShape(t: Tables, r: Ref, v: Option<VM>)
    requires r in t.objects
    ensures var own := t.objects[r].key;
            var a, t' := t.Reassert(own, r), t.TrackPod(r, v);
            && t'.objects == a.objects && t'.intents == a.intents && t'.pods == t.pods[own := r]
            && t'.vmsByPod == (if v.Some? then t.vmsByPod[own := v.value] else t.vmsByPod)
            && t'.deleting == t.deleting && t'.lastRestart == t.lastRestart
  {
    ReassertShape(t, t.objects[r].key, r);
  }

  /** A flusher's step changes at most the intent table. */
  lemma QuietFlush(w: World, e: FlushEvent)
    requires FlushEnabled(w, e)
    ensures var w' := FlushStep(w, e);
            w' == w.(t := w.t.(intents := w'.t.intents), flushers := w'.flushers, accepted := w'.accepted)
  {
  }
}
