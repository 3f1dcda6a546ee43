/**
 The lifecycle intent over whole runs (`provider/cocoon/lifecycle.go`):
 agreement with the tracked pod, ordering of the writes of one incarnation, and
 what an acknowledged flush means.
 */
module LifecycleRuns {
  import opened Wrappers
  import opened Tables
  import opened ProviderRuns

  // ---------------------------------------------------------------- agreement

  /** A tracked key's intent is its pod's own, and the pod's lifecycle annotations say the same. */
  ghost predicate AgreesAt(t: Tables, key: Key) {
    key in t.pods && key in t.intents ==>
      && t.pods[key] in t.objects
      && t.objects[t.pods[key]].uid == t.intents[key].uid
      && t.objects[t.pods[key]].status == Some(t.intents[key].status)
  }

  ghost predicate Agreement(t: Tables) {
    t.WellFormed() && forall key :: AgreesAt(t, key)
  }

  lemma ApplyAgrees(t: Tables, r: Ref, state: LifecycleState, message: string)
    requires Agreement(t) && r in t.objects
    ensures Agreement(t.ApplyLifecycle(r, state, message).0)
  {
    ApplyFrame(t, r, state, message);
    var t' := t.ApplyLifecycle(r, state, message).0;
    var own := t.objects[r].key;
    forall key
      ensures AgreesAt(t', key)
    {
      assert AgreesAt(t, key);
      if key != own && key in t.pods {
        assert t.objects[t.pods[key]].key == key;
      }
    }
  }

  lemma LifecycleAgrees(t: Tables, e: LifecycleEvent)
    requires Agreement(t) && e.r in t.objects
    ensures Agreement(LifecycleStep(t, e).0)
  {
    match e
    case Apply(r, state, message) => ApplyAgrees(t, r, state, message);
    case ApplyForWake(r, id, state, message) => ApplyAgrees(t, r, state, message);
    case Republish(r) =>
      var key := t.objects[r].key;
      if key in t.intents {
        ApplyAgrees(t, r, t.intents[key].status.state, t.intents[key].status.message);
      }
    case Lift(r) => ApplyAgrees(t, r, Creating, "");
  }

  /** Tracking re-stamps this incarnation's intent onto whatever pod is handed in, or drops another's. */
  lemma TrackPodAgrees(t: Tables, r: Ref, v: Option<VM>)
    requires Agreement(t) && r in t.objects
    ensures Agreement(t.TrackPod(r, v))
  {
    var own := t.objects[r].key;
    ReassertShape(t, own, r);
    TrackPodShape(t, r, v);
    var a := t.Reassert(own, r);
    assert own in a.intents ==> a.intents[own].uid == t.objects[r].uid && a.objects[r].status == Some(a.intents[own].status);
    TrackedAgrees(t, a, t.TrackPod(r, v), r);
  }

  lemma TrackedAgrees(t: Tables, a: Tables, t': Tables, r: Ref)
    requires Agreement(t) && r in t.objects && a.objects.Keys == t.objects.Keys
    requires a.objects == t.objects[r := a.objects[r]] && a.objects[r] == t.objects[r].(status := a.objects[r].status)
    requires var own := t.objects[r].key;
             && (a.intents == t.intents || a.intents == t.intents - {own})
             && (own in a.intents ==> a.intents[own].uid == t.objects[r].uid && a.objects[r].status == Some(a.intents[own].status))
             && t'.objects == a.objects && t'.intents == a.intents && t'.pods == t.pods[own := r]
    ensures Agreement(t')
  {
    forall key
      ensures AgreesAt(t', key)
    {
      assert AgreesAt(t, key);
      assert key in t.pods ==> t.objects[t.pods[key]].key == key;
    }
  }

  /** Pods and intents were at most dropped; pod objects did not change. */
  ghost predicate Less(t: Tables, t': Tables) {
    && t'.objects == t.objects
    && (forall key :: key in t'.pods ==> key in t.pods && t'.pods[key] == t.pods[key])
    && SubIntents(t, t')
  }

  ghost predicate SubIntents(t: Tables, t': Tables) {
    forall key :: key in t'.intents ==> key in t.intents && t'.intents[key] == t.intents[key]
  }

  lemma LessAgrees(t: Tables, t': Tables)
    requires Agreement(t) && Less(t, t')
    ensures Agreement(t')
  {
    forall key
      ensures AgreesAt(t', key)
    {
      assert AgreesAt(t, key);
    }
  }

  lemma UntrackIsLess(t: Tables, key: Key)
    ensures Less(t, t.Untrack(key))
  {
  }

  lemma DetachIsLess(t: Tables, key: Key, uid: UID, v: Option<VM>)
    ensures Less(t, t.DetachIncarnation(key, uid, v).0)
  {
    UntrackIsLess(t, key);
    var u := t.UntrackIncarnation(key, uid).0;
    assert Less(t, u);
    var d := t.DetachIncarnation(key, uid, v).0;
    assert d.objects == t.objects && (d.pods == u.pods || d == t) && (d.intents == u.intents || d == t);
  }

  lemma DropVMIsLess(t: Tables, key: Key)
    ensures Less(t, t.DropVM(key))
  {
  }

  lemma UpdateVMIsLess(t: Tables, key: Key, id: VMID, copy: Ref)
    ensures Less(t, t.UpdateTrackedVM(key, id, copy).0)
  {
  }

  lemma ClaimIsLess(w: World, e: ClaimEvent)
    requires ClaimEnabled(w, e)
    ensures Less(w.t, ClaimStep(w, e).t)
  {
    match e
    case Forget(op) => UntrackIsLess(w.t, w.claims[op].key);
    case Untrack(op) => UntrackIsLess(w.t, w.claims[op].key);
    case _ =>
  }

  lemma NewObjectAgrees(t: Tables, r: Ref, pod: Pod)
    requires Agreement(t) && r !in t.objects
    ensures Agreement(t.(objects := t.objects[r := pod]))
  {
    var t' := t.(objects := t.objects[r := pod]);
    forall key | key in t'.pods && key in t'.intents
      ensures AgreesAt(t', key)
    {
      assert AgreesAt(t, key);
    }
  }

  lemma TrackPodSubIntents(t: Tables, r: Ref, v: Option<VM>)
    requires r in t.objects
    ensures SubIntents(t, t.TrackPod(r, v))
  {
    ReassertShape(t, t.objects[r].key, r);
    TrackPodShape(t, r, v);
  }

  /** No tracking section adds or changes an intent. */
  lemma TrackingKeepsIntents(t: Tables, e: TrackingEvent)
    requires TrackingEnabled(t, e)
    ensures SubIntents(t, TrackingStep(t, e))
  {
    match e
    case TrackUnlessDeleting(r, v) => TrackPodSubIntents(t, r, v);
    case TrackIncarnation(r, v) => TrackPodSubIntents(t, r, Some(v));
    case Detach(key, uid, v) => DetachIsLess(t, key, uid, v);
    case ForgetVMOnly(key) => DropVMIsLess(t, key);
    case UpdateVM(key, id, copy) => UpdateVMIsLess(t, key, id, copy);
    case _ =>
  }

  lemma BindKeepsIntents(w: World, e: BindEvent)
    requires BindEnabled(w, e)
    ensures SubIntents(w.t, BindStep(w, e).t)
  {
    if BindEffect(w, e).Some? {
      TrackingKeepsIntents(w.t, BindEffect(w, e).value);
    }
  }

  lemma DroppingAgrees(t: Tables, e: TrackingEvent)
    requires Agreement(t) && TrackingEnabled(t, e)
    requires e.Detach? || e.FailCreate? || e.DropIndexed? || e.IndexOrphan? || e.ForgetVMOnly? || e.UpdateVM?
    ensures Agreement(TrackingStep(t, e))
  {
    match e {
      case Detach(key, uid, v) => DetachIsLess(t, key, uid, v);
      case ForgetVMOnly(key) => DropVMIsLess(t, key);
      case UpdateVM(key, id, copy) => UpdateVMIsLess(t, key, id, copy);
      case _ =>
    }
    LessAgrees(t, TrackingStep(t, e));
  }

  lemma TrackingAgrees(t: Tables, e: TrackingEvent)
    requires Agreement(t) && TrackingEnabled(t, e)
    ensures Agreement(TrackingStep(t, e))
  {
    match e
    case NewObject(r, pod) => NewObjectAgrees(t, r, pod);
    case TrackUnlessDeleting(r, v) => TrackPodAgrees(t, r, v);
    case TrackIncarnation(r, v) =>
      TrackPodAgrees(t, r, Some(v));
      LessAgrees(t, t.IndexOrphan(v));
    case _ => DroppingAgrees(t, e);
  }

  lemma StartupAgrees(w: World, e: StartupEvent)
    requires Agreement(w.t) && StartupEnabled(w, e)
    ensures Agreement(StartupStep(w, e).t)
  {
    match e
    case StartupTrack(r, v) => TrackPodAgrees(w.t, r, v);
    case StartupSeed(r) =>
      forall key
        ensures AgreesAt(StartupStep(w, e).t, key)
      {
        assert AgreesAt(w.t, key);
      }
    case StartupDone =>
  }

  lemma FlushAgrees(w: World, e: FlushEvent)
    requires Agreement(w.t) && FlushEnabled(w, e)
    ensures Agreement(FlushStep(w, e).t)
  {
    forall key
      ensures AgreesAt(FlushStep(w, e).t, key)
    {
      assert AgreesAt(w.t, key);
    }
  }

  lemma ClaimAgrees(w: World, e: ClaimEvent)
    requires Agreement(w.t) && Enabled(w, Claiming(e))
    ensures Agreement(Next(w, Claiming(e)).t)
  {
    ClaimIsLess(w, e);
    LessAgrees(w.t, ClaimStep(w, e).t);
  }

  lemma RestartAgrees(w: World, e: RestartEvent)
    requires Agreement(w.t)
    ensures Agreement(Next(w, Restarting(e)).t)
  {
    LessAgrees(w.t, RestartStep(w, e).t);
  }

  lemma BindAgrees(w: World, e: BindEvent)
    requires Agreement(w.t) && Enabled(w, Binding(e))
    ensures Agreement(Next(w, Binding(e)).t)
  {
    if BindEffect(w, e).Some? {
      TrackingAgrees(w.t, BindEffect(w, e).value);
    }
  }

  lemma AgreementStep(w: World, e: Event)
    requires Agreement(w.t) && Enabled(w, e)
    ensures Agreement(Next(w, e).t)
  {
    match e
    case Tracking(te) => TrackingAgrees(w.t, te);
    case Lifecycle(le) => LifecycleAgrees(w.t, le);
    case Startup(se) => StartupAgrees(w, se);
    case Claiming(ce) => ClaimAgrees(w, ce);
    case Restarting(re) => RestartAgrees(w, re);
    case Flushing(fe) => FlushAgrees(w, fe);
    case Binding(be) => BindAgrees(w, be);
  }

  lemma {:induction false} AgreementRun(w: World, es: seq<Event>)
    requires Agreement(w.t) && Possible(w, es)
    ensures Agreement(Run(w, es).t)
    decreases |es|
  {
    if es != [] {
      AgreementStep(w, es[0]);
      AgreementRun(Next(w, es[0]), es[1..]);
    }
  }

  /** In every reachable state the tracked pods say what their intents say, whatever stale pods were tracked or written. */
  lemma TrackedPodsAgreeWithIntents(es: seq<Event>)
    requires Possible(Init, es)
    ensures Agreement(Run(Init, es).t)
  {
    AgreementRun(Init, es);
  }

  // ---------------------------------------------------------------- ordering

  ghost predicate HasIntent(w: World, key: Key, uid: UID) {
    key in w.t.intents && w.t.intents[key].uid == uid
  }

  // ---------------------------------------------------------------- when a write is admitted

  /** The generation a write carries: the larger of the pod's own and the tracked pod's. */
  function WriteGen(t: Tables, r: Ref): (g: int)
    requires r in t.objects
    ensures var pod, tracked := t.objects[r], t.Tracked(t.objects[r].key);
            && pod.gen <= g && (tracked.Some? ==> tracked.value.gen <= g)
            && (g == pod.gen || (tracked.Some? && g == tracked.value.gen))
  {
    var pod, tracked := t.objects[r], t.Tracked(t.objects[r].key);
    if tracked.None? || tracked.value.gen <= pod.gen then pod.gen else tracked.value.gen
  }

  predicate HasOwnIntent(t: Tables, r: Ref)
    requires r in t.objects
  {
    t.objects[r].key in t.intents && t.intents[t.objects[r].key].uid == t.objects[r].uid
  }

  /**
   What a write is dropped for: another incarnation is tracked; nothing is, and the intent
   is another's; the own intent is of a newer generation; or it is a failure of this very
   generation, and the write would call the pod Ready or Hibernated.
   */
  predicate IsDropped(t: Tables, r: Ref, state: LifecycleState)
    requires r in t.objects
  {
    var pod := t.objects[r];
    || (t.Tracked(pod.key).Some? && t.Tracked(pod.key).value.uid != pod.uid)
    || (t.Tracked(pod.key).None? && pod.key in t.intents && !HasOwnIntent(t, r))
    || (HasOwnIntent(t, r) && WriteGen(t, r) < t.intents[pod.key].status.gen)
    || (&& HasOwnIntent(t, r) && t.intents[pod.key].status.state == Failed && t.intents[pod.key].status.gen == WriteGen(t, r)
        && (state == Ready || state == Hibernated))
  }

  /** A write is admitted exactly when nothing of this speaks against it, and says what it was asked to say. */
  lemma AdmittedExactly(t: Tables, r: Ref, state: LifecycleState, message: string)
    requires r in t.objects
    ensures t.Admitted(r, state, message) == if IsDropped(t, r, state) then None else Some(Status(state, WriteGen(t, r), message))
    ensures t.ApplyLifecycle(r, state, message).1 == t.Admitted(r, state, message)
  {
  }

  /** The status this event applies to the key, if it applies one. */
  function Wrote(w: World, e: Event, key: Key): Option<Status>
    requires Enabled(w, e)
  {
    if e.Lifecycle? && w.t.objects[e.le.r].key == key then LifecycleStep(w.t, e.le).1 else None
  }

  predicate StartsAttempt(s: LifecycleState) {
    s == Creating || s == Hibernating
  }

  /** Throughout the run the key's intent belongs to uid, and startup does not seed it anew. */
  ghost predicate Continuous(w: World, es: seq<Event>, key: Key, uid: UID)
    requires Possible(w, es)
    decreases |es|
  {
    && HasIntent(w, key, uid)
    && (es == [] || (!es[0].Startup? && Continuous(Next(w, es[0]), es[1..], key, uid)))
  }

  /** A write of one incarnation never goes back a generation, and leaves a same-generation Failed only by a new attempt. */
  lemma ApplyIsOrdered(t: Tables, r: Ref, state: LifecycleState, message: string, key: Key, uid: UID)
    requires r in t.objects && key in t.intents && t.intents[key].uid == uid
    requires var t' := t.ApplyLifecycle(r, state, message).0; key in t'.intents && t'.intents[key].uid == uid
    ensures var (t', wrote) := t.ApplyLifecycle(r, state, message);
            var cur, next := t.intents[key].status, t'.intents[key].status;
            if t.objects[r].key == key && wrote.Some? then
              && next == wrote.value && cur.gen <= next.gen
              && (cur.state == Failed && next.gen == cur.gen ==> next.state == Failed || StartsAttempt(next.state))
            else next == cur
  {
  }

  lemma LifecycleIsOrdered(t: Tables, e: LifecycleEvent, key: Key, uid: UID)
    requires e.r in t.objects && key in t.intents && t.intents[key].uid == uid
    requires var t' := LifecycleStep(t, e).0; key in t'.intents && t'.intents[key].uid == uid
    ensures var (t', wrote) := LifecycleStep(t, e);
            var cur, next := t.intents[key].status, t'.intents[key].status;
            if t.objects[e.r].key == key && wrote.Some? then
              && next == wrote.value && cur.gen <= next.gen
              && (cur.state == Failed && next.gen == cur.gen ==> next.state == Failed || StartsAttempt(next.state))
            else next == cur
  {
    match e
    case Apply(r, state, message) => ApplyIsOrdered(t, r, state, message, key, uid);
    case ApplyForWake(r, id, state, message) =>
      if LifecycleStep(t, e) == t.ApplyLifecycle(r, state, message) {
        ApplyIsOrdered(t, r, state, message, key, uid);
      }
    case Republish(r) =>
      var own := t.objects[r].key;
      if own in t.intents {
        var cur := t.intents[own].status;
        if LifecycleStep(t, e) == t.ApplyLifecycle(r, cur.state, cur.message) {
          ApplyIsOrdered(t, r, cur.state, cur.message, key, uid);
        }
      }
    case Lift(r) =>
      if LifecycleStep(t, e) == t.ApplyLifecycle(r, Creating, "") {
        ApplyIsOrdered(t, r, Creating, "", key, uid);
      }
  }

  /** Sections other than lifecycle, startup and flush sections at most drop intents. */
  lemma QuietKeepsIntents(w: World, e: Event)
    requires Enabled(w, e) && (e.Tracking? || e.Claiming? || e.Restarting? || e.Binding?)
    ensures SubIntents(w.t, Next(w, e).t)
  {
    match e
    case Tracking(te) => TrackingKeepsIntents(w.t, te);
    case Claiming(ce) => ClaimIsLess(w, ce);
    case Restarting(re) =>
    case Binding(be) => BindKeepsIntents(w, be);
  }

  lemma OtherKeepsIntents(w: World, e: Event, key: Key)
    requires Enabled(w, e) && !e.Lifecycle? && !e.Startup? && key in w.t.intents && key in Next(w, e).t.intents
    ensures var a, b := w.t.intents[key], Next(w, e).t.intents[key]; a.uid == b.uid && a.status == b.status
  {
    if e.Flushing? {
      FlushKeepsStatus(w, e.fe, key);
    } else {
      QuietKeepsIntents(w, e);
    }
  }

  lemma FlushKeepsStatus(w: World, e: FlushEvent, key: Key)
    requires FlushEnabled(w, e) && key in w.t.intents && key in FlushStep(w, e).t.intents
    ensures FlushStep(w, e).t.intents[key] == w.t.intents[key].(flushed := FlushStep(w, e).t.intents[key].flushed)
  {
  }

  lemma IntentIsOrdered(w: World, e: Event, key: Key, uid: UID)
    requires Enabled(w, e) && !e.Startup? && HasIntent(w, key, uid) && HasIntent(Next(w, e), key, uid)
    ensures var cur, next := w.t.intents[key].status, Next(w, e).t.intents[key].status;
            if Wrote(w, e, key).Some? then
              && next == Wrote(w, e, key).value && cur.gen <= next.gen
              && (cur.state == Failed && next.gen == cur.gen ==> next.state == Failed || StartsAttempt(next.state))
            else next == cur
  {
    if e.Lifecycle? {
      LifecycleIsOrdered(w.t, e.le, key, uid);
    } else {
      OtherKeepsIntents(w, e, key);
    }
  }

  /** Until its intent is dropped, an incarnation's observed generation never decreases. */
  lemma {:induction false} GenerationNeverDecreases(w: World, es: seq<Event>, key: Key, uid: UID)
    requires Possible(w, es) && Continuous(w, es, key, uid)
    ensures HasIntent(Run(w, es), key, uid)
    ensures w.t.intents[key].status.gen <= Run(w, es).t.intents[key].status.gen
    decreases |es|
  {
    if es != [] {
      IntentIsOrdered(w, es[0], key, uid);
      GenerationNeverDecreases(Next(w, es[0]), es[1..], key, uid);
    }
  }

  /** Event k of the run applies a status at this generation that starts a new attempt. */
  predicate AttemptAt(w: World, es: seq<Event>, k: nat, key: Key, gen: int)
    requires Possible(w, es) && k < |es|
    decreases |es|
  {
    if k == 0 then
      var s := Wrote(w, es[0], key);
      s.Some? && s.value.gen == gen && StartsAttempt(s.value.state)
    else AttemptAt(Next(w, es[0]), es[1..], k - 1, key, gen)
  }

  /**
   After Failed at a generation, Ready or Hibernated at that generation is
   applied only if a Creating or Hibernating at it was applied in between.
   */
  lemma {:induction false} FailedIsSticky(w: World, es: seq<Event>, last: Event, key: Key, uid: UID)
    requires Possible(w, es) && Continuous(w, es, key, uid)
    requires w.t.intents[key].status.state == Failed
    requires var w' := Run(w, es);
             && Enabled(w', last) && !last.Startup? && HasIntent(Next(w', last), key, uid)
             && Wrote(w', last, key).Some? && Wrote(w', last, key).value.gen == w.t.intents[key].status.gen
             && Wrote(w', last, key).value.state in {Ready, Hibernated}
    ensures exists k: nat :: k < |es| && AttemptAt(w, es, k, key, w.t.intents[key].status.gen)
    decreases |es|
  {
    var gen := w.t.intents[key].status.gen;
    if es == [] {
      IntentIsOrdered(w, last, key, uid);
    } else {
      var w1 := Next(w, es[0]);
      IntentIsOrdered(w, es[0], key, uid);
      if AttemptAt(w, es, 0, key, gen) {
      } else if w1.t.intents[key].status.gen == gen {
        FailedIsSticky(w1, es[1..], last, key, uid);
        var k: nat :| k < |es[1..]| && AttemptAt(w1, es[1..], k, key, gen);
        assert AttemptAt(w, es, k + 1, key, gen);
      } else {
        GenerationNeverDecreases(w1, es[1..], key, uid);
        IntentIsOrdered(Run(w, es), last, key, uid);
        assert false;
      }
    }
  }

  // ---------------------------------------------------------------- flush acknowledgement

  /** Where a flushed mark may come from. */
  ghost predicate Vouched(w: World, key: Key, uid: UID, s: Status) {
    (key, uid, s) in w.accepted || (key, uid, s) in w.seeded
  }

  ghost predicate Acknowledged(w: World) {
    && (forall key :: key in w.t.intents && w.t.intents[key].flushed.Some? ==>
          && w.t.intents[key].flushed.value == w.t.intents[key].status
          && Vouched(w, key, w.t.intents[key].uid, w.t.intents[key].status))
    && (forall f :: f in w.flushers && w.flushers[f].at == Recording ==>
          (w.flushers[f].key, w.flushers[f].uid, w.flushers[f].status) in w.accepted)
    && (forall f :: f in w.flushers ==>
          w.flushers[f].attempt <= LIFECYCLE_PATCH_ATTEMPTS
          && (w.flushers[f].at != Ended ==> w.flushers[f].attempt < LIFECYCLE_PATCH_ATTEMPTS))
  }

  /** Every intent afterwards was there before, or is a fresh write waiting to be flushed. */
  ghost predicate KeptOrPending(t: Tables, t': Tables) {
    forall key :: key in t'.intents ==>
      t'.intents[key].flushed.None? || (key in t.intents && t'.intents[key] == t.intents[key])
  }

  lemma ApplyIsPending(t: Tables, r: Ref, state: LifecycleState, message: string)
    requires r in t.objects
    ensures KeptOrPending(t, t.ApplyLifecycle(r, state, message).0)
  {
  }

  lemma LifecycleIsPending(t: Tables, e: LifecycleEvent)
    requires e.r in t.objects
    ensures KeptOrPending(t, LifecycleStep(t, e).0)
  {
    match e
    case Apply(r, state, message) => ApplyIsPending(t, r, state, message);
    case ApplyForWake(r, id, state, message) => ApplyIsPending(t, r, state, message);
    case Republish(r) =>
      var key := t.objects[r].key;
      if key in t.intents {
        ApplyIsPending(t, r, t.intents[key].status.state, t.intents[key].status.message);
      }
    case Lift(r) => ApplyIsPending(t, r, Creating, "");
  }

  lemma AcknowledgedKept(w: World, w': World)
    requires Acknowledged(w) && KeptOrPending(w.t, w'.t)
    requires w'.flushers == w.flushers && w.accepted <= w'.accepted && w.seeded <= w'.seeded
    ensures Acknowledged(w')
  {
  }

  lemma FlushAcknowledges(w: World, e: FlushEvent)
    requires Acknowledged(w) && FlushEnabled(w, e)
    ensures Acknowledged(FlushStep(w, e))
  {
  }

  lemma TrackingAcknowledges(w: World, e: TrackingEvent)
    requires Acknowledged(w) && Enabled(w, Tracking(e))
    ensures Acknowledged(Next(w, Tracking(e)))
  {
    TrackingKeepsIntents(w.t, e);
    AcknowledgedKept(w, Next(w, Tracking(e)));
  }

  lemma LifecycleAcknowledges(w: World, e: LifecycleEvent)
    requires Acknowledged(w) && Enabled(w, Lifecycle(e))
    ensures Acknowledged(Next(w, Lifecycle(e)))
  {
    LifecycleIsPending(w.t, e);
    AcknowledgedKept(w, Next(w, Lifecycle(e)));
  }

  lemma ClaimAcknowledges(w: World, e: ClaimEvent)
    requires Acknowledged(w) && Enabled(w, Claiming(e))
    ensures Acknowledged(Next(w, Claiming(e)))
  {
    ClaimIsLess(w, e);
    AcknowledgedKept(w, Next(w, Claiming(e)));
  }

  lemma RestartAcknowledges(w: World, e: RestartEvent)
    requires Acknowledged(w)
    ensures Acknowledged(Next(w, Restarting(e)))
  {
    AcknowledgedKept(w, Next(w, Restarting(e)));
  }

  lemma BindAcknowledges(w: World, e: BindEvent)
    requires Acknowledged(w) && Enabled(w, Binding(e))
    ensures Acknowledged(Next(w, Binding(e)))
  {
    BindKeepsIntents(w, e);
    AcknowledgedKept(w, Next(w, Binding(e)));
  }

  lemma AcknowledgedStep(w: World, e: Event)
    requires Acknowledged(w) && Enabled(w, e)
    ensures Acknowledged(Next(w, e))
  {
    match e
    case Tracking(te) => TrackingAcknowledges(w, te);
    case Lifecycle(le) => LifecycleAcknowledges(w, le);
    case Startup(se) => StartupAcknowledges(w, se);
    case Claiming(ce) => ClaimAcknowledges(w, ce);
    case Restarting(re) => RestartAcknowledges(w, re);
    case Flushing(fe) => FlushAcknowledges(w, fe);
    case Binding(be) => BindAcknowledges(w, be);
  }

  lemma StartupAcknowledges(w: World, e: StartupEvent)
    requires Acknowledged(w) && StartupEnabled(w, e)
    ensures Acknowledged(StartupStep(w, e))
  {
    match e
    case StartupTrack(r, v) =>
      TrackPodSubIntents(w.t, r, v);
      AcknowledgedKept(w, StartupStep(w, e));
    case StartupSeed(r) =>
    case StartupDone =>
  }

  lemma {:induction false} AcknowledgedRun(w: World, es: seq<Event>)
    requires Acknowledged(w) && Possible(w, es)
    ensures Acknowledged(Run(w, es))
    decreases |es|
  {
    if es != [] {
      AcknowledgedStep(w, es[0]);
      AcknowledgedRun(Next(w, es[0]), es[1..]);
    }
  }

  /** A key the reconciler skips carries a status the apiserver accepted for that UID, or that startup read from it. */
  lemma SkippedOnlyIfAccepted(es: seq<Event>, key: Key)
    requires Possible(Init, es) && key in Run(Init, es).t.intents
    requires var i := Run(Init, es).t.intents[key]; (key, i.uid, i.status) !in Run(Init, es).t.Drifts()
    ensures var w := Run(Init, es); Vouched(w, key, w.t.intents[key].uid, w.t.intents[key].status)
  {
    AcknowledgedRun(Init, es);
  }

  lemma WrittenIsUnacknowledged(t: Tables, e: LifecycleEvent)
    requires e.r in t.objects && LifecycleStep(t, e).1.Some?
    ensures var key, t' := t.objects[e.r].key, LifecycleStep(t, e).0;
            key in t'.intents && t'.intents[key] == Intent(t.objects[e.r].uid, LifecycleStep(t, e).1.value, None)
  {
  }

  /** Every applied write is pending, even one that repeats what was flushed before. */
  lemma AppliedIsPicked(w: World, e: Event, key: Key)
    requires Enabled(w, e) && Wrote(w, e, key).Some?
    ensures (key, w.t.objects[e.le.r].uid, Wrote(w, e, key).value) in Next(w, e).t.Drifts()
  {
    WrittenIsUnacknowledged(w.t, e.le);
  }

  /** The event acknowledges a status of this incarnation: a flusher records an equal one, or startup reads it from the pod. */
  predicate Acknowledges(w: World, e: Event, key: Key, uid: UID, s: Status)
    requires Enabled(w, e)
  {
    || (&& e.Flushing? && e.fe.FlushRecord?
        && var fl := w.flushers[e.fe.f]; fl.key == key && fl.uid == uid && fl.status == s)
    || (&& e.Startup? && e.se.StartupSeed?
        && var pod := w.t.objects[e.se.r]; pod.key == key && pod.uid == uid && pod.status == Some(s))
  }

  /** A pending write stays pending exactly when it is still the intent and the event does not acknowledge an equal status. */
  lemma PendingUntilRecorded(w: World, e: Event, key: Key, uid: UID, s: Status)
    requires Enabled(w, e) && (key, uid, s) in w.t.Drifts()
    ensures (key, uid, s) in Next(w, e).t.Drifts() <==> Next(w, e).t.Owned(key, uid, s) && !Acknowledges(w, e, key, uid, s)
  {
    match e
    case Lifecycle(le) => LifecycleIsPending(w.t, le);
    case Flushing(fe) => FlushKeepsPending(w, fe, key, uid, s);
    case Startup(se) => StartupKeepsPending(w, se, key, uid, s);
    case _ => QuietKeepsIntents(w, e);
  }

  lemma FlushKeepsPending(w: World, e: FlushEvent, key: Key, uid: UID, s: Status)
    requires FlushEnabled(w, e) && (key, uid, s) in w.t.Drifts()
    ensures (key, uid, s) in FlushStep(w, e).t.Drifts()
            <==> FlushStep(w, e).t.Owned(key, uid, s) && !Acknowledges(w, Flushing(e), key, uid, s)
  {
  }

  lemma StartupKeepsPending(w: World, e: StartupEvent, key: Key, uid: UID, s: Status)
    requires StartupEnabled(w, e) && (key, uid, s) in w.t.Drifts()
    ensures (key, uid, s) in StartupStep(w, e).t.Drifts()
            <==> StartupStep(w, e).t.Owned(key, uid, s) && !Acknowledges(w, Startup(e), key, uid, s)
  {
    match e
    case StartupTrack(r, v) => TrackPodSubIntents(w.t, r, v);
    case _ =>
  }

  /** In every state of the run the write is pending. */
  ghost predicate AlwaysPending(w: World, es: seq<Event>, key: Key, uid: UID, s: Status)
    requires Possible(w, es)
    decreases |es|
  {
    (key, uid, s) in w.t.Drifts() && (es != [] ==> AlwaysPending(Next(w, es[0]), es[1..], key, uid, s))
  }

  /** No event of the run replaces or drops the intent, or acknowledges an equal status. */
  ghost predicate NeverSettled(w: World, es: seq<Event>, key: Key, uid: UID, s: Status)
    requires Possible(w, es)
    decreases |es|
  {
    es != [] ==>
      && !Acknowledges(w, es[0], key, uid, s) && Next(w, es[0]).t.Owned(key, uid, s)
      && NeverSettled(Next(w, es[0]), es[1..], key, uid, s)
  }

  /** Over any run the reconciler keeps picking a pending write exactly until it is replaced, dropped or acknowledged. */
  lemma {:induction false} PendingRun(w: World, es: seq<Event>, key: Key, uid: UID, s: Status)
    requires Possible(w, es) && (key, uid, s) in w.t.Drifts()
    ensures AlwaysPending(w, es, key, uid, s) <==> NeverSettled(w, es, key, uid, s)
    decreases |es|
  {
    if es != [] {
      PendingUntilRecorded(w, es[0], key, uid, s);
      if (key, uid, s) in Next(w, es[0]).t.Drifts() {
        PendingRun(Next(w, es[0]), es[1..], key, uid, s);
      }
    }
  }

  /** A flusher that no longer owns the entry changes no intent; one that does changes only its own key's. */
  lemma ForeignFlusherIsHarmless(w: World, f: Flush, e: FlushEvent, key: Key)
    requires f in w.flushers && (e == FlushRecord(f) || e == FlushDrop(f)) && FlushEnabled(w, e)
    ensures var fl, t' := w.flushers[f], FlushStep(w, e).t;
            && (!w.t.Owned(fl.key, fl.uid, fl.status) ==> t' == w.t)
            && t' == w.t.(intents := t'.intents)
            && (key != fl.key ==> (key in t'.intents <==> key in w.t.intents)
                                  && (key in w.t.intents ==> t'.intents[key] == w.t.intents[key]))
  {
  }
}
