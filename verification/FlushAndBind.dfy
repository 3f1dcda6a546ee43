/**
 What a flush and a bind go on to do, once begun, whatever interleaves with their
 sections (`flushLifecycle`, `bindRuntime`).
 */
module FlushAndBind {
  import opened Wrappers
  import opened Tables
  import opened ProviderRuns

  // ---------------------------------------------------------------- a flush

  predicate OfFlush(e: Event, f: Flush) {
    e.Flushing? && e.fe.f == f
  }

  ghost predicate NoneOfFlush(es: seq<Event>, f: Flush) {
    forall i :: 0 <= i < |es| ==> !OfFlush(es[i], f)
  }

  lemma FlusherStays(w: World, e: Event, f: Flush)
    requires Enabled(w, e) && f in w.flushers && !OfFlush(e, f)
    ensures f in Next(w, e).flushers && Next(w, e).flushers[f] == w.flushers[f]
  {
  }

  lemma {:induction false} FlusherWaits(w: World, es: seq<Event>, f: Flush)
    requires Possible(w, es) && f in w.flushers && NoneOfFlush(es, f)
    ensures f in Run(w, es).flushers && Run(w, es).flushers[f] == w.flushers[f]
    decreases |es|
  {
    if es != [] {
      assert !OfFlush(es[0], f);
      FlusherStays(w, es[0], f);
      FlusherWaits(Next(w, es[0]), es[1..], f);
    }
  }

  /**
   Where a flush goes next, and stays until it takes that step: it patches exactly what is
   still the intent; it records exactly an accepted patch and drops exactly on a refused
   one; and an error makes it check again, the third one gives up.
   */
  lemma FlushGoesOn(w: World, e: FlushEvent, es: seq<Event>)
    requires Enabled(w, Flushing(e)) && Possible(Next(w, Flushing(e)), es) && NoneOfFlush(es, e.f)
    ensures var last := Run(Next(w, Flushing(e)), es);
            && e.f in last.flushers
            && (e.StartFlush? ==>
                  Enabled(last, Flushing(FlushCheck(e.f))) && last.flushers[e.f].(at := Ended) == Flusher(e.key, e.uid, e.status, 0, Ended))
            && (e.FlushCheck? ==>
                  var fl := w.flushers[e.f];
                  Enabled(last, Flushing(FlushPatch(e.f, Accepted))) <==> w.t.Owned(fl.key, fl.uid, fl.status))
            && (e.FlushPatch? ==>
                  var fl := w.flushers[e.f];
                  Next(w, Flushing(e)).accepted == w.accepted + (if e.answer == Accepted then {(fl.key, fl.uid, fl.status)} else {}))
            && (e.FlushPatch? ==> (Enabled(last, Flushing(FlushRecord(e.f))) <==> e.answer == Accepted))
            && (e.FlushPatch? ==> (Enabled(last, Flushing(FlushDrop(e.f))) <==> e.answer == Refused))
            && (e.FlushPatch? ==> (Enabled(last, Flushing(FlushCheck(e.f))) <==> e.answer == Errored && w.flushers[e.f].attempt != 2))
  {
    FlusherWaits(Next(w, Flushing(e)), es, e.f);
  }

  /** How many patches the flush sends in a run. */
  function PatchCount(es: seq<Event>, f: Flush): nat
    decreases |es|
  {
    if es == [] then 0
    else (if OfFlush(es[0], f) && es[0].fe.FlushPatch? then 1 else 0) + PatchCount(es[1..], f)
  }

  /** The patches a flush may still send. */
  function Left(fl: Flusher): nat {
    if fl.at.Checking? || fl.at.Patching? then (if fl.attempt < 3 then 3 - fl.attempt else 0) else 0
  }

  predicate Counted(w: World, f: Flush) {
    f in w.flushers && (w.flushers[f].at.Checking? || w.flushers[f].at.Patching? ==> w.flushers[f].attempt < 3)
  }

  lemma PatchesLeft(w: World, e: Event, f: Flush)
    requires Enabled(w, e) && Counted(w, f)
    ensures Counted(Next(w, e), f)
    ensures Left(Next(w, e).flushers[f]) + (if OfFlush(e, f) && e.fe.FlushPatch? then 1 else 0) <= Left(w.flushers[f])
  {
    if !OfFlush(e, f) {
      FlusherStays(w, e, f);
    }
  }

  /** A flush sends at most three patches, whatever they are answered. */
  lemma {:induction false} FlushPatchesAtMostThrice(w: World, es: seq<Event>, f: Flush)
    requires Possible(w, es) && Counted(w, f)
    ensures PatchCount(es, f) <= Left(w.flushers[f]) <= 3
    decreases |es|
  {
    if es != [] {
      PatchesLeft(w, es[0], f);
      FlushPatchesAtMostThrice(Next(w, es[0]), es[1..], f);
    }
  }

  /** An accepted patch is acknowledged by the record that follows it, if its status is still the intent then. */
  lemma AcceptedIsAcknowledged(w: World, f: Flush, es: seq<Event>)
    requires Enabled(w, Flushing(FlushPatch(f, Accepted)))
    requires Possible(Next(w, Flushing(FlushPatch(f, Accepted))), es) && NoneOfFlush(es, f)
    ensures var fl, last := w.flushers[f], Run(Next(w, Flushing(FlushPatch(f, Accepted))), es);
            && Enabled(last, Flushing(FlushRecord(f)))
            && (last.t.Owned(fl.key, fl.uid, fl.status) ==>
                  var t' := Next(last, Flushing(FlushRecord(f))).t;
                  t'.Owned(fl.key, fl.uid, fl.status) && t'.intents[fl.key].flushed == Some(fl.status))
  {
    FlusherWaits(Next(w, Flushing(FlushPatch(f, Accepted))), es, f);
  }

  /** A refused patch drops the intent, if its status is still the intent then. */
  lemma RefusedIsDropped(w: World, f: Flush, es: seq<Event>)
    requires Enabled(w, Flushing(FlushPatch(f, Refused)))
    requires Possible(Next(w, Flushing(FlushPatch(f, Refused))), es) && NoneOfFlush(es, f)
    ensures var fl, last := w.flushers[f], Run(Next(w, Flushing(FlushPatch(f, Refused))), es);
            && Enabled(last, Flushing(FlushDrop(f)))
            && (last.t.Owned(fl.key, fl.uid, fl.status) ==> fl.key !in Next(last, Flushing(FlushDrop(f))).t.intents)
  {
    FlusherWaits(Next(w, Flushing(FlushPatch(f, Refused))), es, f);
  }

  // ---------------------------------------------------------------- a bind

  predicate OfBind(e: Event, b: Bind) {
    e.Binding? && e.be.b == b
  }

  ghost predicate NoneOfBind(es: seq<Event>, b: Bind) {
    forall i :: 0 <= i < |es| ==> !OfBind(es[i], b)
  }

  /** Pods handed in stay known. */
  lemma ObjectsStay(w: World, e: Event)
    requires Enabled(w, e)
    ensures w.t.objects.Keys <= Next(w, e).t.objects.Keys
  {
    match e
    case Tracking(te) => TrackingKeepsObjects(w.t, te);
    case Lifecycle(le) => LifecycleFrame(w.t, le);
    case Startup(se) => StartupKeepsObjects(w, se);
    case Claiming(ce) => ClaimKeepsObjects(w, ce);
    case Restarting(_) =>
    case Flushing(fe) => QuietFlush(w, fe);
    case Binding(be) =>
      if BindEffect(w, be).Some? {
        TrackingKeepsObjects(w.t, BindEffect(w, be).value);
      }
  }

  lemma StartupKeepsObjects(w: World, e: StartupEvent)
    requires StartupEnabled(w, e)
    ensures w.t.objects.Keys <= StartupStep(w, e).t.objects.Keys
  {
    if e.StartupTrack? {
      TrackPodShape(w.t, e.r, e.bind);
      ReassertShape(w.t, w.t.objects[e.r].key, e.r);
    }
  }

  lemma ClaimKeepsObjects(w: World, e: ClaimEvent)
    requires ClaimEnabled(w, e)
    ensures ClaimStep(w, e).t.objects == w.t.objects
  {
  }

  lemma TrackingKeepsObjects(t: Tables, e: TrackingEvent)
    requires TrackingEnabled(t, e)
    ensures t.objects.Keys <= TrackingStep(t, e).objects.Keys
  {
    match e
    case TrackUnlessDeleting(r, v) =>
      TrackPodShape(t, r, v);
      ReassertShape(t, t.objects[r].key, r);
    case TrackIncarnation(r, v) =>
      TrackPodShape(t, r, Some(v));
      ReassertShape(t, t.objects[r].key, r);
    case _ =>
  }

  lemma BinderStays(w: World, e: Event, b: Bind)
    requires Enabled(w, e) && b in w.binders && w.binders[b].r in w.t.objects && !OfBind(e, b)
    ensures b in Next(w, e).binders && Next(w, e).binders[b] == w.binders[b] && w.binders[b].r in Next(w, e).t.objects
  {
    ObjectsStay(w, e);
  }

  lemma {:induction false} BinderWaits(w: World, es: seq<Event>, b: Bind)
    requires Possible(w, es) && b in w.binders && w.binders[b].r in w.t.objects && NoneOfBind(es, b)
    ensures b in Run(w, es).binders && Run(w, es).binders[b] == w.binders[b] && w.binders[b].r in Run(w, es).t.objects
    decreases |es|
  {
    if es != [] {
      assert !OfBind(es[0], b);
      BinderStays(w, es[0], b);
      BinderWaits(Next(w, es[0]), es[1..], b);
    }
  }

  /** Where a section leaves its bind. */
  predicate Turns(w: World, e: BindEvent, at: BindPoint)
    requires BindEnabled(w, e)
  {
    match e
    case StartBind(_, _, _, refresh) => at == if refresh then Refreshes else Tracks
    case BindRefresh(_, _) => at == Tracks
    case BindTrack(b) =>
      var pod := w.t.objects[w.binders[b].r];
      at == if pod.key in w.t.deleting || w.t.IsSuperseded(pod.key, pod.uid) then IsRefused else Checks
    case BindCheck(b) =>
      var pod := w.t.objects[w.binders[b].r];
      at == if w.t.IsSuperseded(pod.key, pod.uid) then Detaches else Patches
    case BindPatch(_, taken) => at == if taken then Detaches else IsBound
    case BindDetach(_) => at == IsDetached
  }

  /** The record a bind goes on with: a refresh takes the changed copy exactly if the key still binds that VM. */
  predicate Carries(w: World, e: BindEvent, v: VM)
    requires BindEnabled(w, e)
  {
    match e
    case StartBind(_, _, given, _) => v == given
    case BindRefresh(b, copy) =>
      var bound := w.t.VMFor(w.t.objects[w.binders[b].r].key);
      v == if bound.Some? && bound.value.id == w.binders[b].v.id then VM(copy, bound.value.id, bound.value.name) else w.binders[b].v
    case _ => v == w.binders[e.b].v
  }

  lemma BindTurns(w: World, e: BindEvent)
    requires BindEnabled(w, e)
    ensures var w' := BindStep(w, e);
            && e.b in w'.binders && Turns(w, e, w'.binders[e.b].at) && w'.binders[e.b].r in w'.t.objects
            && w'.binders[e.b].r == (if e.StartBind? then e.r else w.binders[e.b].r)
            && Carries(w, e, w'.binders[e.b].v)
  {
    ObjectsStay(w, Binding(e));
  }

  /**
   Where a bind goes next, and stays until it takes that step, whatever else runs: a bind
   that the tables refused goes no further; one that finds its pod superseded, or whose
   name the apiserver gives to another pod, goes on to its detach and to nothing else; one
   that finds neither is bound.
   */
  lemma BindGoesOn(w: World, e: BindEvent, es: seq<Event>)
    requires Enabled(w, Binding(e)) && Possible(Next(w, Binding(e)), es) && NoneOfBind(es, e.b)
    ensures var last := Run(Next(w, Binding(e)), es);
            && e.b in last.binders && Turns(w, e, last.binders[e.b].at)
            && last.binders[e.b].r == (if e.StartBind? then e.r else w.binders[e.b].r) && Carries(w, e, last.binders[e.b].v)
            && (Enabled(last, Binding(BindDetach(e.b))) <==> last.binders[e.b].at == Detaches)
            && (Enabled(last, Binding(BindPatch(e.b, true))) <==> last.binders[e.b].at == Patches)
            && (Enabled(last, Binding(BindCheck(e.b))) <==> last.binders[e.b].at == Checks)
            && (Enabled(last, Binding(BindTrack(e.b))) <==> last.binders[e.b].at == Tracks)
  {
    BindTurns(w, e);
    BinderWaits(Next(w, Binding(e)), es, e.b);
  }
}
