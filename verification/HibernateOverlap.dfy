/**
 Exactly when a hibernate may begin while other attempts of the name are in flight, and
 exactly when its snapshot may be overwritten, dropped or discarded from outside; and the
 runs that lose a guest otherwise.
 */
module HibernateOverlap {
  import opened Wrappers
  import opened WakeSource
  import opened HibernateWake
  import opened HibernateConserves

  // ---------------------------------------------------------------- exactly when a hibernate may begin

  /** Attempts step on, nodes crash, the guest runs or dies; nothing begins, boots or is discarded. */
  predicate Continues(e: Event) {
    (e.Take? && Honest(e)) || e.GuestRuns? || e.LoseVM? || e.Crash?
  }

  ghost predicate AllContinue(es: seq<Event>) {
    forall k :: 0 <= k < |es| ==> Continues(es[k])
  }

  /** However what is in flight goes on, no removed guest is lost. */
  ghost predicate KeepsEveryGuest(s: State) {
    forall es :: Possible(s, es) && AllContinue(es) ==> GuestKept(Run(s, es))
  }

  lemma {:induction false} ContinuingIsCareful(s: State, es: seq<Event>)
    requires Possible(s, es) && AllContinue(es)
    ensures CarefulRun(s, es)
    decreases |es|
  {
    if es != [] {
      assert Continues(es[0]);
      ContinuingIsCareful(Next(s, es[0]), es[1..]);
    }
  }

  /** A hibernate that begins is safe, whatever else in flight does, exactly when nothing in flight threatens it. */
  lemma BeginIsSafeExactly(s: State, op: Op, image: string)
    requires Conserved(s) && Enabled(s, Begin(op, image))
    ensures KeepsEveryGuest(Next(s, Begin(op, image))) <==> Unthreatened(s, s.vm.value.node)
  {
    var s1 := Next(s, Begin(op, image));
    if Unthreatened(s, s.vm.value.node) {
      BeginConserves(s, op, image);
      forall es | Possible(s1, es) && AllContinue(es)
        ensures GuestKept(Run(s1, es))
      {
        ContinuingIsCareful(s1, es);
        ConservedRun(s1, es);
      }
    } else {
      var threat :| threat in s.attempts && !Quiet(s, s.attempts[threat], s.vm.value.node, None, false);
      ThreatLosesGuest(s, op, image, threat);
    }
  }

  /** A run under construction. */
  ghost predicate Trail(s0: State, es: seq<Event>, s: State) {
    Possible(s0, es) && AllContinue(es) && s == Run(s0, es) && Stored(s) && Gated(s)
  }

  lemma {:induction false} RunSnoc(s: State, es: seq<Event>, e: Event)
    requires Possible(s, es) && Enabled(Run(s, es), e)
    ensures Possible(s, es + [e]) && Run(s, es + [e]) == Next(Run(s, es), e)
    decreases |es|
  {
    if es == [] {
      assert [] + [e] == [e] && [e][1..] == [];
    } else {
      assert (es + [e])[1..] == es[1..] + [e];
      RunSnoc(Next(s, es[0]), es[1..], e);
    }
  }

  lemma SaveOkShape(s: State, op: Op, snap: SnapID)
    requires Stored(s) && Gated(s) && StepEnabled(s, SaveOk(op, snap))
    ensures Stored(NextStep(s, SaveOk(op, snap))) && Gated(NextStep(s, SaveOk(op, snap)))
  {
    assert StoredAttempt(s, s.attempts[op]);
    var s' := NextStep(s, SaveOk(op, snap));
    MoveStored(s, s', op, s'.attempts[op]);
    MoveGated(s, s', op, s'.attempts[op]);
  }

  lemma SaveFailsShape(s: State, op: Op, gone: bool)
    requires Stored(s) && Gated(s) && StepEnabled(s, SaveFails(op, gone))
    ensures Stored(NextStep(s, SaveFails(op, gone))) && Gated(NextStep(s, SaveFails(op, gone)))
  {
    assert StoredAttempt(s, s.attempts[op]);
    var s' := NextStep(s, SaveFails(op, gone));
    MoveStored(s, s', op, s'.attempts[op]);
    MoveGated(s, s', op, s'.attempts[op]);
  }

  lemma ExportShape(s: State, op: Op)
    requires Stored(s) && Gated(s) && StepEnabled(s, Export(op))
    ensures Stored(NextStep(s, Export(op))) && Gated(NextStep(s, Export(op)))
  {
    assert StoredAttempt(s, s.attempts[op]);
    var s' := NextStep(s, Export(op));
    MoveStored(s, s', op, s'.attempts[op]);
    MoveGated(s, s', op, s'.attempts[op]);
  }

  lemma PushShape(s: State, e: Step)
    requires Stored(s) && Gated(s) && StepEnabled(s, e) && (e.PushOk? || e.PushFails? || e.Clear?)
    ensures Stored(NextStep(s, e)) && Gated(NextStep(s, e))
  {
    assert StoredAttempt(s, s.attempts[e.op]);
    MoveStored(s, NextStep(s, e), e.op, NextStep(s, e).attempts[e.op]);
    MoveGated(s, NextStep(s, e), e.op, NextStep(s, e).attempts[e.op]);
  }

  lemma RemoveShape(s: State, op: Op, answer: RemoveAnswer)
    requires Stored(s) && Gated(s) && StepEnabled(s, Remove(op, answer))
    ensures Stored(NextStep(s, Remove(op, answer))) && Gated(NextStep(s, Remove(op, answer)))
  {
    assert StoredAttempt(s, s.attempts[op]);
    var s' := NextStep(s, Remove(op, answer));
    MoveStored(s, s', op, s'.attempts[op]);
    MoveGated(s, s', op, s'.attempts[op]);
  }

  lemma CompensateShape(s: State, op: Op, deleted: bool)
    requires Stored(s) && Gated(s) && StepEnabled(s, Compensate(op, deleted))
    ensures Stored(NextStep(s, Compensate(op, deleted))) && Gated(NextStep(s, Compensate(op, deleted)))
  {
    assert StoredAttempt(s, s.attempts[op]);
    var s' := NextStep(s, Compensate(op, deleted));
    MoveStored(s, s', op, s'.attempts[op]);
    MoveGated(s, s', op, s'.attempts[op]);
  }

  lemma Then(s0: State, es: seq<Event>, s: State, e: Step) returns (more: seq<Event>, s': State)
    requires Trail(s0, es, s) && StepEnabled(s, e) && !e.RemoveErrsButRemoves? && !e.RollBack? && !e.Close?
    ensures Trail(s0, more, s') && s' == NextStep(s, e)
  {
    RunSnoc(s0, es, Take(e));
    if e.SaveOk? {
      SaveOkShape(s, e.op, e.snap);
    } else if e.SaveFails? {
      SaveFailsShape(s, e.op, e.localGone);
    } else if e.Export? {
      ExportShape(s, e.op);
    } else if e.Remove? {
      RemoveShape(s, e.op, e.answer);
    } else if e.Compensate? {
      CompensateShape(s, e.op, e.deleted);
    } else {
      PushShape(s, e);
    }
    more, s' := es + [Take(e)], NextStep(s, e);
  }

  lemma {:induction false} Bound(keys: set<nat>) returns (b: nat)
    ensures forall k :: k in keys ==> k < b
  {
    if keys == {} {
      b := 0;
    } else {
      var k :| k in keys;
      var b' := Bound(keys - {k});
      b := if b' <= k then k + 1 else b';
      assert forall x :: x in keys ==> x == k || x in keys - {k};
    }
  }

  /** The attempt saves a fresh snapshot of its VM. */
  lemma Saves(s0: State, es: seq<Event>, s: State, op: Op) returns (more: seq<Event>, s': State, snap: SnapID)
    requires Trail(s0, es, s) && AtStage(s, op, Saving) && VMThere(s, op)
    ensures Trail(s0, more, s') && snap !in s.contents && s' == NextStep(s, SaveOk(op, snap))
  {
    snap := Bound(s.contents.Keys);
    more, s' := Then(s0, es, s, SaveOk(op, snap));
  }

  lemma FailUpload(s0: State, es: seq<Event>, s: State, op: Op) returns (more: seq<Event>, s': State)
    requires Trail(s0, es, s) && AtStage(s, op, Landing)
    ensures Trail(s0, more, s') && s' == At(s, op, RollingBack)
  {
    assert StoredAttempt(s, s.attempts[op]);
    more, s' := Then(s0, es, s, PushFails(op, false));
  }

  lemma OneUploader(s: State, op: Op)
    requires Gated(s) && AtStage(s, op, Landing)
    ensures GateFree(At(s, op, RollingBack), s.attempts[op].node)
  {
    var s' := At(s, op, RollingBack);
    forall x | x in s'.attempts && s'.attempts[x].stage == Landing
      ensures s'.attempts[x].node != s.attempts[op].node
    {
      assert x != op && AtStage(s, x, Landing);
    }
  }

  /** The upload that holds the node's gate fails, if there is one. */
  lemma FreeGate(s0: State, es: seq<Event>, s: State, n: Node) returns (more: seq<Event>, s': State)
    requires Trail(s0, es, s)
    ensures Trail(s0, more, s') && GateFree(s', n) && s' == s.(attempts := s'.attempts) && s'.attempts.Keys == s.attempts.Keys
    ensures forall x :: x in s.attempts && !(s.attempts[x].stage.Landing? && s.attempts[x].node == n) ==> s'.attempts[x] == s.attempts[x]
  {
    more, s' := es, s;
    if !GateFree(s, n) {
      var c :| c in s.attempts && s.attempts[c].stage == Landing && s.attempts[c].node == n;
      OneUploader(s, c);
      more, s' := FailUpload(s0, es, s, c);
    }
  }

  /** The attempt has saved, its VM is there and its snapshot is in the node's store. */
  ghost predicate MayPush(s: State, op: Op) {
    && s.registry && s.owed.None? && AtStage(s, op, Pushing) && VMThere(s, op)
    && s.attempts[op].saved.Some? && s.attempts[op].node in s.locals
  }

  lemma GoLand(s0: State, es: seq<Event>, s: State, op: Op) returns (more: seq<Event>, s': State)
    requires Trail(s0, es, s) && MayPush(s, op) && GateFree(s, s.attempts[op].node)
    ensures Trail(s0, more, s') && AtStage(s', op, Clearing) && s' == s.(tag := s'.tag, attempts := s.attempts[op := s'.attempts[op]])
    ensures s'.attempts[op].node == s.attempts[op].node && s'.attempts[op].vm == s.attempts[op].vm
    ensures s'.attempts[op].saved == s.attempts[op].saved
    ensures s'.tag.Some? && s'.tag.value.snapshot == s.locals[s.attempts[op].node]
  {
    more, s' := Then(s0, es, s, Export(op));
    more, s' := Then(s0, more, s', PushOk(op));
  }

  lemma TakeVM(s0: State, es: seq<Event>, s: State, op: Op) returns (more: seq<Event>, s': State)
    requires Trail(s0, es, s) && AtStage(s, op, Removing) && VMThere(s, op) && s.attempts[op].saved.Some?
    ensures Trail(s0, more, s')
    ensures s' == s.(up := false, owed := Some(Owed(s.attempts[op].saved.value, s.attempts[op].node)),
                     attempts := s.attempts[op := s.attempts[op].(stage := Closing)])
  {
    more, s' := Then(s0, es, s, Remove(op, Removed));
  }

  lemma GoRemove(s0: State, es: seq<Event>, s: State, op: Op) returns (more: seq<Event>, s': State)
    requires Trail(s0, es, s) && AtStage(s, op, Clearing) && VMThere(s, op) && s.attempts[op].saved.Some? && s.owed.None?
    ensures Trail(s0, more, s') && s'.registry == s.registry && s'.locals == s.locals && s'.tag == s.tag
    ensures s'.owed == Some(Owed(s.attempts[op].saved.value, s.attempts[op].node))
    ensures op in s'.attempts && s'.attempts == s.attempts[op := s'.attempts[op]]
  {
    more, s' := Then(s0, es, s, Clear(op));
    more, s' := TakeVM(s0, more, s', op);
  }

  /** With the gate free it goes through to the remove. */
  lemma GoThrough(s0: State, es: seq<Event>, s: State, op: Op) returns (more: seq<Event>, s': State)
    requires Trail(s0, es, s) && MayPush(s, op) && GateFree(s, s.attempts[op].node)
    ensures Trail(s0, more, s') && s'.registry
    ensures s'.owed == Some(Owed(s.attempts[op].saved.value, s.attempts[op].node))
    ensures op in s'.attempts && s'.attempts == s.attempts[op := s'.attempts[op]]
    ensures s'.tag.Some? && s'.tag.value.snapshot == s.locals[s.attempts[op].node]
  {
    more, s' := GoLand(s0, es, s, op);
    more, s' := GoRemove(s0, more, s', op);
  }

  /** An attempt about to delete the tag lets the other one through first. */
  lemma DeleteAfter(s0: State, es: seq<Event>, s: State, op: Op, threat: Op)
    requires Trail(s0, es, s) && MayPush(s, op) && AtStage(s, threat, Compensating)
    ensures !KeepsEveryGuest(s0)
  {
    var more, s' := FreeGate(s0, es, s, s.attempts[op].node);
    more, s' := GoThrough(s0, more, s', op);
    more, s' := Then(s0, more, s', Compensate(threat, true));
    assert !GuestKept(s');
  }

  /** An upload on another node lands after the other attempt went through. */
  lemma LandAfter(s0: State, es: seq<Event>, s: State, op: Op, threat: Op)
    requires Trail(s0, es, s) && MayPush(s, op)
    requires AtStage(s, threat, Landing) && s.attempts[threat].node != s.attempts[op].node
    requires s.attempts[threat].exported.Some? && s.attempts[threat].exported != s.attempts[op].saved
    ensures !KeepsEveryGuest(s0)
  {
    var more, s' := FreeGate(s0, es, s, s.attempts[op].node);
    more, s' := GoThrough(s0, more, s', op);
    more, s' := Then(s0, more, s', PushOk(threat));
    assert !GuestKept(s');
  }

  /** An attempt of the same VM whose remove fails. */
  lemma FailRemove(s0: State, es: seq<Event>, s: State, op: Op, threat: Op)
    requires Trail(s0, es, s) && MayPush(s, op) && threat != op && VMThere(s, threat) && AtStage(s, threat, Removing)
    ensures !KeepsEveryGuest(s0)
  {
    assert StoredAttempt(s, s.attempts[threat]);
    var more, s' := Then(s0, es, s, Remove(threat, Kept));
    DeleteAfter(s0, more, s', op, threat);
  }

  lemma KeepAfter(s0: State, es: seq<Event>, s: State, op: Op, threat: Op)
    requires Trail(s0, es, s) && MayPush(s, op) && threat != op
    requires VMThere(s, threat) && HasLanded(s.attempts[threat].stage)
    ensures !KeepsEveryGuest(s0)
  {
    if s.attempts[threat].stage.Clearing? {
      var more, s' := Then(s0, es, s, Clear(threat));
      FailRemove(s0, more, s', op, threat);
    } else {
      FailRemove(s0, es, s, op, threat);
    }
  }

  /** An attempt of the same VM that is uploading. */
  lemma LandBefore(s0: State, es: seq<Event>, s: State, op: Op, threat: Op)
    requires Trail(s0, es, s) && MayPush(s, op) && threat != op && VMThere(s, threat) && AtStage(s, threat, Landing)
    ensures !KeepsEveryGuest(s0)
  {
    assert StoredAttempt(s, s.attempts[threat]);
    var more, s' := Then(s0, es, s, PushOk(threat));
    KeepAfter(s0, more, s', op, threat);
  }

  /** One that has yet to push exports what the other saved. */
  lemma PushBefore(s0: State, es: seq<Event>, s: State, op: Op, threat: Op)
    requires Trail(s0, es, s) && MayPush(s, op) && threat != op && VMThere(s, threat) && AtStage(s, threat, Pushing)
    ensures !KeepsEveryGuest(s0)
  {
    var more, s' := FreeGate(s0, es, s, s.attempts[threat].node);
    more, s' := Then(s0, more, s', Export(threat));
    LandBefore(s0, more, s', op, threat);
  }

  /** With a registry: an attempt of the same VM. */
  lemma SameVMLoses(s0: State, op: Op, threat: Op)
    requires Trail(s0, [], s0) && s0.registry && s0.owed.None? && threat != op
    requires AtStage(s0, op, Saving) && VMThere(s0, op) && VMThere(s0, threat) && Early(s0.attempts[threat].stage)
    ensures !KeepsEveryGuest(s0)
  {
    var es: seq<Event>, s, snap := [], s0, 0;
    if s0.attempts[threat].stage.Saving? {
      es, s, snap := Saves(s0, es, s, threat);
    }
    es, s, snap := Saves(s0, es, s, op);
    if HasLanded(s.attempts[threat].stage) {
      KeepAfter(s0, es, s, op, threat);
    } else if s.attempts[threat].stage.Landing? {
      LandBefore(s0, es, s, op, threat);
    } else {
      PushBefore(s0, es, s, op, threat);
    }
  }

  /** With a registry: an attempt on another node that is uploading, or can. */
  lemma OtherNodeLoses(s0: State, op: Op, threat: Op)
    requires Trail(s0, [], s0) && s0.registry && s0.owed.None? && threat != op
    requires AtStage(s0, op, Saving) && VMThere(s0, op) && threat in s0.attempts
    requires s0.attempts[threat].node != s0.attempts[op].node
    requires AtStage(s0, threat, Landing) || (AtStage(s0, threat, Pushing) && s0.attempts[threat].node in s0.locals)
    ensures !KeepsEveryGuest(s0)
  {
    var es: seq<Event>, s, snap := [], s0, 0;
    if s0.attempts[threat].stage.Pushing? {
      es, s := FreeGate(s0, es, s, s0.attempts[threat].node);
      es, s := Then(s0, es, s, Export(threat));
    }
    assert StoredAttempt(s, s.attempts[threat]);
    es, s, snap := Saves(s0, es, s, op);
    LandAfter(s0, es, s, op, threat);
  }

  /** Without a registry: a save that fails on the same node drops the local snapshot. */
  lemma FailingSaveLoses(s0: State, op: Op, threat: Op)
    requires Trail(s0, [], s0) && !s0.registry && s0.owed.None? && threat != op
    requires AtStage(s0, op, Saving) && VMThere(s0, op)
    requires AtStage(s0, threat, Saving) && s0.attempts[threat].node == s0.attempts[op].node
    ensures !KeepsEveryGuest(s0)
  {
    var es, s, snap := Saves(s0, [], s0, op);
    es, s := GoRemove(s0, es, s, op);
    es, s := Then(s0, es, s, SaveFails(threat, true));
    assert !GuestKept(s);
  }

  /** Without a registry: a remove of the same VM by an attempt whose snapshot has been overwritten. */
  lemma OlderRemoveLoses(s0: State, op: Op, threat: Op)
    requires Trail(s0, [], s0) && !s0.registry && s0.owed.None? && threat != op
    requires AtStage(s0, op, Saving) && VMThere(s0, op)
    requires VMThere(s0, threat) && HasLanded(s0.attempts[threat].stage)
    ensures !KeepsEveryGuest(s0)
  {
    assert StoredAttempt(s0, s0.attempts[threat]);
    var es, s, snap := Saves(s0, [], s0, op);
    if s.attempts[threat].stage.Clearing? {
      es, s := GoRemove(s0, es, s, threat);
    } else {
      es, s := Then(s0, es, s, Remove(threat, Removed));
    }
    assert !GuestKept(s);
  }

  lemma ThreatLosesGuest(s: State, op: Op, image: string, threat: Op)
    requires Conserved(s) && Enabled(s, Begin(op, image))
    requires threat in s.attempts && !Quiet(s, s.attempts[threat], s.vm.value.node, None, false)
    ensures !KeepsEveryGuest(Next(s, Begin(op, image)))
  {
    var s0 := Next(s, Begin(op, image));
    BegunTrail(s, op, image);
    assert StoredAttempt(s, s.attempts[threat]);
    var a := s.attempts[threat];
    if !s.registry && a.stage.Saving? {
      FailingSaveLoses(s0, op, threat);
    } else if !s.registry {
      OlderRemoveLoses(s0, op, threat);
    } else if a.stage.Compensating? {
      var es, s', snap := Saves(s0, [], s0, op);
      DeleteAfter(s0, es, s', op, threat);
    } else if Latest(s, a) {
      SameVMLoses(s0, op, threat);
    } else {
      OtherNodeLoses(s0, op, threat);
    }
  }

  lemma BegunTrail(s: State, op: Op, image: string)
    requires Conserved(s) && Enabled(s, Begin(op, image))
    ensures Trail(Next(s, Begin(op, image)), [], Next(s, Begin(op, image)))
  {
    var s' := Next(s, Begin(op, image));
    forall x | x in s'.attempts
      ensures StoredAttempt(s', s'.attempts[x])
    {
      assert x != op ==> StoredAttempt(s, s.attempts[x]);
    }
    forall x, y | AtStage(s', x, Landing) && AtStage(s', y, Landing) && s'.attempts[x].node == s'.attempts[y].node
      ensures x == y
    {
      assert AtStage(s, x, Landing) && AtStage(s, y, Landing);
    }
  }

  // ---------------------------------------------------------------- exactly when outsiders may interfere

  lemma Reports(s0: State, es: seq<Event>, s: State, op: Op) returns (more: seq<Event>, s': State)
    requires Trail(s0, es, s) && AtStage(s, op, Removing) && Latest(s, s.attempts[op]) && s.attempts[op].saved.Some? && s.owed.None?
    ensures Trail(s0, more, s')
    ensures s' == s.(up := false, owed := Some(Owed(s.attempts[op].saved.value, s.attempts[op].node)),
                     attempts := s.attempts[op := s.attempts[op].(stage := Closing)])
  {
    if VMThere(s, op) {
      more, s' := TakeVM(s0, es, s, op);
    } else {
      more, s' := Then(s0, es, s, Remove(op, NotFound));
    }
  }

  /** From the push on, with its VM there or lost, the attempt reports the guest hibernated. */
  lemma Finishes(s0: State, es: seq<Event>, s: State, op: Op) returns (more: seq<Event>, s': State)
    requires Trail(s0, es, s) && op in s.attempts && HasLanded(s.attempts[op].stage)
    requires Latest(s, s.attempts[op]) && s.attempts[op].saved.Some? && s.owed.None?
    ensures Trail(s0, more, s') && s'.registry == s.registry && s'.locals == s.locals && s'.tag == s.tag
    ensures s'.owed == Some(Owed(s.attempts[op].saved.value, s.attempts[op].node))
    ensures op in s'.attempts && s'.attempts == s.attempts[op := s'.attempts[op]]
  {
    more, s' := es, s;
    if s.attempts[op].stage.Clearing? {
      more, s' := Then(s0, es, s, Clear(op));
    }
    more, s' := Reports(s0, more, s', op);
  }

  /** What it reports is not where a wake looks. */
  lemma UnheldLoses(s0: State, op: Op)
    requires Trail(s0, [], s0) && op in s0.attempts && HasLanded(s0.attempts[op].stage)
    requires Latest(s0, s0.attempts[op]) && s0.attempts[op].saved.Some? && s0.owed.None?
    requires !Held(s0, s0.attempts[op].saved.value, s0.attempts[op].node)
    ensures !KeepsEveryGuest(s0)
  {
    var es, s := Finishes(s0, [], s0, op);
    assert !GuestKept(s);
  }

  /** What it is about to export is not what it saved. */
  lemma OverwrittenLoses(s0: State, op: Op)
    requires Trail(s0, [], s0) && MayPush(s0, op)
    requires s0.attempts[op].saved.value != s0.locals[s0.attempts[op].node]
    ensures !KeepsEveryGuest(s0)
  {
    var es, s := FreeGate(s0, [], s0, s0.attempts[op].node);
    es, s := GoThrough(s0, es, s, op);
    assert !GuestKept(s);
  }

  /** Another attempt on the node exports what overwrote it, and lands last. */
  lemma PusherLandsLast(s0: State, es: seq<Event>, s: State, op: Op, pusher: Op)
    requires Trail(s0, es, s) && s.registry && s.owed.None? && op in s.attempts && HasLanded(s.attempts[op].stage)
    requires Latest(s, s.attempts[op]) && s.attempts[op].saved.Some?
    requires AtStage(s, pusher, Pushing) && s.attempts[pusher].node in s.locals
    requires s.locals[s.attempts[pusher].node] != s.attempts[op].saved.value
    ensures !KeepsEveryGuest(s0)
  {
    var more, s' := FreeGate(s0, es, s, s.attempts[pusher].node);
    more, s' := Then(s0, more, s', Export(pusher));
    more, s' := Finishes(s0, more, s', op);
    more, s' := Then(s0, more, s', PushOk(pusher));
    assert !GuestKept(s');
  }

  lemma OverwrittenSealedLoses(s0: State, op: Op, pusher: Op)
    requires Trail(s0, [], s0) && s0.registry && s0.owed.None? && op in s0.attempts && Sealed(s0.attempts[op].stage)
    requires Latest(s0, s0.attempts[op]) && s0.attempts[op].saved.Some?
    requires AtStage(s0, pusher, Pushing) && s0.attempts[pusher].node in s0.locals
    requires s0.locals[s0.attempts[pusher].node] != s0.attempts[op].saved.value
    ensures !KeepsEveryGuest(s0)
  {
    var es: seq<Event>, s := [], s0;
    if s0.attempts[op].stage.Landing? {
      assert StoredAttempt(s0, s0.attempts[op]);
      es, s := Then(s0, es, s, PushOk(op));
    }
    PusherLandsLast(s0, es, s, op, pusher);
  }

  predicate FromOutside(e: Event) {
    e.OtherSave? || e.DropLocal? || e.DiscardTag?
  }

  lemma OutsideTrail(s: State, e: Event)
    requires Conserved(s) && Enabled(s, e) && FromOutside(e)
    ensures Trail(Next(s, e), [], Next(s, e))
  {
    var s' := Next(s, e);
    forall x | x in s'.attempts
      ensures StoredAttempt(s', s'.attempts[x])
    {
      assert StoredAttempt(s, s.attempts[x]);
    }
    forall x, y | AtStage(s', x, Landing) && AtStage(s', y, Landing) && s'.attempts[x].node == s'.attempts[y].node
      ensures x == y
    {
      assert AtStage(s, x, Landing) && AtStage(s, y, Landing);
    }
  }

  lemma OtherSaveLoses(s: State, snap: SnapID)
    requires Conserved(s) && Enabled(s, OtherSave(snap)) && !Careful(s, OtherSave(snap))
    ensures !KeepsEveryGuest(Next(s, OtherSave(snap)))
  {
    var s0 := Next(s, OtherSave(snap));
    OutsideTrail(s, OtherSave(snap));
    var op := s.current.value;
    assert StoredAttempt(s, s.attempts[op]);
    if s.attempts[op].stage.Pushing? {
      OverwrittenLoses(s0, op);
    } else if !s.registry {
      UnheldLoses(s0, op);
    } else {
      var pusher :| AtStage(s, pusher, Pushing) && s.attempts[pusher].node == s.attempts[op].node;
      OverwrittenSealedLoses(s0, op, pusher);
    }
  }

  /**
   Another save of the VM, a dropped local snapshot or a discarded tag is safe, whatever
   in flight goes on to do, exactly when it spares the snapshot a hibernate relies on.
   */
  lemma OutsideIsSafeExactly(s: State, e: Event)
    requires Conserved(s) && Enabled(s, e) && FromOutside(e)
    ensures KeepsEveryGuest(Next(s, e)) <==> Careful(s, e)
  {
    var s1 := Next(s, e);
    if Careful(s, e) {
      EventConserves(s, e);
      forall es | Possible(s1, es) && AllContinue(es)
        ensures GuestKept(Run(s1, es))
      {
        ContinuingIsCareful(s1, es);
        ConservedRun(s1, es);
      }
    } else if e.OtherSave? {
      OtherSaveLoses(s, e.snap);
    } else {
      OutsideTrail(s, e);
      assert StoredAttempt(s, s.attempts[s.current.value]);
      UnheldLoses(s1, s.current.value);
    }
  }

  // ---------------------------------------------------------------- an overlap is reached

  /** A careful run under construction. */
  ghost predicate CarefulTrail(s0: State, es: seq<Event>, s: State) {
    Possible(s0, es) && CarefulRun(s0, es) && s == Run(s0, es)
  }

  lemma {:induction false} CarefulSnoc(s: State, es: seq<Event>, e: Event)
    requires Possible(s, es) && CarefulRun(s, es) && Enabled(Run(s, es), e) && Honest(e) && Careful(Run(s, es), e)
    ensures Possible(s, es + [e]) && CarefulRun(s, es + [e]) && Run(s, es + [e]) == Next(Run(s, es), e)
    decreases |es|
  {
    if es == [] {
      assert [] + [e] == [e] && [e][1..] == [];
    } else {
      assert (es + [e])[1..] == es[1..] + [e];
      CarefulSnoc(Next(s, es[0]), es[1..], e);
    }
  }

  lemma ThenCarefully(s0: State, es: seq<Event>, s: State, e: Event) returns (more: seq<Event>, s': State)
    requires CarefulTrail(s0, es, s) && Enabled(s, e) && Honest(e) && Careful(s, e)
    ensures CarefulTrail(s0, more, s') && s' == Next(s, e)
  {
    CarefulSnoc(s0, es, e);
    more, s' := es + [e], Next(s, e);
  }

  function AnyCalls(): Calls {
    Calls(true, true, false, true, true, true, true, true, true, true, true)
  }

  /** A create of a name nobody has hibernated, and its boot. */
  lemma BootsAfresh(s0: State, es: seq<Event>, s: State, node: Node, id: nat, blank: Guest) returns (more: seq<Event>, s': State)
    requires CarefulTrail(s0, es, s) && !s.up && s.plans == map[] && s.registry && s.tag.None?
    requires forall op :: op in s.attempts ==> s.attempts[op].vm != id
    ensures CarefulTrail(s0, more, s') && s' == s.(vm := Some(Machine(node, id, blank)), up := true, owed := None)
  {
    var q := Request(true, false, false, "");
    assert CreatePath(EnvOf(s, node, AnyCalls()), q) == FreshBoot;
    more, s' := ThenCarefully(s0, es, s, PlanCreate(0, node, AnyCalls(), q));
    more, s' := ThenCarefully(s0, more, s', Boot(0, id, blank));
  }

  /** A first boot, and a hibernate that has saved. */
  lemma FirstSave() returns (es: seq<Event>, s: State)
    ensures CarefulTrail(Fresh(true), es, s)
    ensures s == State(true, Some(Machine("n1", 1, 7)), true, map[0 := 7], None, map["n1" := 0],
                       map[0 := Attempt("n1", 1, "", Pushing, Some(0), None)], Some(0), None, map[])
  {
    es, s := BootsAfresh(Fresh(true), [], Fresh(true), "n1", 1, 7);
    es, s := ThenCarefully(Fresh(true), es, s, Begin(0, ""));
    es, s := ThenCarefully(Fresh(true), es, s, Take(SaveOk(0, 0)));
  }

  /**
   The case a lost pod lock allows: a hibernate is uploading on one node when its VM is
   evicted; the recreated pod, on another node, finds no tag and boots afresh; and now it
   begins to hibernate. From here a run loses its guest.
   */
  lemma OverlapLosesGuest() returns (es: seq<Event>, s: State)
    ensures CarefulTrail(Fresh(true), es, s) && Enabled(s, Begin(1, "")) && !KeepsEveryGuest(Next(s, Begin(1, "")))
  {
    es, s := FirstSave();
    es, s := ThenCarefully(Fresh(true), es, s, Take(Export(0)));
    es, s := ThenCarefully(Fresh(true), es, s, LoseVM);
    es, s := BootsAfresh(Fresh(true), es, s, "n2", 2, 8);
    ConservedRun(Fresh(true), es);
    assert !Quiet(s, s.attempts[0], "n2", None, false);
    BeginIsSafeExactly(s, 1, "");
  }

  // ---------------------------------------------------------------- a remove that lies

  /**
   If a Remove that reports an error could still remove the VM, the guest would
   survive exactly when the compensating tag delete did nothing.
   */
  lemma LyingRemoveKeepsGuestExactly(s: State, op: Op, deleted: bool)
    requires Conserved(s) && StepEnabled(s, RemoveErrsButRemoves(op))
    ensures var s1 := NextStep(s, RemoveErrsButRemoves(op));
            && StepEnabled(s1, Compensate(op, deleted))
            && var s2 := NextStep(s1, Compensate(op, deleted));
               s2.owed.Some? && !s2.up && (GuestKept(s2) <==> !(deleted && s.registry))
  {
    RemoveTakes(s, op);
  }

  /** Such a state is reached, and from it the lie loses the guest. */
  lemma LyingRemoveLosesGuest() returns (es: seq<Event>, s: State)
    ensures CarefulTrail(Fresh(true), es, s) && StepEnabled(s, RemoveErrsButRemoves(0))
    ensures StepEnabled(NextStep(s, RemoveErrsButRemoves(0)), Compensate(0, true))
    ensures !GuestKept(NextStep(NextStep(s, RemoveErrsButRemoves(0)), Compensate(0, true)))
  {
    es, s := FirstSave();
    es, s := ThenCarefully(Fresh(true), es, s, Take(Export(0)));
    es, s := ThenCarefully(Fresh(true), es, s, Take(PushOk(0)));
    es, s := ThenCarefully(Fresh(true), es, s, Take(Clear(0)));
    ConservedRun(Fresh(true), es);
    LyingRemoveKeepsGuestExactly(s, 0, true);
  }
}
