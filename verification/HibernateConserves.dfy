/**
 What hibernate and wake keep, over every run in which each hibernate begins
 unthreatened: the removed guest is held, it resumes as it was saved, and until then its
 VM keeps running.
 */
module HibernateConserves {
  import opened Wrappers
  import opened WakeSource
  import opened HibernateWake

  // ---------------------------------------------------------------- the invariant

  /** Every snapshot named anywhere exists, and no attempt is ahead of what it has. */
  ghost predicate Stored(s: State) {
    && (s.tag.Some? ==> s.registry && s.tag.value.snapshot in s.contents)
    && (forall n :: n in s.locals ==> s.locals[n] in s.contents)
    && (forall op :: op in s.attempts ==> StoredAttempt(s, s.attempts[op]))
    && (forall w :: w in s.plans && s.plans[w].source.Some? ==> s.plans[w].source.value in s.contents)
  }

  ghost predicate StoredAttempt(s: State, a: Attempt) {
    && (a.saved.Some? ==> a.saved.value in s.contents)
    && (a.exported.Some? ==> a.exported.value in s.contents)
    && (a.stage.Pushing? || a.stage.Landing? || HasLanded(a.stage) ==> a.saved.Some?)
    && (a.stage.Pushing? || a.stage.Landing? ==> s.registry)
    && (a.stage.Landing? ==> a.exported.Some?)
  }

  ghost predicate Gated(s: State) {
    forall a, b :: AtStage(s, a, Landing) && AtStage(s, b, Landing) && s.attempts[a].node == s.attempts[b].node ==> a == b
  }

  /** An attempt other than the latest is past its remove, or its VM is not the latest. */
  ghost predicate OthersPast(s: State) {
    forall op :: op in s.attempts && Some(op) != s.current && Latest(s, s.attempts[op]) ==> !Early(s.attempts[op].stage)
  }

  predicate Holds(s: State, a: Attempt) {
    match a.stage
    case Saving => true
    case Pushing => a.saved.Some? && LocalIs(s, a.node, a.saved.value)
    case Landing => a.saved.Some? && a.exported == a.saved
    case Clearing => a.saved.Some? && Held(s, a.saved.value, a.node)
    case Removing => a.saved.Some? && Held(s, a.saved.value, a.node)
    case Compensating => true
    case RollingBack => true
    case Closing => true
  }

  ghost predicate LiveIsSafe(s: State) {
    Live(s) ==>
      var a := s.attempts[s.current.value];
      && Holds(s, a)
      && (forall op :: op in s.attempts && op != s.current.value ==>
            Quiet(s, s.attempts[op], a.node, a.saved, Sealed(a.stage)))
  }

  ghost predicate OwedIsSafe(s: State) {
    s.owed.Some? ==>
      var o := s.owed.value;
      && !s.up && s.vm.Some? && s.vm.value.node == o.node
      && o.snapshot in s.contents && Held(s, o.snapshot, o.node)
      && (forall op :: op in s.attempts ==> Quiet(s, s.attempts[op], o.node, Some(o.snapshot), true))
  }

  /** A boot planned while a guest was owed has that guest's snapshot. */
  ghost predicate PlansAreTrue(s: State) {
    forall w :: w in s.plans && s.plans[w].seen.Some? && (s.registry || s.plans[w].node == s.plans[w].seen.value.node)
      ==> s.plans[w].source == Some(s.plans[w].seen.value.snapshot)
  }

  ghost predicate Basic(s: State) {
    && Stored(s) && Gated(s) && OthersPast(s) && PlansAreTrue(s)
    && (s.up ==> s.vm.Some? && s.owed.None?)
  }

  ghost predicate Conserved(s: State) {
    Basic(s) && LiveIsSafe(s) && OwedIsSafe(s)
  }


  // ---------------------------------------------------------------- every event conserves

  /** What `Quiet` reads of the state besides the attempt: other nodes gained no local snapshot. */
  ghost predicate SameView(s: State, s': State, n: Node) {
    && s'.registry == s.registry && s'.vm.Some? == s.vm.Some?
    && (s.vm.Some? ==> s'.vm.value.id == s.vm.value.id && s'.vm.value.node == s.vm.value.node)
    && (forall m :: m in s'.locals && m != n ==> m in s.locals)
  }

  lemma QuietFrame(s: State, s': State, a: Attempt, n: Node, p: Option<SnapID>, sealed: bool, p': Option<SnapID>, sealed': bool)
    requires SameView(s, s', n) && Quiet(s, a, n, p, sealed)
    requires a.stage.Landing? && sealed' ==> a.exported == p'
    requires a.stage.Pushing? && a.node == n && sealed' ==> p'.Some? && LocalIs(s', n, p'.value)
    ensures Quiet(s', a, n, p', sealed')
  {
  }

  /** The node's own snapshot is as it was, or dropped. */
  predicate Spared(s: State, s': State, n: Node) {
    n in s'.locals ==> n in s.locals && s'.locals[n] == s.locals[n]
  }

  lemma QuietKept(s: State, s': State, a: Attempt, n: Node, p: Option<SnapID>, sealed: bool)
    requires SameView(s, s', n) && Spared(s, s', n) && Quiet(s, a, n, p, sealed)
    ensures Quiet(s', a, n, p, sealed)
  {
  }

  /** Whoever else on the node has yet to export, exports the moved attempt's own snapshot. */
  ghost predicate PushersAgree(s: State, s': State, op: Op, a: Attempt) {
    forall x :: AtStage(s, x, Pushing) && x != op && s.attempts[x].node == a.node && Sealed(a.stage) ==>
      a.saved.Some? && LocalIs(s', a.node, a.saved.value)
  }

  /** One attempt moved on; nothing else of the attempts, the VM and the plans changed. */
  ghost predicate Moves(s: State, s': State, op: Op, a: Attempt) {
    && op in s.attempts && s'.attempts == s.attempts[op := a]
    && a.node == s.attempts[op].node && a.vm == s.attempts[op].vm && (Early(a.stage) ==> Early(s.attempts[op].stage))
    && s'.current == s.current && s'.vm == s.vm && s'.plans == s.plans && s'.registry == s.registry
  }

  lemma MoveOthersPast(s: State, s': State, op: Op, a: Attempt)
    requires OthersPast(s) && Moves(s, s', op, a)
    ensures OthersPast(s')
  {
    forall x | x in s'.attempts && Some(x) != s'.current && Latest(s', s'.attempts[x])
      ensures !Early(s'.attempts[x].stage)
    {
      assert Latest(s, s.attempts[x]);
    }
  }

  /** The latest attempt itself moved: it holds what it should, and no other upload can overtake it. */
  lemma MoveLiveOwn(s: State, s': State, op: Op, a: Attempt)
    requires LiveIsSafe(s) && Moves(s, s', op, a) && s.current == Some(op) && s'.owed == s.owed && SameView(s, s', a.node)
    requires Live(s') ==> Holds(s', a) && PushersAgree(s, s', op, a)
    requires forall x :: AtStage(s, x, Landing) && x != op && Sealed(a.stage) ==> s.attempts[x].exported == a.saved || s.attempts[x].node != a.node
    ensures LiveIsSafe(s')
  {
    if Live(s') {
      assert Live(s);
      var was := s.attempts[op];
      forall x | x in s'.attempts && x != op
        ensures Quiet(s', s'.attempts[x], a.node, a.saved, Sealed(a.stage))
      {
        assert s.attempts[x].stage.Pushing? ==> AtStage(s, x, Pushing);
        QuietFrame(s, s', s.attempts[x], a.node, was.saved, Sealed(was.stage), a.saved, Sealed(a.stage));
      }
    }
  }

  /** Another attempt moved, and stayed quiet. */
  lemma MoveLiveOther(s: State, s': State, op: Op, a: Attempt)
    requires LiveIsSafe(s) && Moves(s, s', op, a) && s.current != Some(op) && s'.owed == s.owed
    requires Live(s) ==>
      var c := s.attempts[s.current.value];
      SameView(s, s', c.node) && Spared(s, s', c.node) && Holds(s', c) && Quiet(s', a, c.node, c.saved, Sealed(c.stage))
    ensures LiveIsSafe(s')
  {
    if Live(s') {
      assert Live(s);
      var c := s.attempts[s.current.value];
      forall x | x in s'.attempts && x != s.current.value
        ensures Quiet(s', s'.attempts[x], c.node, c.saved, Sealed(c.stage))
      {
        if x != op {
          QuietKept(s, s', s.attempts[x], c.node, c.saved, Sealed(c.stage));
        }
      }
    }
  }

  lemma MoveOwed(s: State, s': State, op: Op, a: Attempt)
    requires OwedIsSafe(s) && Moves(s, s', op, a) && s'.owed == s.owed && s'.up == s.up
    requires s.owed.Some? ==>
      var o := s.owed.value;
      && SameView(s, s', o.node) && Spared(s, s', o.node) && o.snapshot in s'.contents && Held(s', o.snapshot, o.node)
      && Quiet(s', a, o.node, Some(o.snapshot), true)
    ensures OwedIsSafe(s')
  {
    if s'.owed.Some? {
      var o := s.owed.value;
      forall x | x in s'.attempts
        ensures Quiet(s', s'.attempts[x], o.node, Some(o.snapshot), true)
      {
        if x != op {
          QuietKept(s, s', s.attempts[x], o.node, Some(o.snapshot), true);
        }
      }
    }
  }

  lemma MoveStored(s: State, s': State, op: Op, a: Attempt)
    requires Stored(s) && Moves(s, s', op, a) && StoredAttempt(s', a)
    requires forall x :: x in s.contents ==> x in s'.contents
    requires s'.tag.Some? ==> s'.registry && s'.tag.value.snapshot in s'.contents
    requires forall n :: n in s'.locals ==> s'.locals[n] in s'.contents
    ensures Stored(s')
  {
    forall x | x in s'.attempts
      ensures StoredAttempt(s', s'.attempts[x])
    {
      assert x != op ==> StoredAttempt(s, s.attempts[x]);
    }
  }

  lemma MoveGated(s: State, s': State, op: Op, a: Attempt)
    requires Gated(s) && Moves(s, s', op, a) && (a.stage.Landing? ==> s.attempts[op].stage.Landing? || GateFree(s, a.node))
    ensures Gated(s')
  {
    forall x, y | AtStage(s', x, Landing) && AtStage(s', y, Landing) && s'.attempts[x].node == s'.attempts[y].node
      ensures x == y
    {
      assert x != op ==> AtStage(s, x, Landing);
      assert y != op ==> AtStage(s, y, Landing);
    }
  }

  /** A move that is stored, keeps the gate and what is protected, and stays quiet towards it. */
  lemma MoveConserves(s: State, s': State, op: Op, a: Attempt)
    requires Conserved(s) && Moves(s, s', op, a) && s'.owed == s.owed && s'.up == s.up
    requires StoredAttempt(s', a) && (forall x :: x in s.contents ==> x in s'.contents)
    requires s'.tag.Some? ==> s'.registry && s'.tag.value.snapshot in s'.contents
    requires forall n :: n in s'.locals ==> s'.locals[n] in s'.contents && (n != a.node ==> n in s.locals)
    requires a.stage.Landing? ==> s.attempts[op].stage.Landing? || GateFree(s, a.node)
    requires s.current == Some(op) && Live(s') ==>
      && Holds(s', a) && PushersAgree(s, s', op, a)
      && (forall x :: AtStage(s, x, Landing) && x != op && Sealed(a.stage) ==>
            s.attempts[x].exported == a.saved || s.attempts[x].node != a.node)
    requires s.current != Some(op) && Live(s) ==>
      var c := s.attempts[s.current.value];
      SameView(s, s', c.node) && Spared(s, s', c.node) && Holds(s', c) && Quiet(s', a, c.node, c.saved, Sealed(c.stage))
    requires s.owed.Some? ==>
      var o := s.owed.value;
      && SameView(s, s', o.node) && Spared(s, s', o.node) && Held(s', o.snapshot, o.node)
      && Quiet(s', a, o.node, Some(o.snapshot), true)
    ensures Conserved(s')
  {
    MoveStored(s, s', op, a);
    MoveGated(s, s', op, a);
    MoveOthersPast(s, s', op, a);
    MoveOwed(s, s', op, a);
    if s.current != Some(op) {
      MoveLiveOther(s, s', op, a);
    } else if Live(s') {
      MoveLiveOwn(s, s', op, a);
    }
  }

  lemma SaveOkConserves(s: State, op: Op, snap: SnapID)
    requires Conserved(s) && StepEnabled(s, SaveOk(op, snap))
    ensures Conserved(NextStep(s, SaveOk(op, snap)))
  {
    assert StoredAttempt(s, s.attempts[op]);
    var s' := NextStep(s, SaveOk(op, snap));
    MoveConserves(s, s', op, s'.attempts[op]);
  }

  lemma SaveFailsConserves(s: State, op: Op, gone: bool)
    requires Conserved(s) && StepEnabled(s, SaveFails(op, gone))
    ensures Conserved(NextStep(s, SaveFails(op, gone)))
  {
    assert StoredAttempt(s, s.attempts[op]);
    var s' := NextStep(s, SaveFails(op, gone));
    MoveConserves(s, s', op, s'.attempts[op]);
  }

  lemma ExportConserves(s: State, op: Op)
    requires Conserved(s) && StepEnabled(s, Export(op))
    ensures Conserved(NextStep(s, Export(op)))
  {
    assert StoredAttempt(s, s.attempts[op]);
    MoveConserves(s, NextStep(s, Export(op)), op, NextStep(s, Export(op)).attempts[op]);
  }

  lemma PushOkConserves(s: State, op: Op)
    requires Conserved(s) && StepEnabled(s, PushOk(op))
    ensures Conserved(NextStep(s, PushOk(op)))
  {
    assert StoredAttempt(s, s.attempts[op]);
    MoveConserves(s, NextStep(s, PushOk(op)), op, NextStep(s, PushOk(op)).attempts[op]);
  }

  lemma PushFailsConserves(s: State, op: Op, landed: bool)
    requires Conserved(s) && StepEnabled(s, PushFails(op, landed))
    ensures Conserved(NextStep(s, PushFails(op, landed)))
  {
    assert StoredAttempt(s, s.attempts[op]);
    var s' := NextStep(s, PushFails(op, landed));
    MoveConserves(s, s', op, s'.attempts[op]);
  }

  lemma ClearConserves(s: State, op: Op)
    requires Conserved(s) && StepEnabled(s, Clear(op))
    ensures Conserved(NextStep(s, Clear(op)))
  {
    assert StoredAttempt(s, s.attempts[op]);
    MoveConserves(s, NextStep(s, Clear(op)), op, NextStep(s, Clear(op)).attempts[op]);
  }

  lemma CompensateConserves(s: State, op: Op, deleted: bool)
    requires Conserved(s) && StepEnabled(s, Compensate(op, deleted))
    ensures Conserved(NextStep(s, Compensate(op, deleted)))
  {
    assert StoredAttempt(s, s.attempts[op]);
    var s' := NextStep(s, Compensate(op, deleted));
    MoveConserves(s, s', op, s'.attempts[op]);
  }

  /** A remove that takes the VM: only the latest attempt can, and what it saved is held. */
  lemma RemoveTakes(s: State, op: Op)
    requires Conserved(s) && AtStage(s, op, Removing) && Latest(s, s.attempts[op]) && s.owed.None?
    ensures s.attempts[op].saved.Some? && s.current == Some(op) && Live(s)
    ensures Conserved(At(Removal(s, op), op, Closing))
    ensures Removal(s, op).owed == Some(Owed(s.attempts[op].saved.value, s.attempts[op].node))
  {
    assert StoredAttempt(s, s.attempts[op]);
    var a := s.attempts[op];
    var s' := At(Removal(s, op), op, Closing);
    var a' := s'.attempts[op];
    MoveStored(s, s', op, a');
    MoveGated(s, s', op, a');
    MoveOthersPast(s, s', op, a');
    forall x | x in s'.attempts
      ensures Quiet(s', s'.attempts[x], a.node, a.saved, true)
    {
      if x != op {
        QuietKept(s, s', s.attempts[x], a.node, a.saved, true);
      }
    }
  }

  lemma RemoveConserves(s: State, op: Op, answer: RemoveAnswer)
    requires Conserved(s) && StepEnabled(s, Remove(op, answer))
    ensures Conserved(NextStep(s, Remove(op, answer)))
  {
    assert StoredAttempt(s, s.attempts[op]);
    var s' := NextStep(s, Remove(op, answer));
    if answer != Kept && Latest(s, s.attempts[op]) && s.owed.None? {
      RemoveTakes(s, op);
    } else {
      MoveConserves(s, s', op, s'.attempts[op]);
    }
  }

  /** Attempts and plans only ended. */
  ghost predicate Ends(s: State, s': State) {
    && s' == s.(attempts := s'.attempts, plans := s'.plans)
    && (forall op :: op in s'.attempts ==> op in s.attempts && s'.attempts[op] == s.attempts[op])
    && (forall w :: w in s'.plans ==> w in s.plans && s'.plans[w] == s.plans[w])
  }

  lemma EndsConserves(s: State, s': State)
    requires Conserved(s) && Ends(s, s')
    ensures Conserved(s')
  {
    forall op | op in s'.attempts
      ensures StoredAttempt(s', s'.attempts[op])
    {
      assert StoredAttempt(s, s.attempts[op]);
    }
    forall x, y | AtStage(s', x, Landing) && AtStage(s', y, Landing) && s'.attempts[x].node == s'.attempts[y].node
      ensures x == y
    {
      assert AtStage(s, x, Landing) && AtStage(s, y, Landing);
    }
    EndsKeepsSafe(s, s');
  }

  lemma EndsKeepsSafe(s: State, s': State)
    requires LiveIsSafe(s) && OwedIsSafe(s) && Ends(s, s')
    ensures LiveIsSafe(s') && OwedIsSafe(s')
  {
    if s'.owed.Some? {
      var o := s.owed.value;
      forall x | x in s'.attempts
        ensures Quiet(s', s'.attempts[x], o.node, Some(o.snapshot), true)
      {
        QuietKept(s, s', s.attempts[x], o.node, Some(o.snapshot), true);
      }
    }
    if Live(s') {
      assert Live(s);
      var c := s.attempts[s.current.value];
      forall x | x in s'.attempts && x != s.current.value
        ensures Quiet(s', s'.attempts[x], c.node, c.saved, Sealed(c.stage))
      {
        QuietKept(s, s', s.attempts[x], c.node, c.saved, Sealed(c.stage));
      }
    }
  }

  lemma StepConserves(s: State, e: Step)
    requires Conserved(s) && StepEnabled(s, e) && !e.RemoveErrsButRemoves?
    ensures Conserved(NextStep(s, e))
  {
    match e
    case SaveOk(op, snap) => SaveOkConserves(s, op, snap);
    case SaveFails(op, gone) => SaveFailsConserves(s, op, gone);
    case Export(op) => ExportConserves(s, op);
    case PushOk(op) => PushOkConserves(s, op);
    case PushFails(op, landed) => PushFailsConserves(s, op, landed);
    case Clear(op) => ClearConserves(s, op);
    case Remove(op, answer) => RemoveConserves(s, op, answer);
    case Compensate(op, deleted) => CompensateConserves(s, op, deleted);
    case RollBack(op) => EndsConserves(s, NextStep(s, e));
    case Close(op) => EndsConserves(s, NextStep(s, e));
  }

  lemma BeginConserves(s: State, op: Op, image: string)
    requires Conserved(s) && Enabled(s, Begin(op, image)) && Unthreatened(s, s.vm.value.node)
    ensures Conserved(Next(s, Begin(op, image)))
  {
    var s' := Next(s, Begin(op, image));
    forall x | x in s'.attempts
      ensures StoredAttempt(s', s'.attempts[x]) && (x != op ==> Quiet(s', s'.attempts[x], s.vm.value.node, None, false))
    {
      if x != op {
        assert StoredAttempt(s, s.attempts[x]) && Quiet(s, s.attempts[x], s.vm.value.node, None, false);
      }
    }
    forall x, y | AtStage(s', x, Landing) && AtStage(s', y, Landing) && s'.attempts[x].node == s'.attempts[y].node
      ensures x == y
    {
      assert AtStage(s, x, Landing) && AtStage(s, y, Landing);
    }
  }

  /** Same attempts, VM and owed guest; locals and tag changed only as those allow. */
  lemma OutsideConserves(s: State, s': State)
    requires Conserved(s) && Stored(s') && PlansAreTrue(s')
    requires s'.attempts == s.attempts && s'.current == s.current && s'.vm.Some? == s.vm.Some? && s'.registry == s.registry
    requires s.vm.Some? ==> s'.vm.value.id == s.vm.value.id && s'.vm.value.node == s.vm.value.node
    requires s'.up ==> s.up
    requires s'.owed == s.owed || (s'.owed.None? && !Live(s'))
    requires forall m :: m in s'.locals ==> m in s.locals || (s.vm.Some? && m == s.vm.value.node)
    requires Live(s) && s'.owed == s.owed ==>
      var c := s.attempts[s.current.value];
      Holds(s', c) && (Spared(s, s', c.node) || !Sealed(c.stage) || !HasPusher(s, c.node))
    requires s'.owed.Some? ==> Held(s', s.owed.value.snapshot, s.owed.value.node) && Spared(s, s', s.owed.value.node)
    ensures Conserved(s')
  {
    forall x, y | AtStage(s', x, Landing) && AtStage(s', y, Landing) && s'.attempts[x].node == s'.attempts[y].node
      ensures x == y
    {
      assert AtStage(s, x, Landing) && AtStage(s, y, Landing);
    }
    if s'.owed.Some? {
      var o := s.owed.value;
      forall x | x in s'.attempts
        ensures Quiet(s', s'.attempts[x], o.node, Some(o.snapshot), true)
      {
        QuietKept(s, s', s.attempts[x], o.node, Some(o.snapshot), true);
      }
    }
    if Live(s') {
      assert Live(s);
      var c := s.attempts[s.current.value];
      forall x | x in s'.attempts && x != s.current.value
        ensures Quiet(s', s'.attempts[x], c.node, c.saved, Sealed(c.stage))
      {
        assert s.attempts[x].stage.Pushing? ==> AtStage(s, x, Pushing);
        QuietFrame(s, s', s.attempts[x], c.node, c.saved, Sealed(c.stage), c.saved, Sealed(c.stage));
      }
    }
  }

  /** While a guest is owed no attempt is live. */
  lemma OwedIsNotLive(s: State)
    requires Conserved(s) && s.owed.Some?
    ensures !Live(s.(owed := None))
  {
    if s.current.Some? && s.current.value in s.attempts {
      assert Quiet(s, s.attempts[s.current.value], s.owed.value.node, Some(s.owed.value.snapshot), true);
    }
  }

  lemma DiscardConserves(s: State)
    requires Conserved(s) && Careful(s, DiscardTag)
    ensures Conserved(Next(s, DiscardTag))
  {
    if s.registry {
      if s.owed.Some? {
        OwedIsNotLive(s);
      }
      OutsideConserves(s, Next(s, DiscardTag));
    }
  }

  lemma DropLocalConserves(s: State, n: Node)
    requires Conserved(s) && Careful(s, DropLocal(n))
    ensures Conserved(Next(s, DropLocal(n)))
  {
    if s.owed.Some? {
      OwedIsNotLive(s);
    }
    OutsideConserves(s, Next(s, DropLocal(n)));
  }

  lemma OtherSaveConserves(s: State, snap: SnapID)
    requires Conserved(s) && Enabled(s, OtherSave(snap)) && Careful(s, OtherSave(snap))
    ensures Conserved(Next(s, OtherSave(snap)))
  {
    var s' := Next(s, OtherSave(snap));
    forall op | op in s'.attempts
      ensures StoredAttempt(s', s'.attempts[op])
    {
      assert StoredAttempt(s, s.attempts[op]);
    }
    OutsideConserves(s, s');
  }

  lemma GuestConserves(s: State, e: Event)
    requires Conserved(s) && Enabled(s, e) && (e.GuestRuns? || e.LoseVM?)
    ensures Conserved(Next(s, e))
  {
    var s' := Next(s, e);
    forall op | op in s'.attempts
      ensures StoredAttempt(s', s'.attempts[op])
    {
      assert StoredAttempt(s, s.attempts[op]);
    }
    OutsideConserves(s, s');
  }

  /** What a resolution finds exists; and while a guest is owed it finds that guest, or without a registry from another node nothing of it. */
  lemma ResolvesToOwed(s: State, node: Node, c: Calls)
    requires Conserved(s)
    ensures var (source, discards) := Resolve(EnvOf(s, node, c));
            && (discards ==> s.registry)
            && (source.Ok? ==>
                  && source.value.snapshot in s.contents
                  && (s.owed.Some? && (s.registry || node == s.owed.value.node) ==>
                        source.value.snapshot == s.owed.value.snapshot))
  {
    var env := EnvOf(s, node, c);
    if s.registry && Resolve(env).0.Ok? {
      WakeAgreesWithRegistry(env);
    }
  }

  lemma PlanRestoreConserves(s: State, w: Op, node: Node, c: Calls)
    requires Conserved(s) && !s.up && w !in s.plans
    ensures Conserved(PlanRestore(s, w, node, c))
  {
    ResolvesToOwed(s, node, c);
    var s' := PlanRestore(s, w, node, c);
    PlannedConserves(s, s', w, node, Resolve(EnvOf(s, node, c)).0.Ok?);
  }

  lemma PlannedConserves(s: State, s': State, w: Op, node: Node, planned: bool)
    requires Conserved(s) && !s.up && w !in s.plans
    requires s' == s.(locals := s'.locals, plans := s'.plans) && (s'.locals == s.locals || (s.registry && s'.locals == s.locals - {node}))
    requires if planned then
               && w in s'.plans && s'.plans == s.plans[w := s'.plans[w]] && s'.plans[w].seen == s.owed && s'.plans[w].node == node
               && (s'.plans[w].source.Some? ==> s'.plans[w].source.value in s.contents)
               && (s.owed.Some? && (s.registry || node == s.owed.value.node) ==> s'.plans[w].source == Some(s.owed.value.snapshot))
             else s'.plans == s.plans
    ensures Conserved(s')
  {
    forall op | op in s'.attempts
      ensures StoredAttempt(s', s'.attempts[op])
    {
      assert StoredAttempt(s, s.attempts[op]);
    }
    OutsideConserves(s, s');
  }

  /** A create of a name that is owed never boots afresh, as long as the state is where it can see it. */
  lemma OwedIsNotFresh(s: State, node: Node, c: Calls, q: Request)
    requires Conserved(s) && s.owed.Some? && (s.registry || node == s.owed.value.node)
    ensures CreatePath(EnvOf(s, node, c), q) != FreshBoot
  {
  }

  lemma PlanCreateConserves(s: State, w: Op, node: Node, c: Calls, q: Request)
    requires Conserved(s) && !s.up && w !in s.plans
    ensures Conserved(PlanOf(s, w, node, c, q))
  {
    match CreatePath(EnvOf(s, node, c), q)
    case RestoreGuest => PlanRestoreConserves(s, w, node, c);
    case FreshBoot =>
      if s.owed.Some? && (s.registry || node == s.owed.value.node) {
        OwedIsNotFresh(s, node, c, q);
      }
      PlannedConserves(s, PlanOf(s, w, node, c, q), w, node, true);
    case Preassigned =>
    case Refuse =>
  }

  lemma BootConserves(s: State, w: Op, id: nat, blank: Guest)
    requires Conserved(s) && Enabled(s, Boot(w, id, blank))
    ensures Conserved(Next(s, Boot(w, id, blank)))
  {
    var s' := Next(s, Boot(w, id, blank));
    forall op | op in s'.attempts
      ensures StoredAttempt(s', s'.attempts[op]) && !Latest(s', s'.attempts[op])
    {
      assert StoredAttempt(s, s.attempts[op]);
    }
    forall x, y | AtStage(s', x, Landing) && AtStage(s', y, Landing) && s'.attempts[x].node == s'.attempts[y].node
      ensures x == y
    {
      assert AtStage(s, x, Landing) && AtStage(s, y, Landing);
    }
  }

  /** A save takes the guest as it runs at that moment. */
  lemma SaveTakesTheGuestAsItRuns(s: State, guest: Guest, op: Op, snap: SnapID)
    requires Enabled(s, GuestRuns(guest)) && Enabled(Next(s, GuestRuns(guest)), Take(SaveOk(op, snap)))
    ensures var saved := Next(Next(s, GuestRuns(guest)), Take(SaveOk(op, snap)));
            && snap in saved.contents && saved.contents[snap] == guest
            && op in saved.attempts && saved.attempts[op].saved == Some(snap)
            && s.attempts[op].node in saved.locals && saved.locals[s.attempts[op].node] == snap
  {
  }

  /** A crash ends every attempt and plan on its node, and nothing else: not the VM, a snapshot, the tag or what is owed. */
  lemma CrashEndsItsNode(s: State, node: Node)
    ensures var s' := Next(s, Crash(node));
            && s' == s.(attempts := s'.attempts, plans := s'.plans)
            && (forall op :: op in s'.attempts <==> op in s.attempts && s.attempts[op].node != node)
            && (forall op :: op in s'.attempts ==> s'.attempts[op] == s.attempts[op])
            && (forall w :: w in s'.plans <==> w in s.plans && s.plans[w].node != node)
            && (forall w :: w in s'.plans ==> s'.plans[w] == s.plans[w])
  {
  }

  lemma EventConserves(s: State, e: Event)
    requires Conserved(s) && Enabled(s, e) && Honest(e) && Careful(s, e)
    ensures Conserved(Next(s, e))
  {
    match e
    case Take(step) => StepConserves(s, step);
    case Begin(op, image) => BeginConserves(s, op, image);
    case GuestRuns(_) => GuestConserves(s, e);
    case LoseVM => GuestConserves(s, e);
    case Crash(_) => EndsConserves(s, Next(s, e));
    case PlanWake(w, node, c) => PlanRestoreConserves(s, w, node, c);
    case PlanCreate(w, node, c, q) => PlanCreateConserves(s, w, node, c, q);
    case Boot(w, id, blank) => BootConserves(s, w, id, blank);
    case OtherSave(snap) => OtherSaveConserves(s, snap);
    case DropLocal(n) => DropLocalConserves(s, n);
    case DiscardTag => DiscardConserves(s);
  }

  lemma {:induction false} ConservedRun(s: State, es: seq<Event>)
    requires Conserved(s) && Possible(s, es) && CarefulRun(s, es)
    ensures Conserved(Run(s, es))
    decreases |es|
  {
    if es != [] {
      EventConserves(s, es[0]);
      ConservedRun(Next(s, es[0]), es[1..]);
    }
  }

  /**
   Over all attempts on all nodes, failures, crashes and resumes, as long as each
   hibernate begins unthreatened: a VM that hibernate removed has that attempt's
   snapshot where a wake looks.
   */
  lemma RemovedGuestIsHeld(registry: bool, es: seq<Event>)
    requires Possible(Fresh(registry), es) && CarefulRun(Fresh(registry), es)
    ensures var s := Run(Fresh(registry), es);
            GuestKept(s) && (s.owed.Some? ==> !s.up && s.owed.value.snapshot in s.contents)
  {
    ConservedRun(Fresh(registry), es);
  }

  // ---------------------------------------------------------------- the round trip

  /** Snapshots never change under their ID. */
  lemma {:induction false} SnapshotsAreImmutable(s: State, es: seq<Event>, snap: SnapID)
    requires Possible(s, es) && snap in s.contents
    ensures var s' := Run(s, es); snap in s'.contents && s'.contents[snap] == s.contents[snap]
    decreases |es|
  {
    if es != [] {
      ContentsGrow(s, es[0], snap);
      SnapshotsAreImmutable(Next(s, es[0]), es[1..], snap);
    }
  }

  lemma PlanFrame(s: State, w: Op, node: Node, c: Calls, q: Request)
    ensures PlanRestore(s, w, node, c) == s.(locals := PlanRestore(s, w, node, c).locals, plans := PlanRestore(s, w, node, c).plans)
    ensures PlanOf(s, w, node, c, q) == s.(locals := PlanOf(s, w, node, c, q).locals, plans := PlanOf(s, w, node, c, q).plans)
  {
  }

  lemma StepGrows(s: State, e: Step, snap: SnapID)
    requires StepEnabled(s, e) && snap in s.contents
    ensures snap in NextStep(s, e).contents && NextStep(s, e).contents[snap] == s.contents[snap]
    ensures NextStep(s, e).registry == s.registry
  {
  }

  lemma ContentsGrow(s: State, e: Event, snap: SnapID)
    requires Enabled(s, e) && snap in s.contents
    ensures snap in Next(s, e).contents && Next(s, e).contents[snap] == s.contents[snap] && Next(s, e).registry == s.registry
  {
    match e
    case Take(step) => StepGrows(s, step, snap);
    case PlanWake(w, node, c) => PlanFrame(s, w, node, c, Request(true, false, false, ""));
    case PlanCreate(w, node, c, q) => PlanFrame(s, w, node, c, q);
    case _ =>
  }

  lemma RegistryStays(s: State, e: Event)
    requires Enabled(s, e)
    ensures Next(s, e).registry == s.registry
  {
    match e
    case PlanWake(w, node, c) => PlanFrame(s, w, node, c, Request(true, false, false, ""));
    case PlanCreate(w, node, c, q) => PlanFrame(s, w, node, c, q);
    case _ =>
  }

  lemma {:induction false} RegistryIsFixed(s: State, es: seq<Event>)
    requires Possible(s, es)
    ensures Run(s, es).registry == s.registry
    decreases |es|
  {
    if es != [] {
      RegistryStays(s, es[0]);
      RegistryIsFixed(Next(s, es[0]), es[1..]);
    }
  }

  /** A boot planned while this guest was owed runs this guest. */
  lemma BootResumes(s: State, w: Op, id: nat, blank: Guest)
    requires Conserved(s) && Enabled(s, Boot(w, id, blank)) && s.owed.Some? && s.plans[w].seen == s.owed
    requires s.registry || s.plans[w].node == s.owed.value.node
    ensures Next(s, Boot(w, id, blank)).vm == Some(Machine(s.plans[w].node, id, s.contents[s.owed.value.snapshot]))
  {
  }

  /**
   Hibernate then wake: whatever happens between the save and the boot, on whichever
   node and through whichever source it boots, if the hibernate of that save removed the
   VM then the guest resumes exactly as it was saved.
   */
  lemma HibernateWakeRoundTrip(registry: bool, before: seq<Event>, op: Op, snap: SnapID, between: seq<Event>,
                               w: Op, id: nat, blank: Guest)
    requires Possible(Fresh(registry), before) && CarefulRun(Fresh(registry), before)
    requires Enabled(Run(Fresh(registry), before), Take(SaveOk(op, snap)))
    requires var s1 := Next(Run(Fresh(registry), before), Take(SaveOk(op, snap)));
             Possible(s1, between) && CarefulRun(s1, between)
    requires var s := Run(Next(Run(Fresh(registry), before), Take(SaveOk(op, snap))), between);
             && s.owed.Some? && s.owed.value.snapshot == snap && Enabled(s, Boot(w, id, blank))
             && s.plans[w].seen == s.owed && (registry || s.plans[w].node == s.owed.value.node)
    ensures var saved := Run(Fresh(registry), before);
            var s := Run(Next(saved, Take(SaveOk(op, snap))), between);
            Next(s, Boot(w, id, blank)).vm.value.guest == saved.vm.value.guest
  {
    var saved := Run(Fresh(registry), before);
    var s1 := Next(saved, Take(SaveOk(op, snap)));
    ConservedRun(Fresh(registry), before);
    EventConserves(saved, Take(SaveOk(op, snap)));
    ConservedRun(s1, between);
    SnapshotsAreImmutable(s1, between, snap);
    RegistryIsFixed(Fresh(registry), before);
    RegistryIsFixed(s1, between);
    BootResumes(Run(s1, between), w, id, blank);
  }

  // ---------------------------------------------------------------- where the VM goes

  /** The VM dies by itself here, or an attempt's remove takes it and its snapshot is held from then on. */
  ghost predicate LostOrHibernated(s: State, e: Event)
    requires Enabled(s, e)
  {
    || e == LoseVM
    || (e.Take? && e.step.Remove? && Next(s, e).owed.Some? && s.attempts[e.step.op].saved == Some(Next(s, e).owed.value.snapshot)
        && GuestKept(Next(s, e)))
  }

  ghost predicate Goes(s: State, es: seq<Event>)
    requires Possible(s, es)
    decreases |es|
  {
    es != [] && (LostOrHibernated(s, es[0]) || Goes(Next(s, es[0]), es[1..]))
  }

  /** The same VM runs in both. */
  predicate SameVM(s: State, s': State) {
    && s.up && s'.up && s.vm.Some? && s'.vm.Some?
    && s'.vm.value.id == s.vm.value.id && s'.vm.value.node == s.vm.value.node
  }

  lemma VMStays(s: State, e: Event)
    requires Conserved(s) && s.up && Enabled(s, e) && Honest(e) && !LostOrHibernated(s, e)
    ensures SameVM(s, Next(s, e))
  {
    if e.Take? && e.step.Remove? && VMThere(s, e.step.op) && e.step.answer != Kept {
      RemoveTakes(s, e.step.op);
    }
  }

  /**
   However many attempts fail, crash or overlap, and wherever: the VM keeps running
   until it dies by itself or a remove takes it, and at that moment its state is held.
   */
  lemma {:induction false} FailedAttemptsKeepVM(s: State, es: seq<Event>)
    requires Conserved(s) && s.up && Possible(s, es) && CarefulRun(s, es)
    ensures Goes(s, es) || SameVM(s, Run(s, es))
    decreases |es|
  {
    if es != [] && !LostOrHibernated(s, es[0]) {
      VMStays(s, es[0]);
      EventConserves(s, es[0]);
      FailedAttemptsKeepVM(Next(s, es[0]), es[1..]);
    }
  }
}
