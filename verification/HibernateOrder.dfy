/**
 The order of `hibernate` itself, with nothing else in flight: save, push, clear, remove,
 and what each failure undoes.
 */
module HibernateOrder {
  import opened Wrappers
  import opened WakeSource
  import opened HibernateWake
  import opened HibernateConserves
  import opened HibernateOverlap

  /** How the calls of one attempt go; a push that errs may still have landed. */
  datatype Answers = Answers(save: Result<SnapID, bool>, pushed: bool, landed: bool, removed: bool, deleted: bool)

  method Do(ghost s0: State, ghost es: seq<Event>, s: State, e: Event) returns (next: State, ghost more: seq<Event>)
    requires CarefulTrail(s0, es, s) && Enabled(s, e) && Honest(e) && Careful(s, e)
    ensures CarefulTrail(s0, more, next) && next == Next(s, e)
  {
    CarefulSnoc(s0, es, e);
    next, more := Next(s, e), es + [e];
  }

  /** The attempt is the only one in flight and has got this far. */
  ghost predicate Alone(s: State, op: Op, stage: Stage) {
    s.attempts.Keys == {op} && AtStage(s, op, stage)
  }

  /** The first half: save, then push when a registry is configured; a failure rolls back. */
  method SaveAndPush(s: State, op: Op, image: string, a: Answers) returns (end: State, ok: bool, ghost es: seq<Event>)
    requires s.up && s.vm.Some? && s.owed.None? && s.attempts == map[] && (a.save.Ok? ==> a.save.value !in s.contents)
    ensures CarefulTrail(s, es, end) && end.registry == s.registry
    ensures ok <==> a.save.Ok? && (s.registry ==> a.pushed)
    ensures end.vm == s.vm && end.up && end.owed.None?
    ensures s.registry && a.save.Ok? && (a.pushed || a.landed) ==> end.tag == Some(Manifest(a.save.value, s.vm.value.node, image))
    ensures !(s.registry && a.save.Ok? && (a.pushed || a.landed)) ==> end.tag == s.tag
    ensures ok ==>
      && Alone(end, op, Clearing) && VMThere(end, op) && end.attempts[op].saved == Some(a.save.value)
      && a.save.value in end.contents && end.contents[a.save.value] == s.vm.value.guest
      && Held(end, a.save.value, s.vm.value.node) && end.attempts[op].node == s.vm.value.node
    ensures !ok ==> end.attempts == map[]
  {
    end, ok, es := Save(s, op, image, a);
    if ok && s.registry {
      ok, end, es := Push(s, es, end, op, a);
    }
  }

  method Save(s: State, op: Op, image: string, a: Answers) returns (end: State, ok: bool, ghost es: seq<Event>)
    requires s.up && s.vm.Some? && s.owed.None? && s.attempts == map[] && (a.save.Ok? ==> a.save.value !in s.contents)
    ensures CarefulTrail(s, es, end) && (ok <==> a.save.Ok?)
    ensures ok ==>
      && Alone(end, op, if s.registry then Pushing else Clearing) && VMThere(end, op)
      && end.attempts[op].saved == Some(a.save.value) && end.attempts[op].node == s.vm.value.node && end.attempts[op].image == image
      && end == s.(contents := s.contents[a.save.value := s.vm.value.guest], locals := s.locals[s.vm.value.node := a.save.value],
                   attempts := end.attempts, current := Some(op))
    ensures !ok ==> end == s.(locals := end.locals, current := Some(op))
  {
    end, es := Do(s, [], s, Begin(op, image));
    assert Alone(end, op, Saving) && VMThere(end, op) && end == s.(attempts := end.attempts, current := Some(op));
    ok := a.save.Ok?;
    if ok {
      end, es := Do(s, es, end, Take(SaveOk(op, a.save.value)));
    } else {
      end, es := Undo(s, es, end, op, a.save.error);
    }
  }

  /** A save that fails, with or without having dropped the name's old snapshot. */
  method Undo(ghost s0: State, ghost es: seq<Event>, s: State, op: Op, localGone: bool) returns (end: State, ghost more: seq<Event>)
    requires CarefulTrail(s0, es, s) && Alone(s, op, Saving)
    ensures CarefulTrail(s0, more, end) && end == s.(locals := end.locals, attempts := map[])
  {
    end, more := Do(s0, es, s, Take(SaveFails(op, localGone)));
    end, more := Do(s0, more, end, Take(RollBack(op)));
  }

  /** The push of an attempt that has saved. */
  method Push(ghost s0: State, ghost es: seq<Event>, s: State, op: Op, a: Answers)
    returns (ok: bool, end: State, ghost more: seq<Event>)
    requires CarefulTrail(s0, es, s) && s.registry && s.owed.None? && Alone(s, op, Pushing) && VMThere(s, op)
    requires s.attempts[op].node in s.locals && s.attempts[op].saved == Some(s.locals[s.attempts[op].node])
    ensures CarefulTrail(s0, more, end) && (ok <==> a.pushed)
    ensures end == s.(tag := end.tag, attempts := end.attempts)
    ensures end.tag == if a.pushed || a.landed
                       then Some(Manifest(s.attempts[op].saved.value, s.attempts[op].node, s.attempts[op].image)) else s.tag
    ensures ok ==>
      && Alone(end, op, Clearing) && VMThere(end, op)
      && end.attempts[op].saved == s.attempts[op].saved && end.attempts[op].node == s.attempts[op].node
      && end.attempts[op].saved.Some? && Held(end, end.attempts[op].saved.value, s.attempts[op].node)
    ensures !ok ==> end.attempts == map[]
  {
    end, more := Do(s0, es, s, Take(Export(op)));
    ok := a.pushed;
    if !a.pushed {
      end, more := Do(s0, more, end, Take(PushFails(op, a.landed)));
      end, more := Do(s0, more, end, Take(RollBack(op)));
      return;
    }
    end, more := Do(s0, more, end, Take(PushOk(op)));
  }

  /** A remove that fails and leaves the VM: the pushed tag is deleted, if that works, and the attempt rolls back. */
  method KeepAndRollBack(ghost s0: State, ghost es: seq<Event>, s: State, op: Op, deleted: bool)
    returns (end: State, ghost more: seq<Event>)
    requires CarefulTrail(s0, es, s) && Alone(s, op, Removing) && VMThere(s, op) && s.attempts[op].saved.Some?
    ensures CarefulTrail(s0, more, end)
    ensures end == s.(tag := if deleted && s.registry then None else s.tag, attempts := map[])
  {
    end, more := Do(s0, es, s, Take(Remove(op, Kept)));
    end, more := Do(s0, more, end, Take(Compensate(op, deleted)));
    end, more := Do(s0, more, end, Take(RollBack(op)));
  }

  /** The second half: clear the annotations, then remove. */
  method RemoveOrRollBack(ghost s0: State, ghost es: seq<Event>, s: State, op: Op, a: Answers)
    returns (end: State, ghost more: seq<Event>)
    requires CarefulTrail(s0, es, s) && Alone(s, op, Clearing) && VMThere(s, op) && s.attempts[op].saved.Some?
    ensures CarefulTrail(s0, more, end)
    ensures a.removed ==>
      end == s.(up := false, owed := Some(Owed(s.attempts[op].saved.value, s.attempts[op].node)), attempts := map[])
    ensures !a.removed ==>
      end == s.(tag := if a.deleted && s.registry then None else s.tag, attempts := map[])
  {
    end, more := Do(s0, es, s, Take(Clear(op)));
    if !a.removed {
      end, more := KeepAndRollBack(s0, more, end, op, a.deleted);
      return;
    }
    end, more := Do(s0, more, end, Take(Remove(op, Removed)));
    end, more := Do(s0, more, end, Take(Close(op)));
  }

  /** The VM goes only once its state is held, and a failure at any stage leaves it running. */
  method Hibernate(s: State, op: Op, image: string, a: Answers) returns (end: State, ok: bool, ghost es: seq<Event>)
    requires Conserved(s) && s.up && s.attempts == map[] && (a.save.Ok? ==> a.save.value !in s.contents)
    ensures CarefulTrail(s, es, end) && Conserved(end) && end.attempts == map[]
    ensures ok <==> a.save.Ok? && (s.registry ==> a.pushed) && a.removed
    ensures ok ==>
      && !end.up && end.owed == Some(Owed(a.save.value, s.vm.value.node)) && Held(end, a.save.value, s.vm.value.node)
      && (s.registry ==> end.tag == Some(Manifest(a.save.value, s.vm.value.node, image)))
      && a.save.value in end.contents && end.contents[a.save.value] == s.vm.value.guest
    ensures !ok ==> end.up && end.vm == s.vm && end.owed.None?
  {
    end, ok, es := SaveAndPush(s, op, image, a);
    if ok {
      end, es := RemoveOrRollBack(s, es, end, op, a);
      ok := a.removed;
    }
    ConservedRun(s, es);
  }
}
