/**
 One VM name over its whole life: guests run, hibernates save, push and remove with
 every failure and crash in between, and wakes and creates restore it on any node
 (`hibernate`, `rollbackHibernate`, `wake`, `CreatePod`, startup resume). Any number of
 attempts and of planned boots may be in flight at once: a resumed hibernate and a
 create hold no pod lock, and forgetting a pod discards the lock a holder still has.
 */
module HibernateWake {
  import opened Wrappers
  import opened WakeSource

  /** The guest's memory and disk, as a snapshot captures them. */
  type Guest = nat
  type Op = nat

  datatype Machine = Machine(node: Node, id: nat, guest: Guest)

  /** Where a hibernate attempt stands; Saving also covers the NIC drop before it, Landing is an upload in progress. */
  datatype Stage = Saving | Pushing | Landing | Clearing | Removing | Compensating | RollingBack | Closing

  datatype Attempt = Attempt(
    node: Node, vm: nat, image: string, stage: Stage, saved: Option<SnapID>, exported: Option<SnapID>)

  /** The snapshot of the attempt that removed the VM, until a VM of the name runs again or the state is discarded. */
  datatype Owed = Owed(snapshot: SnapID, node: Node)

  /** A boot that has found its source, or that none is owed; `seen` is what was owed then. */
  datatype Plan = Plan(node: Node, source: Option<SnapID>, seen: Option<Owed>)

  /** `vm` is the latest VM of the name and `up` whether it still exists; `current` the latest attempt begun. */
  datatype State = State(
    registry: bool,
    vm: Option<Machine>,
    up: bool,
    contents: map<SnapID, Guest>,
    tag: Option<Manifest>,
    locals: map<Node, SnapID>,
    attempts: map<Op, Attempt>,
    current: Option<Op>,
    owed: Option<Owed>,
    plans: map<Op, Plan>)

  /** How `Runtime.Remove` answers; Kept is an error other than "not found". */
  datatype RemoveAnswer = Removed | NotFound | Kept

  /** Which calls of a wake or create succeed, and how the node is wired. */
  datatype Calls = Calls(
    puller: bool, peers: bool, localTrouble: bool, manifestRead: bool, configRead: bool, peerManifestRead: bool,
    peerConfigRead: bool, peerReachable: bool, transferred: bool, pulled: bool, imported: bool)

  /** The steps of an attempt. A push exports the local snapshot, and lands or not. */
  datatype Step =
    | SaveOk(op: Op, snap: SnapID)
    | SaveFails(op: Op, localGone: bool)
    | Export(op: Op)
    | PushOk(op: Op)
    | PushFails(op: Op, landed: bool)
    | Clear(op: Op)
    | Remove(op: Op, answer: RemoveAnswer)
    | RemoveErrsButRemoves(op: Op)
    | Compensate(op: Op, deleted: bool)
    | RollBack(op: Op)
    | Close(op: Op)

  datatype Event =
    | Take(step: Step)
    | Begin(op: Op, image: string)
    | GuestRuns(guest: Guest)
    | LoseVM
    | Crash(node: Node)
    | PlanWake(w: Op, node: Node, calls: Calls)
    | PlanCreate(w: Op, node: Node, calls: Calls, q: Request)
    | Boot(w: Op, id: nat, blank: Guest)
    | OtherSave(snap: SnapID)
    | DropLocal(node: Node)
    | DiscardTag

  function Fresh(registry: bool): State {
    State(registry, None, false, map[], None, map[], map[], None, None, map[])
  }

  // ---------------------------------------------------------------- steps

  predicate AtStage(s: State, op: Op, stage: Stage) {
    op in s.attempts && s.attempts[op].stage == stage
  }

  /** The attempt's VM is the latest of the name. */
  predicate Latest(s: State, a: Attempt) {
    s.vm.Some? && s.vm.value.id == a.vm && s.vm.value.node == a.node
  }

  /** The attempt's VM still exists. */
  predicate VMThere(s: State, op: Op) {
    op in s.attempts && s.up && Latest(s, s.attempts[op])
  }

  /** `pushGate` serialises the pushes of a node. */
  predicate GateFree(s: State, node: Node) {
    forall op :: op in s.attempts && s.attempts[op].stage == Landing ==> s.attempts[op].node != node
  }

  predicate StepEnabled(s: State, e: Step) {
    match e
    case SaveOk(op, snap) => AtStage(s, op, Saving) && VMThere(s, op) && snap !in s.contents
    case SaveFails(op, _) => AtStage(s, op, Saving)
    case Export(op) => AtStage(s, op, Pushing) && s.attempts[op].node in s.locals && GateFree(s, s.attempts[op].node)
    case PushOk(op) => AtStage(s, op, Landing) && s.attempts[op].exported.Some?
    case PushFails(op, landed) =>
      (AtStage(s, op, Landing) && s.attempts[op].exported.Some?) || (AtStage(s, op, Pushing) && !landed)
    case Clear(op) => AtStage(s, op, Clearing)
    case Remove(op, answer) =>
      AtStage(s, op, Removing) && s.attempts[op].saved.Some? && (answer == NotFound <==> !VMThere(s, op))
    case RemoveErrsButRemoves(op) => AtStage(s, op, Removing) && s.attempts[op].saved.Some? && VMThere(s, op)
    case Compensate(op, _) => AtStage(s, op, Compensating)
    case RollBack(op) => AtStage(s, op, RollingBack)
    case Close(op) => AtStage(s, op, Closing)
  }

  predicate Enabled(s: State, e: Event) {
    match e
    case Take(step) => StepEnabled(s, step)
    case Begin(op, _) => s.up && s.vm.Some? && op !in s.attempts
    case GuestRuns(_) => s.up && s.vm.Some?
    case LoseVM => s.up
    case Crash(_) => true
    case PlanWake(w, _, _) => !s.up && w !in s.plans
    case PlanCreate(w, _, _, _) => !s.up && w !in s.plans
    case Boot(w, id, _) =>
      && !s.up && w in s.plans && (s.plans[w].source.Some? ==> s.plans[w].source.value in s.contents)
      && (forall op :: op in s.attempts ==> !(s.attempts[op].node == s.plans[w].node && s.attempts[op].vm == id))
    case OtherSave(snap) => s.up && s.vm.Some? && snap !in s.contents
    case DropLocal(_) => true
    case DiscardTag => true
  }

  function At(s: State, op: Op, stage: Stage): State
    requires op in s.attempts
  {
    s.(attempts := s.attempts[op := s.attempts[op].(stage := stage)])
  }

  /** The manifest of what was exported, stamped with the node. */
  function Landed(s: State, op: Op): State
    requires op in s.attempts && s.attempts[op].exported.Some?
  {
    var a := s.attempts[op];
    s.(tag := Some(Manifest(a.exported.value, a.node, a.image)))
  }

  /** The VM is gone and the attempt reports the guest hibernated. */
  function Removal(s: State, op: Op): State
    requires op in s.attempts && s.attempts[op].saved.Some?
  {
    var a := s.attempts[op];
    if VMThere(s, op) || (Latest(s, a) && s.owed.None?) then s.(up := false, owed := Some(Owed(a.saved.value, a.node)))
    else s
  }

  function NextStep(s: State, e: Step): State
    requires StepEnabled(s, e)
  {
    match e
    case SaveOk(op, snap) =>
      var a := s.attempts[op];
      s.(contents := s.contents[snap := s.vm.value.guest], locals := s.locals[a.node := snap],
         attempts := s.attempts[op := a.(stage := if s.registry then Pushing else Clearing, saved := Some(snap))])
    case SaveFails(op, localGone) =>
      var s' := At(s, op, RollingBack);
      if localGone then s'.(locals := s.locals - {s.attempts[op].node}) else s'
    case Export(op) =>
      var a := s.attempts[op];
      s.(attempts := s.attempts[op := a.(stage := Landing, exported := Some(s.locals[a.node]))])
    case PushOk(op) => At(Landed(s, op), op, Clearing)
    case PushFails(op, landed) => At(if landed then Landed(s, op) else s, op, RollingBack)
    case Clear(op) => At(s, op, Removing)
    case Remove(op, answer) => if answer == Kept then At(s, op, Compensating) else At(Removal(s, op), op, Closing)
    case RemoveErrsButRemoves(op) => At(Removal(s, op), op, Compensating)
    case Compensate(op, deleted) =>
      var s' := At(s, op, RollingBack);
      if deleted && s.registry then s'.(tag := None) else s'
    case RollBack(op) => s.(attempts := s.attempts - {op})
    case Close(op) => s.(attempts := s.attempts - {op})
  }

  function EnvOf(s: State, node: Node, c: Calls): Env {
    Env(node, s.registry, c.puller, c.peers && s.registry,
        if c.localTrouble then Trouble else if node in s.locals then Found(s.locals[node]) else Absent,
        s.tag, c.manifestRead, c.configRead, c.peerManifestRead, c.peerConfigRead, c.peerReachable,
        if s.tag.Some? && s.tag.value.fromNode in s.locals then Some(s.locals[s.tag.value.fromNode]) else None,
        c.transferred, c.pulled, c.imported)
  }

  /** Resolve a source; a stale local copy is removed on the way. */
  function PlanRestore(s: State, w: Op, node: Node, c: Calls): State {
    var (source, discards) := Resolve(EnvOf(s, node, c));
    var s' := if discards then s.(locals := s.locals - {node}) else s;
    if source.Ok? then s'.(plans := s.plans[w := Plan(node, Some(source.value.snapshot), s.owed)]) else s'
  }

  function PlanOf(s: State, w: Op, node: Node, c: Calls, q: Request): State {
    match CreatePath(EnvOf(s, node, c), q)
    case RestoreGuest => PlanRestore(s, w, node, c)
    case FreshBoot => s.(plans := s.plans[w := Plan(node, None, s.owed)])
    case Preassigned => s
    case Refuse => s
  }

  /** The clone runs, on the guest of its source or on a blank one. */
  function Booted(s: State, w: Op, id: nat, blank: Guest): State
    requires Enabled(s, Boot(w, id, blank))
  {
    var plan := s.plans[w];
    var guest := if plan.source.Some? then s.contents[plan.source.value] else blank;
    s.(vm := Some(Machine(plan.node, id, guest)), up := true, owed := None, plans := s.plans - {w})
  }

  function Next(s: State, e: Event): State
    requires Enabled(s, e)
  {
    match e
    case Take(step) => NextStep(s, step)
    case Begin(op, image) =>
      s.(attempts := s.attempts[op := Attempt(s.vm.value.node, s.vm.value.id, image, Saving, None, None)],
         current := Some(op))
    case GuestRuns(guest) => s.(vm := Some(s.vm.value.(guest := guest)))
    case LoseVM => s.(up := false)
    case Crash(node) =>
      s.(attempts := map op | op in s.attempts && s.attempts[op].node != node :: s.attempts[op],
         plans := map w | w in s.plans && s.plans[w].node != node :: s.plans[w])
    case PlanWake(w, node, c) => PlanRestore(s, w, node, c)
    case PlanCreate(w, node, c, q) => PlanOf(s, w, node, c, q)
    case Boot(w, id, blank) => Booted(s, w, id, blank)
    case OtherSave(snap) =>
      s.(contents := s.contents[snap := s.vm.value.guest], locals := s.locals[s.vm.value.node := snap])
    case DropLocal(n) =>
      s.(locals := s.locals - {n}, owed := if !s.registry && s.owed.Some? && s.owed.value.node == n then None else s.owed)
    case DiscardTag => if s.registry then s.(tag := None, owed := None) else s
  }

  predicate Possible(s: State, es: seq<Event>)
    decreases |es|
  {
    es == [] || (Enabled(s, es[0]) && Possible(Next(s, es[0]), es[1..]))
  }

  function Run(s: State, es: seq<Event>): State
    requires Possible(s, es)
    decreases |es|
  {
    if es == [] then s else Run(Next(s, es[0]), es[1..])
  }

  /** Not a Remove that reports an error other than "not found" and yet removed the VM. */
  predicate Honest(e: Event) {
    !(e.Take? && e.step.RemoveErrsButRemoves?)
  }

  // ---------------------------------------------------------------- what is protected

  /** The snapshot is where a wake looks for it: under the tag, or without a registry in the node's own store. */
  predicate Held(s: State, snap: SnapID, node: Node) {
    if s.registry then s.tag.Some? && s.tag.value.snapshot == snap
    else node in s.locals && s.locals[node] == snap
  }

  /** Whoever's VM hibernate removed last is held. */
  predicate GuestKept(s: State) {
    s.owed.Some? ==> Held(s, s.owed.value.snapshot, s.owed.value.node)
  }

  predicate HasLanded(stage: Stage) {
    stage.Clearing? || stage.Removing?
  }

  /** The attempt's snapshot is exported. */
  predicate Sealed(stage: Stage) {
    stage.Landing? || HasLanded(stage)
  }

  predicate Early(stage: Stage) {
    stage.Saving? || stage.Pushing? || stage.Landing? || stage.Clearing? || stage.Removing?
  }

  /** The latest attempt is on its way to removing the latest VM. */
  predicate Live(s: State) {
    && s.current.Some? && s.current.value in s.attempts && s.owed.None?
    && Latest(s, s.attempts[s.current.value]) && Early(s.attempts[s.current.value].stage)
  }

  predicate LocalIs(s: State, n: Node, snap: SnapID) {
    n in s.locals ==> s.locals[n] == snap
  }

  /**
   Another attempt can do nothing to a guest on node `n` whose snapshot, once it has
   one, is `p`; `sealed` says that snapshot is exported. Its own VM is gone, so it can
   neither save nor fail to remove; what it may still push goes through the same gate
   before, or is `p` itself; and it is not about to delete the tag.
   */
  predicate Quiet(s: State, a: Attempt, n: Node, p: Option<SnapID>, sealed: bool) {
    match a.stage
    case Saving => if s.registry then !Latest(s, a) else a.node != n
    case Pushing =>
      && !Latest(s, a)
      && (if a.node == n then sealed ==> p.Some? && LocalIs(s, n, p.value) else a.node !in s.locals)
    case Landing => !Latest(s, a) && a.node == n && (sealed ==> a.exported == p)
    case Clearing => !Latest(s, a)
    case Removing => !Latest(s, a)
    case Compensating => !s.registry
    case RollingBack => true
    case Closing => true
  }

  /** No attempt in flight can touch a guest on this node that begins to hibernate now. */
  ghost predicate Unthreatened(s: State, n: Node) {
    forall op :: op in s.attempts ==> Quiet(s, s.attempts[op], n, None, false)
  }

  /** An attempt on the node has yet to export what is in its store. */
  ghost predicate HasPusher(s: State, n: Node) {
    exists op :: AtStage(s, op, Pushing) && s.attempts[op].node == n
  }

  /**
   What a caller can check before the event. A hibernate begins unthreatened. While one is
   on its way, its local snapshot is overwritten from outside only before it has saved, or
   once it is exported and nobody else on the node is about to; without a registry it is not
   dropped, and with one its tag is not discarded, between the push and the remove.
   */
  ghost predicate Careful(s: State, e: Event) {
    match e
    case Begin(_, _) => s.vm.Some? && Unthreatened(s, s.vm.value.node)
    case OtherSave(_) =>
      Live(s) ==>
        var a := s.attempts[s.current.value];
        a.stage == Saving || (s.registry && Sealed(a.stage) && !HasPusher(s, a.node))
    case DropLocal(n) =>
      Live(s) && !s.registry ==> !(s.attempts[s.current.value].node == n && HasLanded(s.attempts[s.current.value].stage))
    case DiscardTag => Live(s) && s.registry ==> !HasLanded(s.attempts[s.current.value].stage)
    case _ => true
  }

  ghost predicate CarefulRun(s: State, es: seq<Event>)
    requires Possible(s, es)
    decreases |es|
  {
    es == [] || (Honest(es[0]) && Careful(s, es[0]) && CarefulRun(Next(s, es[0]), es[1..]))
  }
}
