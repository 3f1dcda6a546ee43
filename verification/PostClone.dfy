/**
 The guest fixup of a clone, from the moment its VM is committed until the VM is gone:
 `CreatePod` and its adoption branch, `owedOpFor`, `runPostCloneSetup`, `runReadyWait`,
 `markReadyAfterIP`, startup reconcile, hibernates that fail and the lift of their failure.
 */
module PostClone {
  /** The lifecycle state; a failure of hibernate is told by its message, from any other. */
  datatype Life = Unset | Creating | Ready | Failed | HibernateFailed | Hibernating | Hibernated

  /** The post-clone-state annotation. */
  datatype Marker = NoMarker | Running | Done | Broken

  /** What the VM ID annotation names. */
  datatype VMID = NoVMID | OtherVM | ThisVM

  datatype OwedOp = Nothing | OweHibernate | OwePostClone | OweReadyWait | OweClassifyNIC | OweSnapshot

  /** What `owedOpFor` reads of the pod, its spec and its VM. */
  datatype Facts = Facts(
    deleting: bool, hasVM: bool, macos: bool, managed: bool, hibernate: bool, snapshotPending: bool,
    life: Life, marker: Marker, dropNIC: bool, needed: bool)

  function OwedOpFor(f: Facts): OwedOp {
    var resuming := f.life == Creating || f.life == Unset;
    if f.deleting || !f.hasVM || f.macos then Nothing
    else if !f.managed then (if resuming then OweReadyWait else Nothing)
    else if f.hibernate then OweHibernate
    else if !resuming then (if f.snapshotPending then OweSnapshot else Nothing)
    else
      match f.marker
      case Broken => Nothing
      case Running => OwePostClone
      case Done => OweReadyWait
      case NoMarker => if f.dropNIC then OweClassifyNIC else if f.needed then OwePostClone else OweReadyWait
  }

  predicate StillCreating(f: Facts) {
    f.life == Creating || f.life == Unset
  }

  /** A managed Linux or Windows pod that has its VM, is not being deleted and asks for no hibernate. */
  predicate Runs(f: Facts) {
    !f.deleting && f.hasVM && !f.macos && f.managed && !f.hibernate
  }

  /** What a pod is owed, each answer exactly. */
  lemma OwedExactly(f: Facts)
    ensures OwedOpFor(f) == OweHibernate <==> !f.deleting && f.hasVM && !f.macos && f.managed && f.hibernate
    ensures OwedOpFor(f) == OweSnapshot <==> Runs(f) && !StillCreating(f) && f.snapshotPending
    ensures OwedOpFor(f) == OwePostClone <==>
            Runs(f) && StillCreating(f) && (f.marker == Running || (f.marker == NoMarker && !f.dropNIC && f.needed))
    ensures OwedOpFor(f) == OweClassifyNIC <==> Runs(f) && StillCreating(f) && f.marker == NoMarker && f.dropNIC
    ensures OwedOpFor(f) == OweReadyWait <==>
            || (!f.deleting && f.hasVM && !f.macos && !f.managed && StillCreating(f))
            || (Runs(f) && StillCreating(f) && (f.marker == Done || (f.marker == NoMarker && !f.dropNIC && !f.needed)))
    ensures OwedOpFor(f) == Nothing <==>
            || f.deleting || !f.hasVM || f.macos
            || (!f.managed && !StillCreating(f))
            || (Runs(f) && !StillCreating(f) && !f.snapshotPending)
            || (Runs(f) && StillCreating(f) && f.marker == Broken)
  {
  }

  // ---------------------------------------------------------------- the clone

  /** The two fixups a clone can have at work: its own create's, and the one resumed under the resume claim. */
  datatype Op = Created | Resumed

  /** Where a fixup stands; Settling is the SAC pass that follows the done marker. */
  datatype Task = SettingUp | Executing | Marking | Settling | AwaitingIP

  /** How far the create is that cloned the VM; a parked pod is tracked without it, as a hibernated one. */
  datatype Phase = Publishing | Dispatching | Past | Parked

  /**
   A managed clone that needs a fixup and keeps its NIC. `life`, `marker`, `vmid` and
   `asked` (for hibernate) are the pod's annotations at the apiserver; the rest is the
   process: whether it runs, how far the create is, whether this VM is bound to the pod, the
   lifecycle intent, the marker on the tracked pod, the fixups at work, a hibernate at work,
   and a mark of Ready that is on its way. `fixed` says a fixup succeeded inside this VM.
   */
  datatype Clone = Clone(
    life: Life, marker: Marker, vmid: VMID, asked: bool,
    up: bool, phase: Phase, tracked: bool, intent: Life, seen: Marker, tasks: map<Op, Task>, hibernating: bool,
    readying: bool, fixed: bool)

  datatype Event =
    | Publish(landed: bool)
    | Dispatch
    | MarkRunning(t: Op, landed: bool)
    | ExecOk(t: Op)
    | ExecExhausted(t: Op, landed: bool)
    | MarkDone(t: Op, landed: bool)
    | SettleOk(t: Op)
    | SettleFails(t: Op, landed: bool)
    | LeaseLands(t: Op, newer: bool)
    | LeaseTimesOut(t: Op)
    | Flush
    | Update
    | Ask(hibernate: bool)
    | HibernateBegins
    | HibernateFails
    | Lift
    | MarkReady(newer: bool)
    | Recreate
    | Adopt(landed: bool)
    | Crash
    | Restart(binds: bool, landed: bool, running: bool)

  predicate At(c: Clone, t: Op, task: Task) {
    c.up && t in c.tasks && c.tasks[t] == task
  }

  /** `backoffIfResuming`: updates and deletes wait for a resumed fixup. */
  predicate Held(c: Clone) {
    Resumed in c.tasks
  }

  predicate Enabled(c: Clone, e: Event) {
    match e
    case Publish(_) => c.up && c.phase == Publishing
    case Dispatch => c.up && c.phase == Dispatching
    case MarkRunning(t, _) => At(c, t, SettingUp)
    case ExecOk(t) => At(c, t, Executing)
    case ExecExhausted(t, _) => At(c, t, Executing)
    case MarkDone(t, _) => At(c, t, Marking)
    case SettleOk(t) => At(c, t, Settling)
    case SettleFails(t, _) => At(c, t, Settling)
    case LeaseLands(t, _) => At(c, t, AwaitingIP)
    case LeaseTimesOut(t) => At(c, t, AwaitingIP)
    case Flush => c.up && c.intent != Unset
    case Update => c.up && c.tracked && !Held(c)
    case Ask(_) => true
    case HibernateBegins => c.up && c.tracked && (c.hibernating || (c.asked && !Held(c)))
    case HibernateFails => c.up && c.hibernating
    case Lift => c.up && c.tracked && c.intent == HibernateFailed && !c.asked
    case MarkReady(_) => c.up && c.readying
    case Recreate => !c.up || !Held(c)
    case Adopt(_) => c.up && c.phase == Past && !c.tracked && !Held(c)
    case Crash => c.up
    case Restart(_, _, _) => !c.up
  }

  /** `markPostCloneState`: a failed marker on the tracked pod is sticky; `landed` says the patch got through. */
  function Mark(c: Clone, m: Marker, landed: bool): Clone {
    if m != Broken && c.seen == Broken then c
    else c.(seen := m, marker := if landed then m else c.marker)
  }

  predicate IsFailed(life: Life) {
    life == Failed || life == HibernateFailed
  }

  /** A Ready write is dropped over a failure, unless it is of a newer generation. */
  function WriteReady(c: Clone, newer: bool): Clone {
    if IsFailed(c.intent) && !newer then c else c.(intent := Ready)
  }

  function Fail(c: Clone, t: Op): Clone {
    c.(tasks := c.tasks - {t}, intent := Failed)
  }

  function FactsOf(c: Clone): Facts {
    Facts(false, true, false, true, c.asked, false, c.intent, c.marker, false, true)
  }

  /** What `dispatchResume` starts for the work owed. */
  function Resume(c: Clone): Clone {
    match OwedOpFor(FactsOf(c))
    case OweHibernate => c.(hibernating := true)
    case OwePostClone => c.(tasks := c.tasks[Resumed := SettingUp])
    case OweReadyWait => c.(tasks := c.tasks[Resumed := Settling])
    case _ => c
  }

  /** The VM bound to the pod under an intent; `landed` says the VM ID annotation got through. */
  function Bound(c: Clone, intent: Life, landed: bool): Clone {
    c.(up := true, tracked := true, intent := intent, seen := c.marker, vmid := if landed then ThisVM else c.vmid)
  }

  /** `CreatePod` finds the VM by its name: Creating, bound, then what is owed, and Ready at once when nothing is. */
  function Adopted(c: Clone, landed: bool): Clone {
    var bound := Bound(c, Creating, landed);
    if OwedOpFor(FactsOf(bound)) == Nothing then bound.(readying := true) else Resume(bound)
  }

  /** Startup takes the pod to be this VM's: by its ID, or without one by the VM's name. */
  predicate Found(c: Clone, binds: bool) {
    c.vmid == ThisVM || (c.vmid == NoVMID && binds)
  }

  /** Startup lifts a failure of hibernate nobody asks for any more, if the VM runs; only on the branch by ID. */
  predicate LiftsAtStartup(c: Clone, running: bool) {
    c.vmid == ThisVM && c.life == HibernateFailed && !c.asked && running
  }

  /** A pod that does not find its VM is left to `CreatePod`, unless hibernate was asked for: then a stale ID is cleared. */
  function Restarted(c: Clone, binds: bool, landed: bool, running: bool): Clone {
    if Found(c, binds) then Resume(Bound(c, if LiftsAtStartup(c, running) then Ready else c.life, landed))
    else if c.asked then c.(up := true, phase := Parked, vmid := if landed then NoVMID else c.vmid)
    else c.(up := true)
  }

  /** Nothing of the process is left. */
  function Stopped(c: Clone): Clone {
    c.(up := false, phase := Past, tracked := false, intent := Unset, tasks := map[], hibernating := false, readying := false)
  }

  /** A new pod of the same name, without a trace of the old one; what the old one has at work is refused by its UID. */
  function Recreated(c: Clone): Clone {
    Stopped(c).(up := c.up, life := Unset, marker := NoMarker, vmid := NoVMID, asked := false, seen := NoMarker)
  }

  function Next(c: Clone, e: Event): Clone
    requires Enabled(c, e)
  {
    match e
    case Publish(landed) => c.(phase := Dispatching, tracked := true, vmid := if landed then ThisVM else c.vmid)
    case Dispatch => c.(phase := Past, tasks := c.tasks[Created := SettingUp])
    case MarkRunning(t, landed) => Mark(c, Running, landed).(tasks := c.tasks[t := Executing])
    case ExecOk(t) => c.(tasks := c.tasks[t := Marking], fixed := true)
    case ExecExhausted(t, landed) => Fail(Mark(c, Broken, landed), t)
    case MarkDone(t, landed) => Mark(c, Done, landed).(tasks := c.tasks[t := Settling])
    case SettleOk(t) => c.(tasks := if IsFailed(c.intent) then c.tasks - {t} else c.tasks[t := AwaitingIP])
    case SettleFails(t, landed) => Fail(Mark(c, Broken, landed), t)
    case LeaseLands(t, newer) =>
      var c1 := c.(tasks := c.tasks - {t});
      if c.tracked && !c.asked then WriteReady(c1, newer) else c1
    case LeaseTimesOut(t) => if c.tracked && !c.asked then Fail(c, t) else c.(tasks := c.tasks - {t})
    case Flush => c.(life := c.intent)
    case Update => c.(seen := c.marker)
    case Ask(hibernate) => c.(asked := hibernate)
    case HibernateBegins => c.(hibernating := true, intent := Hibernating)
    case HibernateFails => c.(hibernating := false, intent := HibernateFailed)
    case Lift => c.(intent := Creating, readying := true)
    case MarkReady(newer) => WriteReady(c, newer).(readying := false)
    case Recreate => Recreated(c)
    case Adopt(landed) => Adopted(c, landed)
    case Crash => Stopped(c)
    case Restart(binds, landed, running) => Restarted(c, binds, landed, running)
  }

  /** The VM is cloned and nothing of it published; the pod's annotations may be left over from an earlier VM. */
  function Committed(life: Life, marker: Marker, vmid: VMID): Clone {
    Clone(life, marker, vmid, false, true, Publishing, false, Creating, marker, map[], false, false, false)
  }

  /**
   The branches that take an unfixed guest for a fixed one, by what they test: the lift of
   a hibernate failure; an adoption that finds a done or a failed marker; a restart that
   finds a Ready annotation, a hibernate failure to lift, or a done marker on a pod that
   is still being created.
   */
  predicate Skips(c: Clone, e: Event) {
    && !c.fixed
    && match e
       case Lift => true
       case Adopt(_) => !c.asked && (c.marker == Done || c.marker == Broken)
       case Restart(binds, _, running) =>
         && Found(c, binds)
         && (|| c.life == Ready
             || LiftsAtStartup(c, running)
             || (!c.asked && (c.life == Unset || c.life == Creating) && c.marker == Done))
       case _ => false
  }

  /** Which runs are meant: whether hibernate is asked for in them, `CreatePod` adopts the VM, skipping branches are taken. */
  datatype Scope = Scope(hibernates: bool, adoptions: bool, skips: bool)

  predicate Allowed(c: Clone, e: Event, scope: Scope) {
    && Enabled(c, e)
    && (e.Ask? ==> scope.hibernates)
    && (e.Adopt? ==> scope.adoptions)
    && (Skips(c, e) ==> scope.skips)
  }

  predicate Possible(c: Clone, es: seq<Event>, scope: Scope)
    decreases |es|
  {
    es == [] || (Allowed(c, es[0], scope) && Possible(Next(c, es[0]), es[1..], scope))
  }

  function Run(c: Clone, es: seq<Event>, scope: Scope): Clone
    requires Possible(c, es, scope)
    decreases |es|
  {
    if es == [] then c else Run(Next(c, es[0]), es[1..], scope)
  }

  ghost predicate Leads(c: Clone, d: Clone, scope: Scope) {
    exists es :: Possible(c, es, scope) && Run(c, es, scope) == d
  }

  /** On every run of the scope, the clone is Ready only on a fixed guest. */
  ghost predicate ReadyImpliesFixed(c: Clone, scope: Scope) {
    forall d :: Leads(c, d, scope) && d.intent == Ready ==> d.fixed
  }

  /** An unfixed Ready guest. */
  lemma Skipped(c: Clone, scope: Scope)
    requires c.intent == Ready && !c.fixed
    ensures !ReadyImpliesFixed(c, scope)
  {
    assert Possible(c, [], scope) && Run(c, [], scope) == c;
    assert Leads(c, c, scope);
  }

  /** What is unsafe after an allowed step is unsafe before it. */
  lemma Backwards(c: Clone, e: Event, scope: Scope)
    requires Allowed(c, e, scope) && !ReadyImpliesFixed(Next(c, e), scope)
    ensures !ReadyImpliesFixed(c, scope)
  {
    var d :| Leads(Next(c, e), d, scope) && d.intent == Ready && !d.fixed;
    var es :| Possible(Next(c, e), es, scope) && Run(Next(c, e), es, scope) == d;
    assert ([e] + es)[1..] == es;
    assert Possible(c, [e] + es, scope) && Run(c, [e] + es, scope) == d;
    assert Leads(c, d, scope);
  }

  // ---------------------------------------------------------------- exactly which branches skip the fixup

  /** An unfixed guest is not Ready, about to be marked so, or past its fixup. */
  ghost predicate FixedFirst(c: Clone) {
    !c.fixed ==>
      && c.intent != Ready && !c.readying
      && forall t :: t in c.tasks ==> c.tasks[t] == SettingUp || c.tasks[t] == Executing
  }

  lemma ResumeIsFixedFirst(c: Clone)
    requires FixedFirst(c)
    requires !c.fixed ==> c.asked || c.marker != Done || (c.intent != Unset && c.intent != Creating)
    ensures FixedFirst(Resume(c))
  {
  }

  lemma AdoptIsFixedFirst(c: Clone, landed: bool)
    requires FixedFirst(c) && !Skips(c, Adopt(landed))
    ensures FixedFirst(Adopted(c, landed))
  {
    ResumeIsFixedFirst(Bound(c, Creating, landed));
  }

  lemma RestartIsFixedFirst(c: Clone, binds: bool, landed: bool, running: bool)
    requires FixedFirst(c) && !Skips(c, Restart(binds, landed, running))
    ensures FixedFirst(Restarted(c, binds, landed, running))
  {
    if Found(c, binds) {
      ResumeIsFixedFirst(Bound(c, if LiftsAtStartup(c, running) then Ready else c.life, landed));
    }
  }

  lemma FixedFirstStep(c: Clone, e: Event)
    requires FixedFirst(c) && Enabled(c, e) && !Skips(c, e)
    ensures FixedFirst(Next(c, e))
  {
    match e
    case Adopt(landed) => AdoptIsFixedFirst(c, landed);
    case Restart(binds, landed, running) => RestartIsFixedFirst(c, binds, landed, running);
    case _ =>
  }

  lemma {:induction false} FixedFirstRun(c: Clone, es: seq<Event>, scope: Scope)
    requires FixedFirst(c) && !scope.skips && Possible(c, es, scope)
    ensures FixedFirst(Run(c, es, scope))
    decreases |es|
  {
    if es != [] {
      FixedFirstStep(c, es[0]);
      FixedFirstRun(Next(c, es[0]), es[1..], scope);
    }
  }

  lemma FixedFirstIsSafe(c: Clone, scope: Scope)
    requires FixedFirst(c) && !scope.skips
    ensures ReadyImpliesFixed(c, scope)
  {
    forall d | Leads(c, d, scope) && d.intent == Ready
      ensures d.fixed
    {
      var es :| Possible(c, es, scope) && Run(c, es, scope) == d;
      FixedFirstRun(c, es, scope);
    }
  }

  /** A mark of Ready that is on its way over no failure gets through. */
  lemma MarkGetsThrough(c: Clone, scope: Scope)
    requires c.up && c.readying && !c.fixed && !IsFailed(c.intent)
    ensures !ReadyImpliesFixed(c, scope)
  {
    Skipped(Next(c, MarkReady(false)), scope);
    Backwards(c, MarkReady(false), scope);
  }

  /** So does a ready wait, once the lease lands. */
  lemma WaitGetsThrough(c: Clone, scope: Scope)
    requires At(c, Resumed, Settling) && c.tracked && !c.asked && !c.fixed && !IsFailed(c.intent)
    ensures !ReadyImpliesFixed(c, scope)
  {
    var d := Next(c, SettleOk(Resumed));
    Skipped(Next(d, LeaseLands(Resumed, false)), scope);
    Backwards(d, LeaseLands(Resumed, false), scope);
    Backwards(c, SettleOk(Resumed), scope);
  }

  /**
   At an unfixed guest, a step keeps Ready to fixed guests, on every later run that takes
   no skipping branch, exactly when it is none itself.
   */
  lemma SkipsExactly(c: Clone, e: Event)
    requires FixedFirst(c) && !c.fixed && Enabled(c, e)
    ensures ReadyImpliesFixed(Next(c, e), Scope(true, true, false)) <==> !Skips(c, e)
  {
    var scope := Scope(true, true, false);
    var d := Next(c, e);
    if !Skips(c, e) {
      FixedFirstStep(c, e);
      FixedFirstIsSafe(d, scope);
    } else if d.readying {
      MarkGetsThrough(d, scope);
    } else if d.intent == Ready {
      Skipped(d, scope);
    } else {
      WaitGetsThrough(d, scope);
    }
  }

  // ---------------------------------------------------------------- exactly which commits are safe

  /** Nothing about an unfixed guest can start a skipping branch. */
  ghost predicate Clean(c: Clone) {
    && FixedFirst(c)
    && (!c.fixed ==>
          && c.marker != Done && !c.asked && !c.hibernating
          && c.life != Ready && c.life != HibernateFailed && c.intent != HibernateFailed)
  }

  lemma CleanStep(c: Clone, e: Event)
    requires Clean(c) && Enabled(c, e) && !e.Ask? && !e.Adopt?
    ensures Clean(Next(c, e))
  {
    FixedFirstStep(c, e);
  }

  lemma {:induction false} CleanRun(c: Clone, es: seq<Event>, scope: Scope)
    requires Clean(c) && !scope.hibernates && !scope.adoptions && Possible(c, es, scope)
    ensures Clean(Run(c, es, scope))
    decreases |es|
  {
    if es != [] {
      CleanStep(c, es[0]);
      CleanRun(Next(c, es[0]), es[1..], scope);
    }
  }

  lemma CleanIsSafe(c: Clone, scope: Scope)
    requires Clean(c) && !scope.hibernates && !scope.adoptions
    ensures ReadyImpliesFixed(c, scope)
  {
    forall d | Leads(c, d, scope) && d.intent == Ready
      ensures d.fixed
    {
      var es :| Possible(c, es, scope) && Run(c, es, scope) == d;
      CleanRun(c, es, scope);
    }
  }

  /** The create publishes, and its fixup runs out of attempts with its failed marker recorded. */
  function RunOut(c: Clone, landed: bool): Clone {
    c.(phase := Past, tracked := true, intent := Failed, seen := Broken, marker := Broken,
       vmid := if landed then ThisVM else c.vmid)
  }

  lemma AttemptsRunOut(c: Clone, scope: Scope)
    requires c.up && c.tasks == map[Created := SettingUp]
    requires !ReadyImpliesFixed(c.(tasks := map[], intent := Failed, seen := Broken, marker := Broken), scope)
    ensures !ReadyImpliesFixed(c, scope)
  {
    var c1 := Next(c, MarkRunning(Created, true));
    assert c1.tasks - {Created} == map[];
    assert Next(c1, ExecExhausted(Created, true)) == c.(tasks := map[], intent := Failed, seen := Broken, marker := Broken);
    Backwards(c1, ExecExhausted(Created, true), scope);
    Backwards(c, MarkRunning(Created, true), scope);
  }

  lemma FixupRunsOut(c: Clone, landed: bool, scope: Scope)
    requires c.up && c.phase == Publishing && c.tasks == map[]
    requires !ReadyImpliesFixed(RunOut(c, landed), scope)
    ensures !ReadyImpliesFixed(c, scope)
  {
    var c1 := Next(c, Publish(landed));
    var c2 := Next(c1, Dispatch);
    AttemptsRunOut(c2, scope);
    Backwards(c1, Dispatch, scope);
    Backwards(c, Publish(landed), scope);
  }

  /** A hibernate that failed is no longer asked for: the update that lifts its failure calls the guest Ready. */
  lemma FailureIsLifted(c: Clone, scope: Scope)
    requires c.up && c.tracked && c.hibernating && !c.fixed && scope.hibernates && scope.skips
    ensures !ReadyImpliesFixed(c, scope)
  {
    var c1 := Next(c, HibernateFails);
    var c2 := Next(c1, Ask(false));
    MarkGetsThrough(Next(c2, Lift), scope);
    Backwards(c2, Lift, scope);
    Backwards(c1, Ask(false), scope);
    Backwards(c, HibernateFails, scope);
  }

  /**
   Whatever the pod carried: the fixup fails, a hibernate is asked for and fails, the
   request is cleared, and the lift of the failure calls the unfixed guest Ready.
   */
  lemma LiftSkipsFixup(life: Life, marker: Marker, vmid: VMID, scope: Scope)
    requires scope.hibernates && scope.skips
    ensures !ReadyImpliesFixed(Committed(life, marker, vmid), scope)
  {
    var c := Committed(life, marker, vmid);
    var c1 := RunOut(c, true);
    var c2 := Next(c1, Ask(true));
    FailureIsLifted(Next(c2, HibernateBegins), scope);
    Backwards(c2, HibernateBegins, scope);
    Backwards(c1, Ask(true), scope);
    FixupRunsOut(c, true, scope);
  }

  /** A VM whose ID was never published is adopted by its name; its failed marker owes nothing, so it is Ready. */
  lemma FailedMarkerIsAdopted(c: Clone, scope: Scope)
    requires !c.up && c.phase == Past && !c.tracked && c.tasks == map[] && !c.asked && !c.fixed
    requires c.vmid != ThisVM && c.marker == Broken && scope.adoptions && scope.skips
    ensures !ReadyImpliesFixed(c, scope)
  {
    var c1 := Next(c, Restart(false, false, true));
    assert c1 == c.(up := true);
    MarkGetsThrough(Next(c1, Adopt(true)), scope);
    Backwards(c1, Adopt(true), scope);
    Backwards(c, Restart(false, false, true), scope);
  }

  /** Whatever the pod carried: the fixup fails, and after a crash the VM is adopted by its name. */
  lemma AdoptionSkipsFixup(life: Life, marker: Marker, vmid: VMID, scope: Scope)
    requires vmid != ThisVM && scope.adoptions && scope.skips
    ensures !ReadyImpliesFixed(Committed(life, marker, vmid), scope)
  {
    var c := Committed(life, marker, vmid);
    var c1 := RunOut(c, false);
    FailedMarkerIsAdopted(Next(c1, Crash), scope);
    Backwards(c1, Crash, scope);
    FixupRunsOut(c, false, scope);
  }

  /** The first run an unpublished commit can take: its VM ID lands and the process crashes. */
  lemma CrashesPublished(c: Clone, scope: Scope)
    requires c.up && c.phase == Publishing
    requires !ReadyImpliesFixed(Stopped(c).(vmid := ThisVM), scope)
    ensures !ReadyImpliesFixed(c, scope)
  {
    var c1 := Next(c, Publish(true));
    assert Next(c1, Crash) == Stopped(c).(vmid := ThisVM);
    Backwards(c1, Crash, scope);
    Backwards(c, Publish(true), scope);
  }

  /** A Ready annotation of an earlier VM, or a hibernate failure of it, is taken for this VM's by the next restart. */
  lemma LeftoverLifeSkipsFixup(life: Life, marker: Marker, vmid: VMID, scope: Scope)
    requires (life == Ready || life == HibernateFailed) && scope.skips
    ensures !ReadyImpliesFixed(Committed(life, marker, vmid), scope)
  {
    var c := Committed(life, marker, vmid);
    var c1 := Stopped(c).(vmid := ThisVM);
    Skipped(Next(c1, Restart(true, true, true)), scope);
    Backwards(c1, Restart(true, true, true), scope);
    CrashesPublished(c, scope);
  }

  /** A done marker of an earlier VM: the next restart owes this VM only a ready wait. */
  lemma LeftoverMarkerSkipsFixup(life: Life, vmid: VMID, scope: Scope)
    requires scope.skips
    ensures !ReadyImpliesFixed(Committed(life, Done, vmid), scope)
  {
    var c := Committed(life, Done, vmid);
    var c1 := Next(c, Flush);
    var c2 := Stopped(c1).(vmid := ThisVM);
    WaitGetsThrough(Next(c2, Restart(true, true, true)), scope);
    Backwards(c2, Restart(true, true, true), scope);
    CrashesPublished(c1, scope);
    Backwards(c, Flush, scope);
  }

  /**
   A clone whose VM ID is not published yet is Ready only after its fixup, through every
   crash, restart and recreate, exactly when no hibernate is asked for, `CreatePod` never
   adopts it, and its pod carries neither a done marker nor a Ready or a hibernate failure
   of an earlier VM.
   */
  lemma FixupIsNeverSkipped(life: Life, marker: Marker, vmid: VMID, hibernates: bool, adoptions: bool)
    requires vmid != ThisVM
    ensures ReadyImpliesFixed(Committed(life, marker, vmid), Scope(hibernates, adoptions, true))
            <==> !hibernates && !adoptions && marker != Done && life != Ready && life != HibernateFailed
  {
    var scope := Scope(hibernates, adoptions, true);
    if hibernates {
      LiftSkipsFixup(life, marker, vmid, scope);
    } else if adoptions {
      AdoptionSkipsFixup(life, marker, vmid, scope);
    } else if life == Ready || life == HibernateFailed {
      LeftoverLifeSkipsFixup(life, marker, vmid, scope);
    } else if marker == Done {
      LeftoverMarkerSkipsFixup(life, vmid, scope);
    } else {
      CleanIsSafe(Committed(life, marker, vmid), scope);
    }
  }

  /**
   A restart resumes a fixup or a ready wait exactly when it finds the VM, no hibernate is
   asked for, the pod is still being created and the fixup has not failed; and the fixup
   itself exactly when it is not marked done either. It resumes a hibernate exactly when
   it finds the VM and one is asked for. A VM it does not find is left to `CreatePod`
   exactly when none is.
   */
  lemma CrashIsResumed(c: Clone, binds: bool, landed: bool, running: bool)
    requires c.up
    ensures var d := Restarted(Stopped(c), binds, landed, running);
            && (Held(d) <==> Found(c, binds) && !c.asked && (c.life == Unset || c.life == Creating) && c.marker != Broken)
            && (At(d, Resumed, SettingUp) <==> Held(d) && c.marker != Done)
            && (d.hibernating <==> Found(c, binds) && c.asked) && (d.tracked <==> Found(c, binds))
            && (Enabled(d, Adopt(true)) <==> !Found(c, binds) && !c.asked)
            && (!Found(c, binds) ==> d.intent == Unset && (c.asked && landed ==> d.vmid == NoVMID))
  {
    if Found(c, binds) {
      var bound := Bound(Stopped(c), if LiftsAtStartup(c, running) then Ready else c.life, landed);
      assert Restarted(Stopped(c), binds, landed, running) == Resume(bound);
    }
  }

  // ---------------------------------------------------------------- a failure stays

  /** What takes a pod out of a failure: another attempt, a newer generation, or a new pod or process. */
  predicate LeavesFailure(c: Clone, e: Event) {
    match e
    case HibernateBegins => true
    case HibernateFails => true
    case Adopt(_) => true
    case Recreate => true
    case Crash => true
    case LeaseLands(_, newer) => newer && c.tracked && !c.asked
    case MarkReady(newer) => newer
    case _ => false
  }

  lemma FailureStays(c: Clone, e: Event)
    requires c.up && c.intent == Failed && Enabled(c, e)
    ensures Next(c, e).intent == Failed <==> !LeavesFailure(c, e)
    ensures !LeavesFailure(c, e) ==> Next(c, e).up
  {
    match e
    case Adopt(landed) => AdoptStartsOver(c, landed);
    case _ =>
  }

  lemma AdoptStartsOver(c: Clone, landed: bool)
    ensures Adopted(c, landed).intent == Creating
  {
    var bound := Bound(c, Creating, landed);
    assert Resume(bound).intent == Creating;
  }

  ghost predicate NeverLeft(c: Clone, es: seq<Event>, scope: Scope)
    requires Possible(c, es, scope)
    decreases |es|
  {
    es == [] || (!LeavesFailure(c, es[0]) && NeverLeft(Next(c, es[0]), es[1..], scope))
  }

  /** A failed fixup is not called Ready by what it or another one still has under way. */
  lemma {:induction false} FailureSticks(c: Clone, es: seq<Event>, scope: Scope)
    requires c.up && c.intent == Failed && Possible(c, es, scope) && NeverLeft(c, es, scope)
    ensures Run(c, es, scope).intent == Failed
    decreases |es|
  {
    if es != [] {
      FailureStays(c, es[0]);
      FailureSticks(Next(c, es[0]), es[1..], scope);
    }
  }

  /** How a fixup ends badly, and what it leaves: a failed pod, and a failed marker if it is the fixup that failed. */
  lemma FixupFails(c: Clone, t: Op, e: Event)
    requires Enabled(c, e) && c.up && c.tracked && !c.asked
    requires (e.ExecExhausted? || e.SettleFails? || e.LeaseTimesOut?) && e.t == t
    ensures var d := Next(c, e);
            && d.intent == Failed && t !in d.tasks
            && (e.LeaseTimesOut? ==> d.marker == c.marker && d.seen == c.seen)
            && (!e.LeaseTimesOut? ==> d.seen == Broken && d.marker == if e.landed then Broken else c.marker)
  {
  }

  /** A settled guest of a failed pod is not waited for. */
  lemma FailedPodIsNotAwaited(c: Clone, t: Op)
    requires At(c, t, Settling)
    ensures t in Next(c, SettleOk(t)).tasks <==> c.intent != Failed && c.intent != HibernateFailed
  {
  }

  /** A failed marker is overwritten by no fixup; only an update, a new process or a new pod reads another. */
  lemma FailedMarkerSticks(c: Clone, e: Event)
    requires c.up && c.seen == Broken && Enabled(c, e)
    ensures var d := Next(c, e);
            && (e.Update? || e.Adopt? ==> d.seen == c.marker)
            && (e.Recreate? ==> d.seen == NoMarker)
            && (!e.Update? && !e.Adopt? && !e.Recreate? ==> d.seen == Broken && (d.marker == c.marker || d.marker == Broken))
  {
  }

  /** Unless a failed one is stuck, a mark that gets through says how far the fixup is. */
  lemma MarkerSaysHowFar(c: Clone, e: Event)
    requires Enabled(c, e) && c.seen != Broken && (e.MarkRunning? || e.MarkDone?) && e.landed
    ensures Next(c, e).marker == if e.MarkRunning? then Running else Done
    ensures Next(c, e).seen == Next(c, e).marker
  {
  }

  /**
   A fixup that ran out of attempts is tried again by the next process exactly when it
   finds the VM, nobody asks for hibernate, and neither its failed marker nor its failure
   had got through to a pod that is still being created.
   */
  lemma FailedFixupIsRetriedExactly(c: Clone, t: Op, landed: bool, flushed: bool, binds: bool, restamped: bool, running: bool)
    requires At(c, t, Executing)
    ensures var failed := Next(c, ExecExhausted(t, landed));
            var last := if flushed then Next(failed, Flush) else failed;
            Held(Restarted(Stopped(last), binds, restamped, running)) <==>
              && Found(c, binds) && !c.asked && !flushed && !landed
              && (c.life == Unset || c.life == Creating) && c.marker != Broken
  {
    var failed := Next(c, ExecExhausted(t, landed));
    CrashIsResumed(if flushed then Next(failed, Flush) else failed, binds, restamped, running);
  }

  // ---------------------------------------------------------------- a fixup that succeeds makes the clone Ready

  /** The guest is fixed, the pod Ready at the apiserver, and the marker done unless a failed one was stuck there. */
  ghost predicate CanFinish(c: Clone, scope: Scope) {
    exists d :: Leads(c, d, scope) && d.life == Ready && d.fixed && (d.marker == Done || d.seen == Broken)
  }

  lemma FinishBackwards(c: Clone, e: Event, scope: Scope)
    requires Allowed(c, e, scope) && CanFinish(Next(c, e), scope)
    ensures CanFinish(c, scope)
  {
    var d :| Leads(Next(c, e), d, scope) && d.life == Ready && d.fixed && (d.marker == Done || d.seen == Broken);
    var es :| Possible(Next(c, e), es, scope) && Run(Next(c, e), es, scope) == d;
    assert ([e] + es)[1..] == es;
    assert Possible(c, [e] + es, scope) && Run(c, [e] + es, scope) == d;
    assert Leads(c, d, scope);
  }

  lemma Finished(c: Clone, scope: Scope)
    requires c.life == Ready && c.fixed && (c.marker == Done || c.seen == Broken)
    ensures CanFinish(c, scope)
  {
    assert Possible(c, [], scope) && Run(c, [], scope) == c;
    assert Leads(c, c, scope);
  }

  /** After the exec: the marker, the SAC pass, the lease, and the flush of Ready. */
  lemma FixedGuestFinishes(c: Clone, t: Op, scope: Scope)
    requires At(c, t, Marking) && c.fixed && c.tracked && !c.asked && !IsFailed(c.intent)
    ensures CanFinish(c, scope)
  {
    var c1 := Next(c, MarkDone(t, true));
    var c2 := Next(c1, SettleOk(t));
    var c3 := Next(c2, LeaseLands(t, false));
    Finished(Next(c3, Flush), scope);
    FinishBackwards(c3, Flush, scope);
    FinishBackwards(c2, LeaseLands(t, false), scope);
    FinishBackwards(c1, SettleOk(t), scope);
    FinishBackwards(c, MarkDone(t, true), scope);
  }

  /** A fixup that is under way, the create's own or a resumed one, can make the clone Ready by taking no other branch. */
  lemma FixupFinishes(c: Clone, t: Op, scope: Scope)
    requires At(c, t, SettingUp) && c.tracked && !c.asked && !IsFailed(c.intent)
    ensures CanFinish(c, scope)
  {
    var c1 := Next(c, MarkRunning(t, true));
    FixedGuestFinishes(Next(c1, ExecOk(t)), t, scope);
    FinishBackwards(c1, ExecOk(t), scope);
    FinishBackwards(c, MarkRunning(t, true), scope);
  }

  /** Whatever the pod carried, a commit that is left alone becomes Ready on a fixed guest. */
  lemma CloneGetsReady(life: Life, marker: Marker, vmid: VMID, scope: Scope)
    ensures CanFinish(Committed(life, marker, vmid), scope)
  {
    var c := Committed(life, marker, vmid);
    var c1 := Next(c, Publish(true));
    FixupFinishes(Next(c1, Dispatch), Created, scope);
    FinishBackwards(c1, Dispatch, scope);
    FinishBackwards(c, Publish(true), scope);
  }

  /** And one that crashed before its fixup was done, wherever it was, after the restart that resumes it. */
  lemma CrashedCloneGetsReady(c: Clone, binds: bool, landed: bool, running: bool, scope: Scope)
    requires c.up && Found(c, binds) && !c.asked && (c.life == Unset || c.life == Creating)
    requires c.marker == NoMarker || c.marker == Running
    ensures CanFinish(c, scope)
  {
    CrashIsResumed(c, binds, landed, running);
    FixupFinishes(Restarted(Stopped(c), binds, landed, running), Resumed, scope);
    FinishBackwards(Stopped(c), Restart(binds, landed, running), scope);
    FinishBackwards(c, Crash, scope);
  }
}
