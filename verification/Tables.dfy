/**
 The in-memory tables of the provider and the effect of each section of code
 that runs under `p.mu` (`provider/cocoon/provider.go`, `lifecycle.go`, and the
 table updates of `create.go`, `update.go` and `reconcile.go`).

 Pod and VM pointers are kept as identities: a pod is a reference into
 `objects`, where several holders may see it change; a VM record carries the
 identity of the Go value it stands for.
 */
module Tables {
  import opened Wrappers

  type Key = string
  type UID = string
  type VMID = string
  type Ref = nat

  datatype LifecycleState = Creating | Ready | Hibernating | Hibernated | Failed

  /** `meta.LifecycleStatus`. Its `Snapshot()` is one-to-one, so the status stands for its own snapshot. */
  datatype Status = Status(state: LifecycleState, gen: int, message: string)

  /** What the tables read of a pod: `status` is what its lifecycle annotations say, if anything. */
  datatype Pod = Pod(key: Key, uid: UID, gen: int, hibernate: bool, status: Option<Status>)

  datatype VM = VM(ref: Ref, id: VMID, name: string)

  /** `lifecycleEntry`; `flushed` is None for the empty string. */
  datatype Intent = Intent(uid: UID, status: Status, flushed: Option<Status>)

  datatype DeleteClaim = Claimed | InFlight | Superseded

  /** Milliseconds. */
  const RESTART_COOLDOWN := 30_000

  const HIBERNATE_FAILURE_PREFIX := "hibernate: "

  datatype Tables = Tables(
    objects: map<Ref, Pod>,
    pods: map<Key, Ref>,
    vmsByPod: map<Key, VM>,
    vmsByName: map<string, VM>,
    lastRestart: map<VMID, int>,
    deleting: set<Key>,
    intents: map<Key, Intent>)
  {
    /** The tracked pod behind a key. */
    function Tracked(key: Key): Option<Pod> {
      if key in pods && pods[key] in objects then Some(objects[pods[key]]) else None
    }

    predicate IsSuperseded(key: Key, uid: UID) {
      Tracked(key).Some? && Tracked(key).value.uid != uid
    }

    function VMFor(key: Key): Option<VM> {
      if key in vmsByPod then Some(vmsByPod[key]) else None
    }

    predicate Owned(key: Key, uid: UID, snap: Status) {
      key in intents && intents[key].uid == uid && intents[key].status == snap
    }

    /** Pods are tracked under their own key. */
    ghost predicate WellFormed() {
      forall key :: key in pods ==> pods[key] in objects && objects[pods[key]].key == key
    }

    // ------------------------------------------------------------ tracking

    /** `status.Apply(pod)`. */
    function Stamp(r: Ref, status: Status): Tables {
      if r in objects then this.(objects := objects[r := objects[r].(status := Some(status))]) else this
    }

    /** `reassertLifecycleLocked`: this incarnation's intent overrides what the pod says; another's is dropped. */
    function Reassert(key: Key, r: Ref): Tables
      requires r in objects
    {
      if key !in intents then this
      else if intents[key].uid != objects[r].uid then this.(intents := intents - {key})
      else Stamp(r, intents[key].status)
    }

    function SetVM(key: Key, v: VM): Tables {
      var t := this.(vmsByPod := vmsByPod[key := v]);
      if v.name != "" then t.(vmsByName := vmsByName[v.name := v]) else t
    }

    /** `trackPodLocked`. */
    function TrackPod(r: Ref, v: Option<VM>): Tables
      requires r in objects
    {
      var key := objects[r].key;
      var t := Reassert(key, r);
      var t := t.(pods := t.pods[key := r]);
      if v.Some? then t.SetVM(key, v.value) else t
    }

    function TrackPodUnlessDeleting(r: Ref, v: Option<VM>): (Tables, bool)
      requires r in objects
    {
      if objects[r].key in deleting then (this, false) else (TrackPod(r, v), true)
    }

    function IndexOrphan(v: VM): Tables {
      if v.name == "" then this else this.(vmsByName := vmsByName[v.name := v])
    }

    function TrackPodIncarnation(r: Ref, v: VM): (Tables, bool)
      requires r in objects
    {
      var key := objects[r].key;
      if key in deleting || IsSuperseded(key, objects[r].uid) then (IndexOrphan(v), false)
      else (TrackPod(r, Some(v)), true)
    }

    function DropVM(key: Key): Tables {
      if key !in vmsByPod then this
      else
        var v := vmsByPod[key];
        var named := v.name in vmsByName && vmsByName[v.name].ref == v.ref;
        this.(lastRestart := lastRestart - {v.id},
              vmsByName := if named then vmsByName - {v.name} else vmsByName,
              vmsByPod := vmsByPod - {key})
    }

    function Untrack(key: Key): Tables {
      var t := DropVM(key);
      t.(pods := t.pods - {key}, intents := t.intents - {key})
    }

    function UntrackIncarnation(key: Key, uid: UID): (Tables, bool) {
      if Tracked(key).None? || Tracked(key).value.uid != uid then (this, false) else (Untrack(key), true)
    }

    function DetachIncarnation(key: Key, uid: UID, v: Option<VM>): (Tables, bool) {
      if key in deleting then (this, false)
      else
        var t := UntrackIncarnation(key, uid).0;
        var bound := t.VMFor(key);
        if v.Some? && (bound.None? || bound.value.name != v.value.name) then (t.IndexOrphan(v.value), true)
        else (t, true)
    }

    /** The table update of `failCreate`. */
    function FailCreate(r: Ref): Tables
      requires r in objects
    {
      if IsSuperseded(objects[r].key, objects[r].uid) then this else this.(pods := pods - {objects[r].key})
    }

    /** `adoptableVM` found the indexed VM gone. */
    function DropIndexed(name: string, existing: VM): Tables {
      if name in vmsByName && vmsByName[name].ref == existing.ref then this.(vmsByName := vmsByName - {name}) else this
    }

    /** `updateTrackedVM`: a changed copy with the same ID and name replaces the record. */
    function UpdateTrackedVM(key: Key, vmID: VMID, copy: Ref): (Tables, bool) {
      if key !in vmsByPod || vmsByPod[key].id != vmID then (this, false)
      else (SetVM(key, vmsByPod[key].(ref := copy)), true)
    }

    // ------------------------------------------------------------ delete claims

    function ClaimDeletingIncarnation(key: Key, uid: UID, vmID: VMID): (Tables, bool) {
      if key in deleting || Tracked(key).None? || Tracked(key).value.uid != uid
         || key !in vmsByPod || vmsByPod[key].id != vmID
      then (this, false)
      else (this.(deleting := deleting + {key}), true)
    }

    function ClaimDeleting(key: Key, uid: UID): (Tables, DeleteClaim) {
      if IsSuperseded(key, uid) then (this, Superseded)
      else if key in deleting then (this, InFlight)
      else (this.(deleting := deleting + {key}), Claimed)
    }

    function FinishDeleting(key: Key): Tables {
      this.(deleting := deleting - {key})
    }

    // ------------------------------------------------------------ restarts

    /** The cooldown section of `handleVMGone`; true means the VM is restarted. */
    function TryRestart(vmID: VMID, now: int): (Tables, bool) {
      if vmID in lastRestart && now - lastRestart[vmID] < RESTART_COOLDOWN then (this, false)
      else (this.(lastRestart := lastRestart[vmID := now]), true)
    }

    function GcStaleRestarts(now: int): Tables {
      this.(lastRestart := map id | id in lastRestart && !(lastRestart[id] < now - 2 * RESTART_COOLDOWN) :: lastRestart[id])
    }

    // ------------------------------------------------------------ lifecycle intent

    /** The status a write would apply, or None when it is dropped (`applyLifecycleLocked`). */
    function Admitted(r: Ref, state: LifecycleState, message: string): Option<Status>
      requires r in objects
    {
      var pod := objects[r];
      var tracked := Tracked(pod.key);
      if tracked.Some? && tracked.value.uid != pod.uid then None
      else
        var gen := if tracked.Some? && pod.gen < tracked.value.gen then tracked.value.gen else pod.gen;
        var hasIntent := pod.key in intents;
        var same := hasIntent && intents[pod.key].uid == pod.uid;
        if hasIntent && !same && tracked.None? then None
        else if same && gen < intents[pod.key].status.gen then None
        else if && same && intents[pod.key].status.state == Failed
                && state != Failed && state != Creating && state != Hibernating
                && gen == intents[pod.key].status.gen then None
        else Some(Status(state, gen, message))
    }

    function ApplyLifecycle(r: Ref, state: LifecycleState, message: string): (Tables, Option<Status>)
      requires r in objects
    {
      var admitted := Admitted(r, state, message);
      if admitted.None? then (this, None)
      else
        var key := objects[r].key;
        var t := this.(intents := intents[key := Intent(objects[r].uid, admitted.value, None)]).Stamp(r, admitted.value);
        (if Tracked(key).Some? && pods[key] != r then t.Stamp(pods[key], admitted.value) else t, admitted)
    }

    /** `setLifecycleStateForWake`: only for the tracked pod's own VM, and not once hibernate is asked for again. */
    function ApplyForWake(r: Ref, wakeVMID: VMID, state: LifecycleState, message: string): (Tables, Option<Status>)
      requires r in objects
    {
      var key := objects[r].key;
      if Tracked(key).None? || Tracked(key).value.hibernate then (this, None)
      else if key !in vmsByPod || vmsByPod[key].id != wakeVMID then (this, None)
      else ApplyLifecycle(r, state, message)
    }

    /** `republishLifecycleOnGenerationBump`. */
    function Republish(r: Ref): (Tables, Option<Status>)
      requires r in objects
    {
      var pod := objects[r];
      if pod.key !in intents || intents[pod.key].uid != pod.uid || pod.gen <= intents[pod.key].status.gen then (this, None)
      else ApplyLifecycle(r, intents[pod.key].status.state, intents[pod.key].status.message)
    }

    /** The closing section of `liftHibernateFailure`. */
    function LiftHibernateFailure(r: Ref): (Tables, Option<Status>)
      requires r in objects
    {
      var pod := objects[r];
      if && pod.key in intents && intents[pod.key].uid == pod.uid && intents[pod.key].status.state == Failed
         && HIBERNATE_FAILURE_PREFIX <= intents[pod.key].status.message && pod.key in vmsByPod
      then ApplyLifecycle(r, Creating, "")
      else (this, None)
    }

    /** `seedLifecycleIntentFromPod`. */
    function Seed(r: Ref): Tables
      requires r in objects
    {
      var pod := objects[r];
      if pod.status.None? then this
      else this.(intents := intents[pod.key := Intent(pod.uid, pod.status.value, Some(pod.status.value))])
    }

    function RecordFlushed(key: Key, uid: UID, snap: Status): Tables {
      if Owned(key, uid, snap) then this.(intents := intents[key := intents[key].(flushed := Some(snap))]) else this
    }

    function DropSuperseded(key: Key, uid: UID, snap: Status): Tables {
      if Owned(key, uid, snap) then this.(intents := intents - {key}) else this
    }

    /** What `reconcileAllLifecycle` picks to flush again. */
    function Drifts(): set<(Key, UID, Status)> {
      set key | key in intents && intents[key].flushed != Some(intents[key].status)
        :: (key, intents[key].uid, intents[key].status)
    }
  }

  const Empty := Tables(map[], map[], map[], map[], map[], {}, map[])
}
