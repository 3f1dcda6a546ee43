/**
 The provider object: its tables as fields, and each section under `p.mu` as a
 method proved to have the effect the runs are built from.
 */
module ProviderObject {
  import opened Wrappers
  import opened Tables
  import opened DeleteFence
  import opened HibernateRollback
  import opened LifecycleRuns
  import Runs = ProviderRuns

  /** Within three attempts, the first answer that is not an error is this one. */
  ghost predicate Decides(answers: seq<Runs.PatchAnswer>, answer: Runs.PatchAnswer) {
    exists k :: 0 <= k < 3 && k < |answers| && answers[k] == answer && answer != Runs.Errored
                && forall j :: 0 <= j < k ==> answers[j] == Runs.Errored
  }

  /** What a section leaves alone: every key but its own, in every table. */
  ghost predicate OnlyKey(t: Tables, t': Tables, key: Key) {
    forall k :: k != key ==> SameAt(t, t', k)
  }

  ghost predicate SameAt(t: Tables, t': Tables, k: Key) {
    && t'.Tracked(k) == t.Tracked(k) && t'.VMFor(k) == t.VMFor(k) && (k in t'.deleting <==> k in t.deleting)
    && (k in t'.intents <==> k in t.intents) && (k in t.intents ==> t'.intents[k] == t.intents[k])
  }

  /** Nothing but the pod's and the tracked pod's annotations and the key's intent changed. */
  lemma ApplyShape(t: Tables, r: Ref, state: LifecycleState, message: string)
    requires t.WellFormed() && r in t.objects
    ensures var (t', own) := (t.ApplyLifecycle(r, state, message).0, t.objects[r].key);
            && t' == t.(objects := t'.objects, intents := t'.intents) && t'.objects.Keys == t.objects.Keys
            && (forall x :: x in t.objects && t.objects[x].key != own ==> t'.objects[x] == t.objects[x])
            && (t'.intents == t.intents || (own in t'.intents && t'.intents == t.intents[own := t'.intents[own]]))
  {
  }

  lemma ApplyIsLocal(t: Tables, r: Ref, state: LifecycleState, message: string)
    requires t.WellFormed() && r in t.objects
    ensures OnlyKey(t, t.ApplyLifecycle(r, state, message).0, t.objects[r].key)
  {
    ApplyShape(t, r, state, message);
    RestampIsLocal(t, t.ApplyLifecycle(r, state, message).0, t.objects[r].key);
  }

  /**
   A write that was applied: the intent of this incarnation, unacknowledged; on the pod
   handed in and on the tracked pod alike; no older than either of them.
   */
  ghost predicate Written(t: Tables, r: Ref, state: LifecycleState, message: string, status: Status) {
    && r in t.objects
    && var pod := t.objects[r];
       && status.state == state && status.message == message && pod.gen <= status.gen && pod.status == Some(status)
       && pod.key in t.intents && t.intents[pod.key] == Intent(pod.uid, status, None)
       && (t.Tracked(pod.key).Some? ==>
             var tracked := t.Tracked(pod.key).value;
             tracked.uid == pod.uid && tracked.gen <= status.gen && tracked.status == Some(status))
  }

  lemma AppliedIsWritten(t: Tables, r: Ref, state: LifecycleState, message: string)
    requires t.WellFormed() && r in t.objects
    ensures var (t', applied) := t.ApplyLifecycle(r, state, message);
            if applied.Some? then Written(t', r, state, message, applied.value) else t' == t
  {
  }

  lemma DetachIsLocal(t: Tables, key: Key, uid: UID, v: Option<VM>)
    ensures OnlyKey(t, t.DetachIncarnation(key, uid, v).0, key)
  {
    DetachShape(t, key, uid, v);
    var t' := t.DetachIncarnation(key, uid, v).0;
    forall k | k != key
      ensures SameAt(t, t', k)
    {
    }
  }

  /** Detached: that incarnation is gone from the key, another one is left alone, and the VM is reachable unless the key binds one of its name. */
  lemma DetachMeans(t: Tables, key: Key, uid: UID, v: Option<VM>)
    requires key !in t.deleting
    ensures var t' := t.DetachIncarnation(key, uid, v).0;
            && (if t.Tracked(key).Some? && t.Tracked(key).value.uid == uid
                then t'.Tracked(key).None? && t'.VMFor(key).None? && key !in t'.intents
                else SameAt(t, t', key))
            && (v.Some? && v.value.name != "" ==>
                  || Reaches(t', key, v.value)
                  || (t'.VMFor(key).Some? && t'.VMFor(key).value.name == v.value.name))
  {
  }

  /** The name index afterwards: without this record's name, and otherwise the same. */
  ghost predicate NamesWithout(t: Tables, t': Tables, key: Key) {
    && (forall name :: name in t'.vmsByName <==>
          && name in t.vmsByName
          && !(key in t.vmsByPod && name == t.vmsByPod[key].name && t.vmsByName[name].ref == t.vmsByPod[key].ref))
    && (forall name :: name in t'.vmsByName ==> t'.vmsByName[name] == t.vmsByName[name])
  }

  lemma DropVMMeans(t: Tables, key: Key)
    ensures NamesWithout(t, t.DropVM(key), key) && OnlyKey(t, t.DropVM(key), key)
  {
  }

  lemma FlushedAgrees(t: Tables, key: Key, uid: UID, snap: Status)
    requires Agreement(t)
    ensures Agreement(t.RecordFlushed(key, uid, snap))
  {
    var t' := t.RecordFlushed(key, uid, snap);
    forall k | k in t'.pods && k in t'.intents
      ensures AgreesAt(t', k)
    {
      assert AgreesAt(t, k);
    }
  }

  lemma SeedAgrees(t: Tables, r: Ref)
    requires Agreement(t) && r in t.objects && (t.objects[r].key in t.pods ==> t.pods[t.objects[r].key] == r)
    ensures Agreement(t.Seed(r)) && OnlyKey(t, t.Seed(r), t.objects[r].key)
  {
    var t' := t.Seed(r);
    forall k
      ensures AgreesAt(t', k)
    {
      assert AgreesAt(t, k);
    }
  }

  lemma RestampIsLocal(t: Tables, t': Tables, own: Key)
    requires t.WellFormed() && t'.deleting == t.deleting && t'.objects.Keys == t.objects.Keys
    requires forall x :: x in t.objects && t.objects[x].key != own ==> t'.objects[x] == t.objects[x]
    requires forall k :: k != own ==> (k in t'.pods <==> k in t.pods) && (k in t.pods ==> t'.pods[k] == t.pods[k])
    requires forall k :: k != own ==> t'.VMFor(k) == t.VMFor(k)
    requires forall k :: k != own ==> (k in t'.intents <==> k in t.intents) && (k in t.intents ==> t'.intents[k] == t.intents[k])
    ensures OnlyKey(t, t', own)
  {
    forall k | k != own
      ensures SameAt(t, t', k)
    {
      assert k in t.pods ==> t.objects[t.pods[k]].key == k;
    }
  }

  lemma TrackPodIsLocal(t: Tables, r: Ref, v: Option<VM>)
    requires t.WellFormed() && r in t.objects
    ensures OnlyKey(t, t.TrackPod(r, v), t.objects[r].key)
  {
    var own := t.objects[r].key;
    Runs.ReassertShape(t, own, r);
    Runs.TrackPodShape(t, r, v);
    TrackedIsLocal(t, t.Reassert(own, r), t.TrackPod(r, v), own, r);
  }

  lemma TrackedIsLocal(t: Tables, a: Tables, t': Tables, own: Key, r: Ref)
    requires t.WellFormed() && r in t.objects && t.objects[r].key == own
    requires a.objects.Keys == t.objects.Keys && a.objects == t.objects[r := a.objects[r]]
    requires a.intents == t.intents || a.intents == t.intents - {own}
    requires t'.objects == a.objects && t'.intents == a.intents && t'.pods == t.pods[own := r] && t'.deleting == t.deleting
    requires t'.vmsByPod == t.vmsByPod || (own in t'.vmsByPod && t'.vmsByPod == t.vmsByPod[own := t'.vmsByPod[own]])
    ensures OnlyKey(t, t', own)
  {
    RestampIsLocal(t, t', own);
  }

  /**
   The pod is tracked under the key, with the VM, and the VM's name, if one is given; an
   intent of its own stays and the pod says what it says, another's is dropped.
   */
  ghost predicate TrackedUnder(t: Tables, t': Tables, key: Key, r: Ref, v: Option<VM>) {
    && r in t'.objects
    && t'.Tracked(key) == Some(t'.objects[r]) && t'.VMFor(key) == (if v.Some? then v else t.VMFor(key))
    && (v.Some? && v.value.name != "" ==> v.value.name in t'.vmsByName && t'.vmsByName[v.value.name] == v.value)
    && (key in t'.intents <==> key in t.intents && t.intents[key].uid == t'.objects[r].uid)
    && (key in t'.intents ==> t'.intents[key] == t.intents[key] && t'.objects[r].status == Some(t'.intents[key].status))
  }

  lemma TrackPodMeans(t: Tables, r: Ref, v: Option<VM>)
    requires t.WellFormed() && r in t.objects
    ensures TrackedUnder(t, t.TrackPod(r, v), t.objects[r].key, r, v)
  {
    Runs.ReassertShape(t, t.objects[r].key, r);
  }

  class Provider {
    var objects: map<Ref, Pod>
    var pods: map<Key, Ref>
    var vmsByPod: map<Key, VM>
    var vmsByName: map<string, VM>
    var lastRestart: map<VMID, int>
    var deleting: set<Key>
    var lifecycleIntent: map<Key, Intent>

    function State(): Tables
      reads this
    {
      Tables(objects, pods, vmsByPod, vmsByName, lastRestart, deleting, lifecycleIntent)
    }

    /** Pods are tracked under their own key, and say what their intents say. */
    ghost predicate Valid()
      reads this
    {
      Agreement(State())
    }

    constructor ()
      ensures State() == Empty && Valid()
    {
      objects, pods, vmsByPod, vmsByName := map[], map[], map[], map[];
      lastRestart, deleting, lifecycleIntent := map[], {}, map[];
    }

    // ------------------------------------------------------------ tracking

    method Stamp(r: Ref, status: Status)
      modifies this`objects
      ensures State() == old(State()).Stamp(r, status)
    {
      if r in objects {
        objects := objects[r := objects[r].(status := Some(status))];
      }
    }

    method ReassertLifecycle(key: Key, r: Ref)
      requires r in objects
      modifies this`objects, this`lifecycleIntent
      ensures State() == old(State()).Reassert(key, r)
    {
      if key !in lifecycleIntent {
        return;
      }
      var cur := lifecycleIntent[key];
      if cur.uid != objects[r].uid {
        lifecycleIntent := lifecycleIntent - {key};
        return;
      }
      Stamp(r, cur.status);
    }

    method SetVM(key: Key, v: VM)
      modifies this`vmsByPod, this`vmsByName
      ensures State() == old(State()).SetVM(key, v)
    {
      vmsByPod := vmsByPod[key := v];
      if v.name != "" {
        vmsByName := vmsByName[v.name := v];
      }
    }

    /** Tracks the pod under its key, with the VM if one is given; its annotations then say what its own intent says. */
    method TrackPod(r: Ref, v: Option<VM>)
      requires Valid() && r in objects
      modifies this
      ensures Valid() && OnlyKey(old(State()), State(), old(objects[r].key))
      ensures TrackedUnder(old(State()), State(), old(objects[r].key), r, v)
      ensures State() == old(State()).TrackPod(r, v)
    {
      TrackPodAgrees(State(), r, v);
      TrackPodIsLocal(State(), r, v);
      TrackPodMeans(State(), r, v);
      var key := objects[r].key;
      ReassertLifecycle(key, r);
      pods := pods[key := r];
      if v.Some? {
        SetVM(key, v.value);
      }
    }

    method TrackPodUnlessDeleting(r: Ref, v: Option<VM>) returns (ok: bool)
      requires Valid() && r in objects
      modifies this
      ensures Valid() && OnlyKey(old(State()), State(), old(objects[r].key))
      ensures ok <==> old(objects[r].key) !in old(deleting)
      ensures if ok then TrackedUnder(old(State()), State(), old(objects[r].key), r, v) else State() == old(State())
      ensures (State(), ok) == old(State()).TrackPodUnlessDeleting(r, v)
    {
      if objects[r].key in deleting {
        return false;
      }
      TrackPod(r, v);
      return true;
    }

    method IndexOrphanByName(v: VM)
      modifies this`vmsByName
      ensures State() == old(State()).IndexOrphan(v)
    {
      if v.name == "" {
        return;
      }
      vmsByName := vmsByName[v.name := v];
    }

    method TrackPodIncarnation(r: Ref, v: VM) returns (ok: bool)
      requires Valid() && r in objects
      modifies this
      ensures Valid() && OnlyKey(old(State()), State(), old(objects[r].key))
      ensures ok <==> old(objects[r].key) !in old(deleting) && !old(State()).IsSuperseded(old(objects[r].key), old(objects[r].uid))
      ensures v.name != "" ==> Reaches(State(), old(objects[r].key), v)
      ensures ok ==> TrackedUnder(old(State()), State(), old(objects[r].key), r, Some(v))
      ensures !ok ==> SameAt(old(State()), State(), old(objects[r].key))
      ensures (State(), ok) == old(State()).TrackPodIncarnation(r, v)
    {
      var key := objects[r].key;
      if key in deleting || State().IsSuperseded(key, objects[r].uid) {
        LessAgrees(State(), State().IndexOrphan(v));
        IndexOrphanByName(v);
        return false;
      }
      TrackPod(r, Some(v));
      return true;
    }

    /** Forgets the key's VM: its binding, its restart stamp, and its name as far as the name is still this record's. */
    method DropVM(key: Key)
      requires Valid()
      modifies this`lastRestart, this`vmsByName, this`vmsByPod
      ensures Valid() && OnlyKey(old(State()), State(), key)
      ensures key !in vmsByPod && (key in old(vmsByPod) ==> old(vmsByPod[key]).id !in lastRestart)
      ensures lastRestart == if key in old(vmsByPod) then old(lastRestart) - {old(vmsByPod[key]).id} else old(lastRestart)
      ensures NamesWithout(old(State()), State(), key)
      ensures State() == old(State()).DropVM(key)
    {
      DropVMIsLess(State(), key);
      DropVMMeans(State(), key);
      LessAgrees(State(), State().DropVM(key));
      if key !in vmsByPod {
        return;
      }
      var v := vmsByPod[key];
      lastRestart := lastRestart - {v.id};
      if v.name in vmsByName && vmsByName[v.name].ref == v.ref {
        vmsByName := vmsByName - {v.name};
      }
      vmsByPod := vmsByPod - {key};
    }

    method Untrack(key: Key)
      requires Valid()
      modifies this
      ensures Valid() && OnlyKey(old(State()), State(), key)
      ensures State().Tracked(key).None? && State().VMFor(key).None? && key !in lifecycleIntent
      ensures State() == old(State()).Untrack(key)
    {
      UntrackIsLess(State(), key);
      LessAgrees(State(), State().Untrack(key));
      DropVM(key);
      pods := pods - {key};
      lifecycleIntent := lifecycleIntent - {key};
    }

    method UntrackIncarnation(key: Key, uid: UID) returns (dropped: bool)
      requires Valid()
      modifies this
      ensures Valid() && OnlyKey(old(State()), State(), key)
      ensures dropped <==> old(State()).Tracked(key).Some? && old(State()).Tracked(key).value.uid == uid
      ensures if dropped then State().Tracked(key).None? && State().VMFor(key).None? && key !in lifecycleIntent
              else State() == old(State())
      ensures (State(), dropped) == old(State()).UntrackIncarnation(key, uid)
    {
      var tracked := State().Tracked(key);
      if tracked.None? || tracked.value.uid != uid {
        return false;
      }
      Untrack(key);
      return true;
    }

    method DetachIncarnation(key: Key, uid: UID, v: Option<VM>) returns (ok: bool)
      requires Valid()
      modifies this
      ensures Valid() && OnlyKey(old(State()), State(), key)
      ensures ok <==> key !in old(deleting)
      ensures !ok ==> State() == old(State())
      ensures ok ==> if old(State()).Tracked(key).Some? && old(State()).Tracked(key).value.uid == uid
                     then State().Tracked(key).None? && State().VMFor(key).None? && key !in lifecycleIntent
                     else SameAt(old(State()), State(), key)
      ensures ok && v.Some? && v.value.name != "" ==>
        || Reaches(State(), key, v.value)
        || (State().VMFor(key).Some? && State().VMFor(key).value.name == v.value.name)
      ensures (State(), ok) == old(State()).DetachIncarnation(key, uid, v)
    {
      DetachIsLess(State(), key, uid, v);
      LessAgrees(State(), State().DetachIncarnation(key, uid, v).0);
      DetachIsLocal(State(), key, uid, v);
      if key !in deleting {
        DetachMeans(State(), key, uid, v);
      }
      if key in deleting {
        return false;
      }
      var _ := UntrackIncarnation(key, uid);
      var bound := State().VMFor(key);
      if v.Some? && (bound.None? || bound.value.name != v.value.name) {
        IndexOrphanByName(v.value);
      }
      return true;
    }

    /** The table update that closes `failCreate`. */
    method FailCreate(r: Ref)
      requires Valid() && r in objects
      modifies this`pods
      ensures Valid() && OnlyKey(old(State()), State(), objects[r].key)
      ensures var was, key := old(State()), objects[r].key;
              if was.IsSuperseded(key, objects[r].uid) then State() == was
              else State().Tracked(key).None? && State().VMFor(key) == was.VMFor(key)
      ensures State() == old(State()).FailCreate(r)
    {
      LessAgrees(State(), State().FailCreate(r));
      var key := objects[r].key;
      if !State().IsSuperseded(key, objects[r].uid) {
        pods := pods - {key};
      }
    }

    method DropIndexed(name: string, existing: VM)
      modifies this`vmsByName
      ensures State() == old(State()).DropIndexed(name, existing)
    {
      if name in vmsByName && vmsByName[name].ref == existing.ref {
        vmsByName := vmsByName - {name};
      }
    }

    /** `copy` is the identity of the changed copy. */
    method UpdateTrackedVM(key: Key, vmID: VMID, copy: Ref) returns (ok: bool)
      requires Valid()
      modifies this`vmsByPod, this`vmsByName
      ensures Valid() && OnlyKey(old(State()), State(), key)
      ensures ok <==> key in old(vmsByPod) && old(vmsByPod[key]).id == vmID
      ensures if ok then key in vmsByPod && vmsByPod[key] == VM(copy, vmID, old(vmsByPod[key]).name) else State() == old(State())
      ensures ok && vmsByPod[key].name != "" ==> vmsByPod[key].name in vmsByName && vmsByName[vmsByPod[key].name] == vmsByPod[key]
      ensures (State(), ok) == old(State()).UpdateTrackedVM(key, vmID, copy)
    {
      UpdateVMIsLess(State(), key, vmID, copy);
      LessAgrees(State(), State().UpdateTrackedVM(key, vmID, copy).0);
      if key !in vmsByPod || vmsByPod[key].id != vmID {
        return false;
      }
      SetVM(key, vmsByPod[key].(ref := copy));
      return true;
    }

    // ------------------------------------------------------------ delete claims

    method ClaimDeletingIncarnation(key: Key, uid: UID, vmID: VMID) returns (ok: bool)
      requires Valid()
      modifies this`deleting
      ensures Valid() && deleting == old(deleting) + (if ok then {key} else {})
      ensures ok <==>
        && key !in old(deleting) && State().Tracked(key).Some? && State().Tracked(key).value.uid == uid
        && State().VMFor(key).Some? && State().VMFor(key).value.id == vmID
      ensures (State(), ok) == old(State()).ClaimDeletingIncarnation(key, uid, vmID)
    {
      LessAgrees(State(), State().(deleting := deleting + {key}));
      if key in deleting {
        return false;
      }
      var tracked := State().Tracked(key);
      if tracked.None? || tracked.value.uid != uid || key !in vmsByPod || vmsByPod[key].id != vmID {
        return false;
      }
      deleting := deleting + {key};
      return true;
    }

    method ClaimDeleting(key: Key, uid: UID) returns (claim: DeleteClaim)
      requires Valid()
      modifies this`deleting
      ensures Valid() && deleting == old(deleting) + (if claim == Claimed then {key} else {})
      ensures claim == Superseded <==> State().Tracked(key).Some? && State().Tracked(key).value.uid != uid
      ensures claim == Claimed ==> key !in old(deleting)
      ensures claim == InFlight ==> key in old(deleting)
      ensures (State(), claim) == old(State()).ClaimDeleting(key, uid)
    {
      LessAgrees(State(), State().(deleting := deleting + {key}));
      if State().IsSuperseded(key, uid) {
        return Superseded;
      }
      if key in deleting {
        return InFlight;
      }
      deleting := deleting + {key};
      return Claimed;
    }

    method FinishDeleting(key: Key)
      modifies this`deleting
      ensures State() == old(State()).FinishDeleting(key)
    {
      deleting := deleting - {key};
    }

    // ------------------------------------------------------------ restarts

    method TryRestart(vmID: VMID, now: int) returns (elapsed: bool)
      modifies this`lastRestart
      ensures elapsed <==> vmID !in old(lastRestart) || old(lastRestart[vmID]) + 30_000 <= now
      ensures elapsed ==> vmID in lastRestart && forall later :: now <= later < now + 30_000 ==> !State().TryRestart(vmID, later).1
      ensures !elapsed ==> State() == old(State())
      ensures (State(), elapsed) == old(State()).TryRestart(vmID, now)
    {
      elapsed := vmID !in lastRestart || now - lastRestart[vmID] >= RESTART_COOLDOWN;
      if elapsed {
        lastRestart := lastRestart[vmID := now];
      }
    }

    /** `maps.DeleteFunc`: visits every entry once, in no set order. */
    method GcStaleRestarts(now: int)
      modifies this`lastRestart
      ensures forall id :: id in lastRestart <==> id in old(lastRestart) && now - 60_000 <= old(lastRestart)[id]
      ensures forall id :: id in lastRestart ==> lastRestart[id] == old(lastRestart)[id]
      ensures State() == old(State()).GcStaleRestarts(now)
    {
      var cutoff := now - RESTART_COOLDOWN * 2;
      var todo := lastRestart.Keys;
      while todo != {}
        invariant todo <= lastRestart.Keys <= old(lastRestart).Keys
        invariant forall id :: id in lastRestart ==> lastRestart[id] == old(lastRestart)[id]
        invariant forall id :: id in old(lastRestart) && id !in todo ==>
          (id in lastRestart <==> !(old(lastRestart)[id] < cutoff))
        decreases |todo|
      {
        var id :| id in todo;
        todo := todo - {id};
        if lastRestart[id] < cutoff {
          lastRestart := lastRestart - {id};
        }
      }
    }

    // ------------------------------------------------------------ lifecycle intent

    /** The tests of a lifecycle write: the status it would leave, or none when it is refused. */
    method Admit(r: Ref, state: LifecycleState, message: string) returns (admitted: Option<Status>)
      requires r in objects
      ensures admitted == if IsDropped(State(), r, state) then None else Some(Status(state, WriteGen(State(), r), message))
      ensures admitted == State().Admitted(r, state, message)
    {
      AdmittedExactly(State(), r, state, message);
      var pod := objects[r];
      var key := pod.key;
      var tracked := State().Tracked(key);
      var status := Status(state, pod.gen, message);
      if tracked.Some? {
        if tracked.value.uid != pod.uid {
          return None;
        }
        status := status.(gen := if pod.gen < tracked.value.gen then tracked.value.gen else pod.gen);
      }
      var hasIntent := key in lifecycleIntent;
      var sameIncarnation := hasIntent && lifecycleIntent[key].uid == pod.uid;
      if hasIntent && !sameIncarnation && tracked.None? {
        return None;
      }
      if sameIncarnation && status.gen < lifecycleIntent[key].status.gen {
        return None;
      }
      if && sameIncarnation && lifecycleIntent[key].status.state == Failed
         && state != Failed && state != Creating && state != Hibernating
         && status.gen == lifecycleIntent[key].status.gen {
        return None;
      }
      return Some(status);
    }

    method ApplyLifecycle(r: Ref, state: LifecycleState, message: string) returns (applied: Option<Status>)
      requires Valid() && r in objects
      modifies this`objects, this`lifecycleIntent
      ensures Valid() && OnlyKey(old(State()), State(), old(objects[r].key))
      ensures applied.None? ==> State() == old(State())
      ensures applied.None? <==> IsDropped(old(State()), r, state)
      ensures applied.Some? ==> Written(State(), r, state, message, applied.value) && applied.value.gen == WriteGen(old(State()), r)
      ensures (State(), applied) == old(State()).ApplyLifecycle(r, state, message)
    {
      ApplyAgrees(State(), r, state, message);
      ApplyIsLocal(State(), r, state, message);
      AppliedIsWritten(State(), r, state, message);
      applied := Admit(r, state, message);
      if applied.None? {
        return;
      }
      var key, status := objects[r].key, applied.value;
      var tracked := State().Tracked(key);
      lifecycleIntent := lifecycleIntent[key := Intent(objects[r].uid, status, None)];
      Stamp(r, status);
      if tracked.Some? && pods[key] != r {
        Stamp(pods[key], status);
      }
    }

    method SetLifecycleStateForWake(r: Ref, wakeVMID: VMID, state: LifecycleState, message: string)
      returns (applied: Option<Status>)
      requires Valid() && r in objects
      modifies this`objects, this`lifecycleIntent
      ensures Valid() && OnlyKey(old(State()), State(), old(objects[r].key))
      ensures applied.None? ==> State() == old(State())
      ensures var was, key := old(State()), old(objects[r].key);
              applied.Some? <==>
                && was.VMFor(key).Some? && was.VMFor(key).value.id == wakeVMID
                && was.Tracked(key).Some? && !was.Tracked(key).value.hibernate && !IsDropped(was, r, state)
      ensures applied.Some? ==> Written(State(), r, state, message, applied.value)
      ensures (State(), applied) == old(State()).ApplyForWake(r, wakeVMID, state, message)
    {
      var key := objects[r].key;
      var tracked := State().Tracked(key);
      if tracked.None? || tracked.value.hibernate {
        return None;
      }
      if key !in vmsByPod || vmsByPod[key].id != wakeVMID {
        return None;
      }
      applied := ApplyLifecycle(r, state, message);
    }

    method RepublishOnGenerationBump(r: Ref) returns (applied: Option<Status>)
      requires Valid() && r in objects
      modifies this`objects, this`lifecycleIntent
      ensures Valid() && OnlyKey(old(State()), State(), old(objects[r].key))
      ensures applied.None? ==> State() == old(State())
      ensures var was, pod := old(State()), old(objects[r]);
              && (applied.Some? <==>
                    && HasOwnIntent(was, r) && was.intents[pod.key].status.gen < pod.gen
                    && !(was.Tracked(pod.key).Some? && was.Tracked(pod.key).value.uid != pod.uid))
              && (applied.Some? ==>
                    var cur := was.intents[pod.key].status;
                    Written(State(), r, cur.state, cur.message, applied.value) && cur.gen < applied.value.gen)
      ensures (State(), applied) == old(State()).Republish(r)
    {
      var pod := objects[r];
      if pod.key !in lifecycleIntent {
        return None;
      }
      var cur := lifecycleIntent[pod.key];
      if cur.uid != pod.uid || pod.gen <= cur.status.gen {
        return None;
      }
      applied := ApplyLifecycle(r, cur.status.state, cur.status.message);
    }

    /** The section of `liftHibernateFailure` that follows the live inspect. */
    method LiftHibernateFailure(r: Ref) returns (applied: Option<Status>)
      requires Valid() && r in objects
      modifies this`objects, this`lifecycleIntent
      ensures Valid() && OnlyKey(old(State()), State(), old(objects[r].key))
      ensures applied.None? ==> State() == old(State())
      ensures var was, pod := old(State()), old(objects[r]);
              applied.Some? <==>
                && was.VMFor(pod.key).Some? && HasOwnIntent(was, r) && was.intents[pod.key].status.state == Failed
                && "hibernate: " <= was.intents[pod.key].status.message && was.intents[pod.key].status.gen <= WriteGen(was, r)
                && !(was.Tracked(pod.key).Some? && was.Tracked(pod.key).value.uid != pod.uid)
      ensures applied.Some? ==> Written(State(), r, Creating, "", applied.value)
      ensures (State(), applied) == old(State()).LiftHibernateFailure(r)
    {
      var pod := objects[r];
      if pod.key !in lifecycleIntent || pod.key !in vmsByPod {
        return None;
      }
      var cur := lifecycleIntent[pod.key];
      if cur.uid != pod.uid || cur.status.state != Failed || !(HIBERNATE_FAILURE_PREFIX <= cur.status.message) {
        return None;
      }
      applied := ApplyLifecycle(r, Creating, "");
    }

    /** Startup takes what the pod's annotations say for its acknowledged intent; a pod without any leaves all as it was. */
    method SeedLifecycleIntent(r: Ref)
      requires Valid() && r in objects && (objects[r].key in pods ==> pods[objects[r].key] == r)
      modifies this`lifecycleIntent
      ensures Valid() && OnlyKey(old(State()), State(), objects[r].key)
      ensures objects[r].status.Some? ==>
                var pod := objects[r];
                State().Owned(pod.key, pod.uid, pod.status.value) && (pod.key, pod.uid, pod.status.value) !in State().Drifts()
      ensures objects[r].status.None? ==> State() == old(State())
      ensures State() == old(State()).Seed(r)
    {
      SeedAgrees(State(), r);
      var pod := objects[r];
      if pod.status.None? {
        return;
      }
      lifecycleIntent := lifecycleIntent[pod.key := Intent(pod.uid, pod.status.value, Some(pod.status.value))];
    }

    method RecordLifecycleFlushed(key: Key, uid: UID, snap: Status)
      requires Valid()
      modifies this`lifecycleIntent
      ensures Valid() && OnlyKey(old(State()), State(), key)
      ensures old(State()).Owned(key, uid, snap) ==> State().Owned(key, uid, snap) && (key, uid, snap) !in State().Drifts()
      ensures !old(State()).Owned(key, uid, snap) ==> State() == old(State())
      ensures State() == old(State()).RecordFlushed(key, uid, snap)
    {
      FlushedAgrees(State(), key, uid, snap);
      if !State().Owned(key, uid, snap) {
        return;
      }
      lifecycleIntent := lifecycleIntent[key := lifecycleIntent[key].(flushed := Some(snap))];
    }

    method DropSupersededLifecycle(key: Key, uid: UID, snap: Status)
      requires Valid()
      modifies this`lifecycleIntent
      ensures Valid() && OnlyKey(old(State()), State(), key)
      ensures old(State()).Owned(key, uid, snap) ==> key !in lifecycleIntent
      ensures !old(State()).Owned(key, uid, snap) ==> State() == old(State())
      ensures State() == old(State()).DropSuperseded(key, uid, snap)
    {
      LessAgrees(State(), State().DropSuperseded(key, uid, snap));
      if !State().Owned(key, uid, snap) {
        return;
      }
      lifecycleIntent := lifecycleIntent - {key};
    }

    /**
     `flushLifecycle` with nothing else touching the entry meanwhile: the first answer
     that is not an error decides. A shorter `answers` is a context that ended in the sleep.
     */
    method FlushLifecycle(key: Key, uid: UID, status: Status, answers: seq<Runs.PatchAnswer>)
      requires Valid()
      modifies this`lifecycleIntent
      ensures Valid() && OnlyKey(old(State()), State(), key)
      ensures Decides(answers, Runs.Accepted) ==> State() == old(State()).RecordFlushed(key, uid, status)
      ensures Decides(answers, Runs.Refused) ==> State() == old(State()).DropSuperseded(key, uid, status)
      ensures !Decides(answers, Runs.Accepted) && !Decides(answers, Runs.Refused) ==> State() == old(State())
    {
      for attempt := 0 to Runs.LIFECYCLE_PATCH_ATTEMPTS
        invariant State() == old(State())
        invariant forall j :: 0 <= j < attempt ==> j < |answers| && answers[j] == Runs.Errored
      {
        if !State().Owned(key, uid, status) || attempt >= |answers| {
          return;
        }
        match answers[attempt]
        case Accepted =>
          RecordLifecycleFlushed(key, uid, status);
          return;
        case Refused =>
          DropSupersededLifecycle(key, uid, status);
          return;
        case Errored =>
      }
    }

    /** The reconciler's pass over the intents, in no set order: exactly the unacknowledged ones, each once. */
    method CollectDrifts() returns (drifts: seq<(Key, UID, Status)>)
      ensures forall d :: d in drifts <==> d in State().Drifts()
      ensures forall i, j :: 0 <= i < j < |drifts| ==> drifts[i].0 != drifts[j].0
    {
      drifts := [];
      var todo := lifecycleIntent.Keys;
      while todo != {}
        invariant todo <= lifecycleIntent.Keys
        invariant forall d :: d in drifts <==> d in State().Drifts() && d.0 !in todo
        invariant forall i, j :: 0 <= i < j < |drifts| ==> drifts[i].0 != drifts[j].0
        decreases |todo|
      {
        var key :| key in todo;
        todo := todo - {key};
        var intent := lifecycleIntent[key];
        if intent.flushed == Some(intent.status) {
          continue;
        }
        assert (key, intent.uid, intent.status) in State().Drifts();
        drifts := drifts + [(key, intent.uid, intent.status)];
      }
    }
  }
}
