/**
 Startup reconcile: which VM each pod adopts and what happens to every other
 listed VM (`StartupReconcile`, `reconcileStaleCreates`,
 `classifySettledCreate`, `handleOrphan`).
 */
module StartupReconcile {
  import opened Wrappers

  type VMID = string
  type Key = string

  datatype VMState = Running | Creating | Created | Stopped

  datatype VMRec = VMRec(id: VMID, name: string, state: VMState)

  /** A pod on the node that is not os=macos: its VM name and its VMID annotation, "" when unset. */
  datatype PodRec = PodRec(key: Key, vmName: string, managed: bool, vmID: VMID)

  /** The answer of the reclaim verb on a creating placeholder. */
  datatype Verb = VerbError | NotCreating | Busy | Collected | VerbNotFound

  datatype Inspect = InspectNotFound | InspectError | Inspected(name: string, state: VMState)

  /** What the runtime answers, and whether binding a pod to a VM adopted by name succeeds. */
  datatype Answers = Answers(verb: VMID -> Verb, inspect: VMID -> Inspect, binds: Key -> bool)

  /** How a listed VM leaves the stale-create pass. */
  datatype Settled = Keep(rec: VMRec) | Watch | Reclaimed | Orphan

  /** `classifySettledCreate`. */
  function Classify(id: VMID, a: Inspect): Settled {
    match a
    case InspectNotFound => Reclaimed
    case InspectError => Watch
    case Inspected(name, state) =>
      match state
      case Running => Keep(VMRec(id, name, Running))
      case Creating => Watch
      case Created => Watch
      case Stopped => Orphan
  }

  function Settle(v: VMRec, a: Answers): Settled {
    if v.state != Creating then Keep(v)
    else
      match a.verb(v.id)
      case VerbError => Watch
      case NotCreating => Classify(v.id, a.inspect(v.id))
      case Busy => Watch
      case Collected => Reclaimed
      case VerbNotFound => Reclaimed
  }

  // ---------------------------------------------------------------- what the answers mean for a listed VM

  /** A placeholder the verb found past creating, and the inspect found stopped. */
  predicate StoppedEarly(v: VMRec, a: Answers) {
    v.state == Creating && a.verb(v.id) == NotCreating && a.inspect(v.id).Inspected? && a.inspect(v.id).state == Stopped
  }

  /** A placeholder whose create may still be at work: the verb erred or was busy, or the inspect did not settle it. */
  predicate MayStillCommit(v: VMRec, a: Answers) {
    && v.state == Creating
    && (|| a.verb(v.id) == VerbError || a.verb(v.id) == Busy
        || (&& a.verb(v.id) == NotCreating
            && (|| a.inspect(v.id).InspectError?
                || (a.inspect(v.id).Inspected? && (a.inspect(v.id).state == Creating || a.inspect(v.id).state == Created)))))
  }

  /** A placeholder the verb collected or did not find, or the inspect did not find. */
  predicate IsGone(v: VMRec, a: Answers) {
    && v.state == Creating
    && (|| a.verb(v.id) == Collected || a.verb(v.id) == VerbNotFound
        || (a.verb(v.id) == NotCreating && a.inspect(v.id).InspectNotFound?))
  }

  /** The VM is left standing with this record: it was no placeholder, or it runs by now. */
  predicate Stands(v: VMRec, a: Answers, rec: VMRec) {
    if v.state != Creating then rec == v
    else rec.id == v.id && rec.state == Running && a.verb(v.id) == NotCreating && a.inspect(v.id) == Inspected(rec.name, Running)
  }

  predicate SettlesAs(v: VMRec, a: Answers, how: Settled) {
    match how
    case Keep(rec) => Stands(v, a, rec)
    case Watch => MayStillCommit(v, a)
    case Reclaimed => IsGone(v, a)
    case Orphan => StoppedEarly(v, a)
  }

  /** How a listed VM leaves the stale-create pass, from its record and the answers alone. */
  lemma SettleExactly(v: VMRec, a: Answers)
    ensures forall how :: Settle(v, a) == how <==> SettlesAs(v, a, how)
  {
    forall how
      ensures Settle(v, a) == how <==> SettlesAs(v, a, how)
    {
    }
  }

  predicate DistinctIDs(vms: seq<VMRec>) {
    forall i, j :: 0 <= i < j < |vms| ==> vms[i].id != vms[j].id
  }

  predicate NoRepeats(ids: seq<VMID>) {
    forall i, j :: 0 <= i < j < |ids| ==> ids[i] != ids[j]
  }

  ghost predicate SettledAs(vms: seq<VMRec>, a: Answers, upto: nat, id: VMID, how: Settled)
    requires upto <= |vms|
  {
    exists i :: 0 <= i < upto && vms[i].id == id && SettlesAs(vms[i], a, how)
  }

  ghost predicate KeptFrom(vms: seq<VMRec>, a: Answers, upto: nat, rec: VMRec)
    requires upto <= |vms|
  {
    exists i :: 0 <= i < upto && Stands(vms[i], a, rec)
  }

  /** A settled VM keeps its ID. */
  lemma SettleKeepsID(v: VMRec, a: Answers)
    ensures Settle(v, a).Keep? ==> Settle(v, a).rec.id == v.id
  {
  }

  /** With distinct IDs, what settled before VM i was about other VMs. */
  lemma SettledEarlier(vms: seq<VMRec>, a: Answers, i: nat, how: Settled)
    requires DistinctIDs(vms) && i < |vms|
    ensures !SettledAs(vms, a, i, vms[i].id, how)
    ensures forall rec :: KeptFrom(vms, a, i, rec) ==> rec.id != vms[i].id
  {
    forall rec | KeptFrom(vms, a, i, rec)
      ensures rec.id != vms[i].id
    {
      var m :| 0 <= m < i && Stands(vms[m], a, rec);
    }
  }

  /** One VM more settles in the one way its record and the answers say. */
  lemma SettledNext(vms: seq<VMRec>, a: Answers, i: nat)
    requires i < |vms|
    ensures forall id, how ::
      SettledAs(vms, a, i + 1, id, how) <==> SettledAs(vms, a, i, id, how) || (id == vms[i].id && how == Settle(vms[i], a))
    ensures forall rec :: KeptFrom(vms, a, i + 1, rec) <==> KeptFrom(vms, a, i, rec) || Settle(vms[i], a) == Keep(rec)
  {
    SettleExactly(vms[i], a);
    forall id, how
      ensures SettledAs(vms, a, i + 1, id, how) <==> SettledAs(vms, a, i, id, how) || (id == vms[i].id && how == Settle(vms[i], a))
    {
      assert SettlesAs(vms[i], a, how) <==> Settle(vms[i], a) == how;
    }
    forall rec
      ensures KeptFrom(vms, a, i + 1, rec) <==> KeptFrom(vms, a, i, rec) || Settle(vms[i], a) == Keep(rec)
    {
      assert Stands(vms[i], a, rec) <==> SettlesAs(vms[i], a, Keep(rec));
    }
  }

  /** Strips the creating placeholders; terminal ones go to the orphan policy here. */
  method ReconcileStaleCreates(vms: seq<VMRec>, a: Answers)
    returns (kept: seq<VMRec>, orphans: seq<VMID>, watched: set<VMID>, gone: set<VMID>)
    requires DistinctIDs(vms)
    ensures DistinctIDs(kept) && NoRepeats(orphans) && StaleOutcome(vms, a, kept, orphans, watched, gone)
  {
    kept, orphans, watched, gone := [], [], {}, {};
    for i := 0 to |vms|
      invariant DistinctIDs(kept) && NoRepeats(orphans)
      invariant forall rec :: rec in kept <==> KeptFrom(vms, a, i, rec)
      invariant forall id :: id in orphans <==> SettledAs(vms, a, i, id, Orphan)
      invariant forall id :: id in watched <==> SettledAs(vms, a, i, id, Watch)
      invariant forall id :: id in gone <==> SettledAs(vms, a, i, id, Reclaimed)
    {
      var v := vms[i];
      SettledNext(vms, a, i);
      SettledEarlier(vms, a, i, Orphan);
      assert v.id !in orphans;
      assert forall j :: 0 <= j < |kept| ==> kept[j] in kept;
      SettleKeepsID(v, a);
      match Settle(v, a) {
        case Keep(rec) => kept := kept + [rec];
        case Watch => watched := watched + {v.id};
        case Reclaimed => gone := gone + {v.id};
        case Orphan => orphans := orphans + [v.id];
      }
    }
  }

  function ByID(kept: seq<VMRec>): map<VMID, VMRec>
    decreases |kept|
  {
    if kept == [] then map[] else ByID(kept[..|kept| - 1])[kept[|kept| - 1].id := kept[|kept| - 1]]
  }

  function ByName(kept: seq<VMRec>): map<string, VMRec>
    decreases |kept|
  {
    if kept == [] then map[]
    else
      var last := kept[|kept| - 1];
      if last.name == "" then ByName(kept[..|kept| - 1]) else ByName(kept[..|kept| - 1])[last.name := last]
  }

  lemma {:induction false} TablesIndexKept(kept: seq<VMRec>)
    ensures IndexesKept(kept, ByID(kept), ByName(kept))
    decreases |kept|
  {
    if kept != [] {
      var init, last := kept[..|kept| - 1], kept[|kept| - 1];
      TablesIndexKept(init);
      assert forall rec :: rec in kept <==> rec in init || rec == last;
    }
  }

  /** No later VM bears the name. */
  ghost predicate LastOfName(kept: seq<VMRec>, i: nat)
    requires i < |kept|
  {
    kept[i].name != "" && forall j :: i < j < |kept| ==> kept[j].name != kept[i].name
  }

  lemma {:induction false} LastOfNameWins(kept: seq<VMRec>, i: nat)
    requires i < |kept| && LastOfName(kept, i)
    ensures kept[i].name in ByName(kept) && ByName(kept)[kept[i].name] == kept[i]
    decreases |kept|
  {
    if i < |kept| - 1 {
      LastOfNameWins(kept[..|kept| - 1], i);
    }
  }

  /** The lookup tables of the kept VMs; the last VM of a name wins. */
  method IndexVMs(kept: seq<VMRec>) returns (byID: map<VMID, VMRec>, byName: map<string, VMRec>)
    ensures IndexesKept(kept, byID, byName)
    ensures forall i :: 0 <= i < |kept| && LastOfName(kept, i) ==> kept[i].name in byName && byName[kept[i].name] == kept[i]
  {
    byID, byName := map[], map[];
    for i := 0 to |kept|
      invariant byID == ByID(kept[..i]) && byName == ByName(kept[..i])
    {
      assert kept[..i + 1][..i] == kept[..i];
      byID := byID[kept[i].id := kept[i]];
      if kept[i].name != "" {
        byName := byName[kept[i].name := kept[i]];
      }
    }
    assert kept[..|kept|] == kept;
    TablesIndexKept(kept);
    forall i | 0 <= i < |kept| && LastOfName(kept, i)
      ensures kept[i].name in byName && byName[kept[i].name] == kept[i]
    {
      LastOfNameWins(kept, i);
    }
  }

  /** The VM a pod is tracked with, if any. */
  function Match(p: PodRec, byID: map<VMID, VMRec>, byName: map<string, VMRec>, a: Answers): Option<VMID> {
    if !p.managed && p.vmID != "" then Some(p.vmID)
    else if p.vmID == "" then
      if p.vmName != "" && p.vmName in byName && a.binds(p.key) then Some(byName[p.vmName].id) else None
    else if p.vmID in byID then Some(p.vmID)
    else None
  }

  ghost predicate MatchedBy(pods: seq<PodRec>, upto: nat, byID: map<VMID, VMRec>, byName: map<string, VMRec>, a: Answers, id: VMID)
    requires upto <= |pods|
  {
    exists i :: 0 <= i < upto && Match(pods[i], byID, byName, a) == Some(id)
  }

  predicate DistinctKeys(pods: seq<PodRec>) {
    forall i, j :: 0 <= i < j < |pods| ==> pods[i].key != pods[j].key
  }

  /** Walks the pods once; `tracked` is what the tables bind afterwards. */
  method MatchPods(pods: seq<PodRec>, byID: map<VMID, VMRec>, byName: map<string, VMRec>, a: Answers)
    returns (tracked: map<Key, VMID>, matched: set<VMID>)
    requires DistinctKeys(pods)
    ensures TracksMatches(pods, byID, byName, a, tracked, matched)
  {
    tracked, matched := map[], {};
    for i := 0 to |pods|
      invariant forall j :: 0 <= j < i ==>
        var m := Match(pods[j], byID, byName, a);
        (pods[j].key in tracked <==> m.Some?) && (m.Some? ==> tracked[pods[j].key] == m.value)
      invariant forall key :: key in tracked ==> exists j :: 0 <= j < i && pods[j].key == key
      invariant forall id :: id in matched <==> MatchedBy(pods, i, byID, byName, a, id)
    {
      var p := pods[i];
      assert p.key !in tracked;
      if !p.managed && p.vmID != "" {
        tracked := tracked[p.key := p.vmID];
        matched := matched + {p.vmID};
        continue;
      }
      if p.vmID == "" {
        if p.vmName != "" && p.vmName in byName && a.binds(p.key) {
          tracked := tracked[p.key := byName[p.vmName].id];
          matched := matched + {byName[p.vmName].id};
        }
        continue;
      }
      if p.vmID !in byID {
        continue;
      }
      tracked := tracked[p.key := p.vmID];
      matched := matched + {p.vmID};
    }
  }

  /** What the stale-create pass leaves. */
  ghost predicate StaleOutcome(vms: seq<VMRec>, a: Answers, kept: seq<VMRec>, terminal: seq<VMID>,
                               watched: set<VMID>, gone: set<VMID>)
  {
    && (forall rec :: rec in kept <==> KeptFrom(vms, a, |vms|, rec))
    && (forall id :: id in terminal <==> SettledAs(vms, a, |vms|, id, Orphan))
    && (forall id :: id in watched <==> SettledAs(vms, a, |vms|, id, Watch))
    && (forall id :: id in gone <==> SettledAs(vms, a, |vms|, id, Reclaimed))
  }

  /** With distinct IDs a listed VM settles in one way only. */
  lemma SettledOnce(vms: seq<VMRec>, a: Answers, i: nat, how: Settled)
    requires DistinctIDs(vms) && i < |vms|
    ensures SettledAs(vms, a, |vms|, vms[i].id, how) <==> SettlesAs(vms[i], a, how)
    ensures forall rec :: KeptFrom(vms, a, |vms|, rec) && rec.id == vms[i].id ==> Stands(vms[i], a, rec)
  {
    forall rec | KeptFrom(vms, a, |vms|, rec) && rec.id == vms[i].id
      ensures Stands(vms[i], a, rec)
    {
      var m :| 0 <= m < |vms| && Stands(vms[m], a, rec);
    }
  }

  ghost predicate OrphansAre(orphans: seq<VMID>, terminal: seq<VMID>, kept: seq<VMRec>, matched: set<VMID>) {
    forall id :: id in orphans <==> id in terminal || (exists rec :: rec in kept && rec.id == id && id !in matched)
  }

  /** An unmanaged pod's annotation names the VM. */
  ghost predicate Annotated(pods: seq<PodRec>, id: VMID) {
    exists i :: 0 <= i < |pods| && !pods[i].managed && pods[i].vmID != "" && pods[i].vmID == id
  }

  /**
   The four ends a listed VM can come to, as sets of IDs, each from its record and the
   answers: a watcher waits for it, it is gone, it met the orphan policy, some pod is
   tracked with it. Every VM comes to one; the first three exclude each other; and a
   tracked VM is also in one of them exactly when an unmanaged pod's annotation names a
   placeholder that settled that way.
   */
  ghost predicate Sorted(v: VMRec, a: Answers, pods: seq<PodRec>, matched: set<VMID>, orphans: seq<VMID>,
                         watched: set<VMID>, gone: set<VMID>)
  {
    && (v.id in watched <==> MayStillCommit(v, a))
    && (v.id in gone <==> IsGone(v, a))
    && (v.id in orphans <==> StoppedEarly(v, a) || (v.id !in matched && exists rec :: Stands(v, a, rec)))
    && (v.id in matched || v.id in orphans || v.id in watched || v.id in gone)
    && !(v.id in orphans && v.id in watched) && !(v.id in orphans && v.id in gone) && !(v.id in watched && v.id in gone)
    && (v.id in matched && v.id in orphans <==> Annotated(pods, v.id) && StoppedEarly(v, a))
    && (v.id in matched && v.id in watched <==> Annotated(pods, v.id) && MayStillCommit(v, a))
    && (v.id in matched && v.id in gone <==> Annotated(pods, v.id) && IsGone(v, a))
  }

  lemma EveryVMIsSorted(pods: seq<PodRec>, vms: seq<VMRec>, a: Answers, kept: seq<VMRec>, terminal: seq<VMID>,
                        orphans: seq<VMID>, watched: set<VMID>, gone: set<VMID>, byID: map<VMID, VMRec>,
                        byName: map<string, VMRec>, matched: set<VMID>, i: nat)
    requires DistinctIDs(vms) && StaleOutcome(vms, a, kept, terminal, watched, gone) && i < |vms|
    requires OrphansAre(orphans, terminal, kept, matched) && IndexesKept(kept, byID, byName)
    requires forall id :: id in matched <==> MatchedBy(pods, |pods|, byID, byName, a, id)
    ensures Sorted(vms[i], a, pods, matched, orphans, watched, gone)
  {
    var id, how := vms[i].id, Settle(vms[i], a);
    SettledOnce(vms, a, i, Orphan);
    SettledOnce(vms, a, i, Watch);
    SettledOnce(vms, a, i, Reclaimed);
    SettleExactly(vms[i], a);
    assert SettlesAs(vms[i], a, how);
    assert forall rec :: rec in kept && rec.id == id ==> Stands(vms[i], a, rec);
    assert forall rec :: Stands(vms[i], a, rec) ==> how == Keep(rec) && KeptFrom(vms, a, |vms|, rec);
    if how.Keep? {
      assert Stands(vms[i], a, how.rec) && how.rec in kept;
    } else {
      MatchedUnkept(pods, kept, byID, byName, a, id);
    }
  }

  /** A VM that was not kept is matched exactly by an unmanaged pod's annotation. */
  lemma MatchedUnkept(pods: seq<PodRec>, kept: seq<VMRec>, byID: map<VMID, VMRec>, byName: map<string, VMRec>,
                      a: Answers, id: VMID)
    requires IndexesKept(kept, byID, byName) && forall rec :: rec in kept ==> rec.id != id
    ensures MatchedBy(pods, |pods|, byID, byName, a, id) <==> Annotated(pods, id)
  {
    assert forall k :: k in byID ==> k != id;
    assert forall name :: name in byName ==> byName[name].id != id;
    if i :| 0 <= i < |pods| && !pods[i].managed && pods[i].vmID != "" && pods[i].vmID == id {
      assert Match(pods[i], byID, byName, a) == Some(id);
    }
  }

  /** A kept VM did not settle as terminal. */
  lemma KeptIsNotTerminal(vms: seq<VMRec>, a: Answers, rec: VMRec)
    requires DistinctIDs(vms) && KeptFrom(vms, a, |vms|, rec)
    ensures !SettledAs(vms, a, |vms|, rec.id, Orphan)
    ensures exists i :: 0 <= i < |vms| && vms[i].id == rec.id
  {
    var i :| 0 <= i < |vms| && Stands(vms[i], a, rec);
    SettledOnce(vms, a, i, Orphan);
  }

  /** A pod is tracked with what it matched. */
  ghost predicate TracksMatches(pods: seq<PodRec>, byID: map<VMID, VMRec>, byName: map<string, VMRec>, a: Answers,
                                tracked: map<Key, VMID>, matched: set<VMID>)
  {
    && (forall i :: 0 <= i < |pods| ==>
          (pods[i].key in tracked <==> Match(pods[i], byID, byName, a).Some?)
          && (pods[i].key in tracked ==> Match(pods[i], byID, byName, a) == Some(tracked[pods[i].key])))
    && (forall key :: key in tracked ==> exists i :: 0 <= i < |pods| && pods[i].key == key)
    && (forall id :: id in matched <==> MatchedBy(pods, |pods|, byID, byName, a, id))
  }

  // ---------------------------------------------------------------- the watcher

  /** One round of `watchBusyCreate`: the answers it would get, and whether its budget is spent; `wanted` is None on a failed pod lookup. */
  datatype Round = Round(verb: Verb, inspect: Inspect, wanted: Option<bool>, late: bool)

  /** How a watch ends: budget or context spent, VM gone, indexed for adoption, or given to the orphan policy. */
  datatype WatchEnd = Abandoned | Vanished | Indexed | Condemned

  predicate Collects(r: Round) {
    r.verb == Collected || r.verb == VerbNotFound
  }

  /** The record is still in transition, and there is budget left. */
  predicate Undecided(r: Round) {
    !Collects(r) && !r.late
    && (r.inspect.InspectError? || (r.inspect.Inspected? && r.inspect.state in {Creating, Created}))
  }

  /** It stopped without ever running, or it runs and no pod bears its name any more. */
  predicate Condemns(r: Round) {
    !Collects(r) && r.inspect.Inspected?
    && (r.inspect.state == Stopped || (r.inspect.state == Running && r.wanted == Some(false)))
  }

  /** It runs, and a pod bears its name or the lookup failed: it is left for a create to adopt. */
  predicate Adoptable(r: Round) {
    !Collects(r) && r.inspect.Inspected? && r.inspect.state == Running && r.wanted != Some(false)
  }

  /** The watch reaches a round that finds the VM adoptable. */
  ghost predicate EndsAdoptable(rounds: seq<Round>) {
    exists k :: 0 <= k < |rounds| && Adoptable(rounds[k]) && forall j :: 0 <= j < k ==> Undecided(rounds[j])
  }

  /** The watch reaches a round that condemns. */
  ghost predicate EndsCondemned(rounds: seq<Round>) {
    exists k :: 0 <= k < |rounds| && Condemns(rounds[k]) && forall j :: 0 <= j < k ==> Undecided(rounds[j])
  }

  /** The watch reaches a round that finds the record gone. */
  ghost predicate EndsVanished(rounds: seq<Round>) {
    exists k :: 0 <= k < |rounds| && (Collects(rounds[k]) || rounds[k].inspect.InspectNotFound?)
                && forall j :: 0 <= j < k ==> Undecided(rounds[j])
  }

  method WatchBusyCreate(id: VMID, rounds: seq<Round>) returns (end: WatchEnd)
    ensures end == Vanished <==> EndsVanished(rounds)
    ensures end == Condemned <==> EndsCondemned(rounds)
    ensures end == Indexed <==> EndsAdoptable(rounds)
    ensures (forall j :: 0 <= j < |rounds| ==> Undecided(rounds[j])) ==> end == Abandoned
  {
    for i := 0 to |rounds|
      invariant forall j :: 0 <= j < i ==> Undecided(rounds[j])
    {
      var r := rounds[i];
      if r.verb == Collected || r.verb == VerbNotFound {
        return Vanished;
      }
      match Classify(id, r.inspect)
      case Reclaimed => return Vanished;
      case Orphan => return Condemned;
      case Keep(rec) =>
        return if r.wanted == Some(false) then Condemned else Indexed;
      case Watch =>
        if r.late {
          return Abandoned;
        }
    }
    return Abandoned;
  }

  /** A VM meets the orphan policy, at startup or through its watcher. */
  ghost predicate MeetsPolicy(id: VMID, orphans: seq<VMID>, watched: set<VMID>, later: VMID -> seq<Round>) {
    id in orphans || (id in watched && EndsCondemned(later(id)))
  }

  /** An unmanaged pod's annotation names a placeholder that is terminal, or that its watcher finds so. */
  ghost predicate NamesCondemned(p: PodRec, vms: seq<VMRec>, a: Answers, later: VMID -> seq<Round>) {
    && !p.managed && p.vmID != ""
    && exists i :: 0 <= i < |vms| && vms[i].id == p.vmID
                   && (StoppedEarly(vms[i], a) || (MayStillCommit(vms[i], a) && EndsCondemned(later(p.vmID))))
  }

  /** Such pods and placeholders exist: inspect finds the record stopped, at once or in the watcher's first round. */
  lemma CondemnedCanBeNamed()
    ensures var a := Answers((id: VMID) => NotCreating, (id: VMID) => Inspected("n", Stopped), (key: Key) => true);
            NamesCondemned(PodRec("ns/p", "n", false, "x"), [VMRec("x", "n", Creating)], a, (id: VMID) => [])
    ensures var a := Answers((id: VMID) => Busy, (id: VMID) => InspectError, (key: Key) => true);
            NamesCondemned(PodRec("ns/p", "n", false, "x"), [VMRec("x", "n", Creating)], a,
                           (id: VMID) => [Round(NotCreating, Inspected("n", Stopped), None, false)])
  {
    var vms := [VMRec("x", "n", Creating)];
    var a := Answers((id: VMID) => NotCreating, (id: VMID) => Inspected("n", Stopped), (key: Key) => true);
    assert vms[0].id == "x" && SettlesAs(vms[0], a, Orphan);
    var b := Answers((id: VMID) => Busy, (id: VMID) => InspectError, (key: Key) => true);
    assert vms[0].id == "x" && SettlesAs(vms[0], b, Watch);
    var rounds := [Round(NotCreating, Inspected("n", Stopped), None, false)];
    assert Condemns(rounds[0]);
  }

  /** A VM some pod is tracked with meets the orphan policy exactly when an unmanaged annotation names a condemned placeholder. */
  lemma TrackedMeetsPolicyExactly(pods: seq<PodRec>, vms: seq<VMRec>, a: Answers, later: VMID -> seq<Round>,
                                  kept: seq<VMRec>, terminal: seq<VMID>, orphans: seq<VMID>, watched: set<VMID>,
                                  gone: set<VMID>, byID: map<VMID, VMRec>, byName: map<string, VMRec>, id: VMID,
                                  matched: set<VMID>)
    requires DistinctIDs(vms) && StaleOutcome(vms, a, kept, terminal, watched, gone)
    requires OrphansAre(orphans, terminal, kept, matched) && IndexesKept(kept, byID, byName)
    requires forall id :: id in matched <==> MatchedBy(pods, |pods|, byID, byName, a, id)
    ensures id in matched && MeetsPolicy(id, orphans, watched, later)
            <==> exists i :: 0 <= i < |pods| && pods[i].vmID == id && NamesCondemned(pods[i], vms, a, later)
  {
    if (id in terminal || id in watched) && id in matched {
      UnkeptIsUnkept(vms, a, kept, id);
      MatchedUnkept(pods, kept, byID, byName, a, id);
      var i :| 0 <= i < |pods| && !pods[i].managed && pods[i].vmID != "" && pods[i].vmID == id;
      assert MeetsPolicy(id, orphans, watched, later) ==> NamesCondemned(pods[i], vms, a, later);
    }
    if i :| 0 <= i < |pods| && pods[i].vmID == id && NamesCondemned(pods[i], vms, a, later) {
      assert Match(pods[i], byID, byName, a) == Some(id);
      assert MatchedBy(pods, |pods|, byID, byName, a, id);
    }
  }

  /** What settled as terminal or to be watched was not kept. */
  lemma UnkeptIsUnkept(vms: seq<VMRec>, a: Answers, kept: seq<VMRec>, id: VMID)
    requires DistinctIDs(vms) && forall rec :: rec in kept <==> KeptFrom(vms, a, |vms|, rec)
    requires SettledAs(vms, a, |vms|, id, Orphan) || SettledAs(vms, a, |vms|, id, Watch)
    ensures forall rec :: rec in kept ==> rec.id != id
  {
    forall rec | rec in kept
      ensures rec.id != id
    {
      var m :| 0 <= m < |vms| && Stands(vms[m], a, rec);
    }
  }

  /**
   Which VM a pod is tracked with, from the annotation, the name and the VMs left
   standing alone: an annotated ID wins and, unless the pod is unmanaged, must be
   standing; without one, a standing VM of the pod's VM name.
   */
  ghost predicate AdoptsItsOwn(p: PodRec, vms: seq<VMRec>, a: Answers, tracked: map<Key, VMID>) {
    if p.vmID != "" then
      && (p.key in tracked <==> !p.managed || exists rec :: KeptFrom(vms, a, |vms|, rec) && rec.id == p.vmID)
      && (p.key in tracked ==> tracked[p.key] == p.vmID)
    else
      && (p.key in tracked <==>
            p.vmName != "" && a.binds(p.key) && exists rec :: KeptFrom(vms, a, |vms|, rec) && rec.name == p.vmName)
      && (p.key in tracked ==>
            exists rec :: KeptFrom(vms, a, |vms|, rec) && rec.name == p.vmName && rec.id == tracked[p.key])
  }

  ghost predicate IndexesKept(kept: seq<VMRec>, byID: map<VMID, VMRec>, byName: map<string, VMRec>) {
    && (forall id :: id in byID ==> byID[id] in kept && byID[id].id == id)
    && (forall rec :: rec in kept ==> rec.id in byID)
    && (forall name :: name in byName ==> byName[name] in kept && byName[name].name == name && name != "")
    && (forall rec :: rec in kept && rec.name != "" ==> rec.name in byName)
  }

  lemma MatchIsItsOwn(p: PodRec, vms: seq<VMRec>, a: Answers, kept: seq<VMRec>, byID: map<VMID, VMRec>,
                      byName: map<string, VMRec>, tracked: map<Key, VMID>)
    requires forall rec :: rec in kept <==> KeptFrom(vms, a, |vms|, rec)
    requires IndexesKept(kept, byID, byName)
    requires p.key in tracked <==> Match(p, byID, byName, a).Some?
    requires p.key in tracked ==> Match(p, byID, byName, a) == Some(tracked[p.key])
    ensures AdoptsItsOwn(p, vms, a, tracked)
  {
    if p.vmID != "" && p.vmID in byID {
      assert byID[p.vmID] in kept;
    }
    if p.vmID == "" && p.vmName in byName {
      assert byName[p.vmName] in kept;
    }
  }

  /**
   The whole pass. Every pod adopts its own VM, every listed VM is sorted, no VM meets
   the orphan policy twice at startup, and a VM some pod is tracked with meets it, then
   or through its watcher, exactly when an unmanaged annotation names a condemned
   placeholder.
   */
  method Reconcile(pods: seq<PodRec>, vms: seq<VMRec>, a: Answers, ghost later: VMID -> seq<Round>)
    returns (tracked: map<Key, VMID>, matched: set<VMID>, orphans: seq<VMID>, watched: set<VMID>, gone: set<VMID>)
    requires DistinctIDs(vms) && DistinctKeys(pods)
    ensures NoRepeats(orphans)
    ensures forall i :: 0 <= i < |vms| ==> Sorted(vms[i], a, pods, matched, orphans, watched, gone)
    ensures forall i :: 0 <= i < |pods| ==> AdoptsItsOwn(pods[i], vms, a, tracked)
    ensures forall id :: id in matched <==> exists i :: 0 <= i < |pods| && pods[i].key in tracked && tracked[pods[i].key] == id
    ensures forall id ::
      (id in matched && MeetsPolicy(id, orphans, watched, later)
       <==> exists i :: 0 <= i < |pods| && pods[i].vmID == id && NamesCondemned(pods[i], vms, a, later))
  {
    var kept, terminal;
    kept, terminal, watched, gone := ReconcileStaleCreates(vms, a);
    var byID, byName := IndexVMs(kept);
    tracked, matched := MatchPods(pods, byID, byName, a);
    KeptAreNotTerminal(vms, a, kept, terminal, watched, gone);
    orphans := OrphanPass(kept, matched, terminal);
    forall i | 0 <= i < |vms|
      ensures Sorted(vms[i], a, pods, matched, orphans, watched, gone)
    {
      EveryVMIsSorted(pods, vms, a, kept, terminal, orphans, watched, gone, byID, byName, matched, i);
    }
    forall i | 0 <= i < |pods|
      ensures AdoptsItsOwn(pods[i], vms, a, tracked)
    {
      MatchIsItsOwn(pods[i], vms, a, kept, byID, byName, tracked);
    }
    forall id
      ensures id in matched && MeetsPolicy(id, orphans, watched, later)
              <==> exists i :: 0 <= i < |pods| && pods[i].vmID == id && NamesCondemned(pods[i], vms, a, later)
    {
      TrackedMeetsPolicyExactly(pods, vms, a, later, kept, terminal, orphans, watched, gone, byID, byName, id, matched);
    }
    MatchedAreTracked(pods, byID, byName, a, tracked, matched);
  }

  lemma MatchedAreTracked(pods: seq<PodRec>, byID: map<VMID, VMRec>, byName: map<string, VMRec>, a: Answers,
                          tracked: map<Key, VMID>, matched: set<VMID>)
    requires TracksMatches(pods, byID, byName, a, tracked, matched)
    ensures forall id :: id in matched <==> exists i :: 0 <= i < |pods| && pods[i].key in tracked && tracked[pods[i].key] == id
  {
    forall id
      ensures id in matched <==> exists i :: 0 <= i < |pods| && pods[i].key in tracked && tracked[pods[i].key] == id
    {
      if MatchedBy(pods, |pods|, byID, byName, a, id) {
        var i :| 0 <= i < |pods| && Match(pods[i], byID, byName, a) == Some(id);
        assert pods[i].key in tracked && tracked[pods[i].key] == id;
      }
    }
  }

  lemma KeptAreNotTerminal(vms: seq<VMRec>, a: Answers, kept: seq<VMRec>, terminal: seq<VMID>, watched: set<VMID>, gone: set<VMID>)
    requires DistinctIDs(vms) && StaleOutcome(vms, a, kept, terminal, watched, gone)
    ensures forall rec :: rec in kept ==> rec.id !in terminal
  {
    forall rec | rec in kept
      ensures rec.id !in terminal
    {
      KeptIsNotTerminal(vms, a, rec);
    }
  }

  /** The closing loop: unmatched kept VMs go to the orphan policy. */
  method OrphanPass(kept: seq<VMRec>, matched: set<VMID>, terminal: seq<VMID>) returns (orphans: seq<VMID>)
    requires DistinctIDs(kept) && NoRepeats(terminal) && forall rec :: rec in kept ==> rec.id !in terminal
    ensures NoRepeats(orphans) && OrphansAre(orphans, terminal, kept, matched)
  {
    orphans := terminal;
    for i := 0 to |kept|
      invariant NoRepeats(orphans)
      invariant forall id :: id in orphans <==>
        id in terminal || (exists j :: 0 <= j < i && kept[j].id == id && id !in matched)
    {
      assert kept[i] in kept;
      if kept[i].id in matched {
        continue;
      }
      assert kept[i].id !in orphans;
      orphans := orphans + [kept[i].id];
    }
    forall id
      ensures (exists j :: 0 <= j < |kept| && kept[j].id == id && id !in matched)
              <==> (exists rec :: rec in kept && rec.id == id && id !in matched)
    {
      if j :| 0 <= j < |kept| && kept[j].id == id && id !in matched {
        assert kept[j] in kept;
      }
    }
  }
}
