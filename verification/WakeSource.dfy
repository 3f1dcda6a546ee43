/**
 Where a hibernated guest is restored from: `resolveWakeSource`,
 `verifyLocalSnapshot`, `tryPeerRestore` and the ID check of
 `PeerRestorer.Restore`, and the create path's choice between restoring and
 booting afresh (`deriveRestoreFromEvidence`, `hibernateEvidence`).
 */
module WakeSource {
  import opened Wrappers

  type SnapID = nat
  type Node = string

  /** What a lookup answers: a value, an authoritative "absent", or an error that says nothing. */
  datatype Lookup<+T> = Found(value: T) | Absent | Trouble

  /** The manifest under the hibernate tag; its config names the snapshot it holds. */
  datatype Manifest = Manifest(snapshot: SnapID, fromNode: Node, baseImage: string)

  /**
   The node's configuration, what the registry, the local store and the peer
   hold, and which of the calls the resolution makes succeed. The tag does not
   change while a source is being resolved.
   */
  datatype Env = Env(
    node: Node,
    registry: bool,
    puller: bool,
    peers: bool,
    local: Lookup<SnapID>,
    tag: Option<Manifest>,
    manifestRead: bool,
    configRead: bool,
    peerManifestRead: bool,
    peerConfigRead: bool,
    peerReachable: bool,
    peerHolds: Option<SnapID>,
    transferred: bool,
    pulled: bool,
    imported: bool)
  {
    /** Only a registry's manifests name peers, so peers are configured only with one. */
    predicate Wired() {
      peers ==> registry
    }
  }

  datatype Verdict = Verified | StaleNoTag | StaleOtherSnapshot | Unverifiable

  /** `verifyLocalSnapshot` on the local copy. */
  function VerifyLocal(env: Env, local: SnapID): Verdict {
    if !env.registry then Verified
    else if !env.manifestRead then Unverifiable
    else if env.tag.None? then StaleNoTag
    else if !env.configRead then Unverifiable
    else if env.tag.value.snapshot != local then StaleOtherSnapshot
    else Verified
  }

  datatype Kind = Local | Peer | Pulled

  datatype Source = Source(kind: Kind, snapshot: SnapID)

  /** `PeerRestorer.Restore`: the peer's plan must name the snapshot the registry's config names. */
  function Restore(env: Env, wanted: SnapID): Option<Source> {
    if !env.peerReachable || env.peerHolds.None? then None
    else if env.peerHolds.value != wanted then None
    else if !env.transferred then None
    else Some(Source(Peer, env.peerHolds.value))
  }

  /** `known` says the verification already fetched the manifest and its config. */
  function TryPeerRestore(env: Env, known: bool): Option<Source> {
    if !env.peers then None
    else if !known && !env.peerManifestRead then None
    else if env.tag.None? then None
    else if env.tag.value.fromNode == "" || env.tag.value.fromNode == env.node then None
    else if !known && !env.peerConfigRead then None
    else Restore(env, env.tag.value.snapshot)
  }

  function Pull(env: Env): Result<Source, ()> {
    if !env.puller then Err(())
    else if env.tag.None? || !env.pulled then Err(())
    else if !env.imported then Err(())
    else Ok(Source(Pulled, env.tag.value.snapshot))
  }

  function PeerThenPull(env: Env, known: bool): Result<Source, ()> {
    var peer := TryPeerRestore(env, known);
    if peer.Some? then Ok(peer.value) else Pull(env)
  }

  /** The source, and whether the local copy was discarded as stale. */
  function Resolve(env: Env): (Result<Source, ()>, bool) {
    match env.local
    case Trouble => (Err(()), false)
    case Absent => (PeerThenPull(env, false), false)
    case Found(local) =>
      match VerifyLocal(env, local)
      case Verified => (Ok(Source(Local, local)), false)
      case Unverifiable => (Err(()), false)
      case StaleNoTag => (Pull(env), true)
      case StaleOtherSnapshot => (PeerThenPull(env, true), true)
  }

  /** With a registry, every source is the snapshot the tag names; a local copy is used only when it is that snapshot. */
  lemma WakeAgreesWithRegistry(env: Env)
    requires env.Wired() && env.registry && Resolve(env).0.Ok?
    ensures env.tag.Some? && Resolve(env).0.value.snapshot == env.tag.value.snapshot
    ensures Resolve(env).0.value.kind == Local ==> env.local == Found(env.tag.value.snapshot) && !Resolve(env).1
  {
  }

  /** A peer that can serve the tag's snapshot to this node. */
  predicate PeerServes(env: Env) {
    && env.peers && env.tag.Some? && env.tag.value.fromNode != "" && env.tag.value.fromNode != env.node
    && env.peerReachable && env.peerHolds == Some(env.tag.value.snapshot) && env.transferred
  }

  predicate PullServes(env: Env) {
    env.puller && env.tag.Some? && env.pulled && env.imported
  }

  /** Exactly when a wake finds a source: with a registry only the snapshot the tag names, from whoever serves it. */
  lemma WakeSucceedsExactly(env: Env)
    requires env.Wired()
    ensures Resolve(env).0.Ok? <==>
            && !env.local.Trouble?
            && if env.registry then
                 && env.tag.Some?
                 && (env.local.Found? ==> env.manifestRead && env.configRead)
                 && (|| env.local == Found(env.tag.value.snapshot)
                     || (PeerServes(env) && (env.local.Found? || (env.peerManifestRead && env.peerConfigRead)))
                     || PullServes(env))
               else env.local.Found? || PullServes(env)
  {
  }

  /** The nearest source is taken: the local copy, then the peer, then the registry. */
  lemma WakeTakesTheNearest(env: Env)
    requires env.Wired() && Resolve(env).0.Ok?
    ensures var kind, peerAnswers := Resolve(env).0.value.kind, env.local.Found? || (env.peerManifestRead && env.peerConfigRead);
            && (kind == Local <==> env.local.Found? && (env.registry ==> env.tag.Some? && env.tag.value.snapshot == env.local.value))
            && (kind == Peer <==> kind != Local && PeerServes(env) && peerAnswers)
  {
  }

  /** A stale copy is never used and always discarded; a copy that cannot be checked is neither used nor discarded. */
  lemma UnverifiedCopyIsNeverUsed(env: Env)
    requires env.Wired() && env.registry && env.local.Found?
    requires env.tag.None? || env.local.value != env.tag.value.snapshot || !env.manifestRead || !env.configRead
    ensures Resolve(env).0.Ok? ==> Resolve(env).0.value.kind != Local
    ensures Resolve(env).1 <==> env.manifestRead && (env.tag.None? || (env.configRead && env.local.value != env.tag.value.snapshot))
  {
  }

  // ---------------------------------------------------------------- create: restore or boot afresh

  /** What the pod asks for: the operator's restore marker, an explicit clone source, its image. */
  datatype Request = Request(managed: bool, marked: bool, explicitSource: bool, image: string)

  datatype Boot = RestoreGuest | FreshBoot | Preassigned | Refuse

  /** `hibernateEvidence`: the tag, or without a registry the local snapshot; None is an error. */
  function Evidence(env: Env): Option<(bool, string)> {
    if !env.registry then
      match env.local
      case Found(_) => Some((true, ""))
      case Absent => Some((false, ""))
      case Trouble => None
    else if !env.manifestRead then None
    else if env.tag.None? then Some((false, ""))
    else Some((true, env.tag.value.baseImage))
  }

  /** The order of `CreatePod` once no live VM was adopted. */
  function CreatePath(env: Env, q: Request): Boot {
    if !q.managed then Preassigned
    else
      match Evidence(env)
      case None => Refuse
      case Some((false, _)) => if q.marked then RestoreGuest else FreshBoot
      case Some((true, recorded)) =>
        if !q.marked && q.explicitSource then Refuse
        else if recorded != "" && recorded != q.image then Refuse
        else RestoreGuest
  }

  /** The evidence lookup answered, whatever it said. */
  predicate Answers(env: Env) {
    if env.registry then env.manifestRead else !env.local.Trouble?
  }

  /** Hibernated state of the name exists. */
  predicate StateExists(env: Env) {
    if env.registry then env.tag.Some? else env.local.Found?
  }

  /** The image recorded with the state, if any, is the pod's. */
  predicate ImageFits(env: Env, image: string) {
    env.registry && env.tag.Some? ==> env.tag.value.baseImage == "" || env.tag.value.baseImage == image
  }

  /**
   The create path, each answer exactly: a managed pod restores state that exists unless
   its own clone source or its image conflicts, restores on the operator's word where none
   does, boots afresh only where the lookup answered that there is none, and is refused
   otherwise.
   */
  lemma CreatePathExactly(env: Env, q: Request)
    ensures CreatePath(env, q) == Preassigned <==> !q.managed
    ensures CreatePath(env, q) == RestoreGuest <==>
            && q.managed && Answers(env)
            && (if StateExists(env) then (q.marked || !q.explicitSource) && ImageFits(env, q.image) else q.marked)
    ensures CreatePath(env, q) == FreshBoot <==> q.managed && Answers(env) && !StateExists(env) && !q.marked
    ensures CreatePath(env, q) == Refuse <==>
            && q.managed
            && (!Answers(env) || (StateExists(env) && ((!q.marked && q.explicitSource) || !ImageFits(env, q.image))))
  {
  }

  /** A managed pod boots afresh exactly when it is unmarked and the evidence lookup answered "absent". */
  lemma FreshBootOnlyWithoutEvidence(env: Env, q: Request)
    requires q.managed
    ensures CreatePath(env, q) == FreshBoot <==>
            && !q.marked
            && (if env.registry then env.manifestRead && env.tag.None? else env.local.Absent?)
  {
  }
}
