/**
 A hibernated guest does come back: exactly when a wake or a create plans a boot, what it
 plans, and that the boot runs the guest that was saved.
 */
module WakeResumes {
  import opened Wrappers
  import opened WakeSource
  import opened HibernateWake
  import opened HibernateConserves
  import opened HibernateOverlap

  // ---------------------------------------------------------------- what a wake plans

  predicate HasCopy(s: State, node: Node, snap: SnapID) {
    node in s.locals && s.locals[node] == snap
  }

  /** The node that pushed the tag still holds its snapshot, and can hand it over to this one. */
  predicate PeerHandsOver(s: State, node: Node, c: Calls)
    requires s.tag.Some?
  {
    && c.peers && s.tag.value.fromNode != "" && s.tag.value.fromNode != node
    && HasCopy(s, s.tag.value.fromNode, s.tag.value.snapshot) && c.peerReachable && c.transferred
    && (node in s.locals || (c.peerManifestRead && c.peerConfigRead))
  }

  /**
   A source serves the node, from what the registry and the stores hold and which calls
   succeed: with a registry the tag's snapshot, from the node's own verified copy, its
   peer or a pull; without one whatever the node's own store holds.
   */
  predicate Serves(s: State, node: Node, c: Calls) {
    && !c.localTrouble
    && if s.registry then
         && s.tag.Some? && (node in s.locals ==> c.manifestRead && c.configRead)
         && (HasCopy(s, node, s.tag.value.snapshot) || PeerHandsOver(s, node, c) || (c.puller && c.pulled && c.imported))
       else node in s.locals || (s.tag.Some? && c.puller && c.pulled && c.imported)
  }

  /** The snapshot it serves. */
  function Served(s: State, node: Node, c: Calls): SnapID
    requires Serves(s, node, c)
  {
    if !s.registry && node in s.locals then s.locals[node] else s.tag.value.snapshot
  }

  /** The node's own copy is known to be another snapshot than the tag's, or to have lost its tag. */
  predicate Stale(s: State, node: Node, c: Calls) {
    && s.registry && !c.localTrouble && node in s.locals && c.manifestRead
    && (s.tag.None? || (c.configRead && s.locals[node] != s.tag.value.snapshot))
  }

  function AfterWake(s: State, w: Op, node: Node, c: Calls): State {
    s.(locals := if Stale(s, node, c) then s.locals - {node} else s.locals,
       plans := if Serves(s, node, c) then s.plans[w := Plan(node, Some(Served(s, node, c)), s.owed)] else s.plans)
  }

  lemma ResolvesExactly(s: State, node: Node, c: Calls)
    ensures var (source, discards) := Resolve(EnvOf(s, node, c));
            && (source.Ok? <==> Serves(s, node, c))
            && (source.Ok? ==> source.value.snapshot == Served(s, node, c))
            && (discards <==> Stale(s, node, c))
  {
    WakeSucceedsExactly(EnvOf(s, node, c));
  }

  /** A wake plans a boot exactly when a source serves, from that source, and discards exactly a stale copy. */
  lemma WakePlansExactly(s: State, w: Op, node: Node, c: Calls)
    requires Enabled(s, PlanWake(w, node, c))
    ensures Next(s, PlanWake(w, node, c)) == AfterWake(s, w, node, c)
    ensures w in Next(s, PlanWake(w, node, c)).plans <==> Serves(s, node, c)
  {
    ResolvesExactly(s, node, c);
  }

  // ---------------------------------------------------------------- what a create plans

  /** The create's evidence lookup answers. */
  predicate Looks(s: State, c: Calls) {
    if s.registry then c.manifestRead else !c.localTrouble
  }

  predicate Evident(s: State, node: Node) {
    if s.registry then s.tag.Some? else node in s.locals
  }

  predicate SameImage(s: State, q: Request) {
    s.registry && s.tag.Some? ==> s.tag.value.baseImage == "" || s.tag.value.baseImage == q.image
  }

  /** The create takes the wake's path. */
  predicate Restores(s: State, node: Node, c: Calls, q: Request) {
    && q.managed && Looks(s, c)
    && (if Evident(s, node) then (q.marked || !q.explicitSource) && SameImage(s, q) else q.marked)
  }

  predicate Afresh(s: State, node: Node, c: Calls, q: Request) {
    q.managed && Looks(s, c) && !Evident(s, node) && !q.marked
  }

  /** A create plans what a wake would, a blank boot, or nothing, each exactly. */
  lemma CreatePlansExactly(s: State, w: Op, node: Node, c: Calls, q: Request)
    requires Enabled(s, PlanCreate(w, node, c, q))
    ensures Next(s, PlanCreate(w, node, c, q)) ==
            if Restores(s, node, c, q) then AfterWake(s, w, node, c)
            else if Afresh(s, node, c, q) then s.(plans := s.plans[w := Plan(node, None, s.owed)])
            else s
  {
    CreatePathExactly(EnvOf(s, node, c), q);
    ResolvesExactly(s, node, c);
  }

  // ---------------------------------------------------------------- the guest comes back

  /** The node can see the owed guest's state: it is under the tag, or in the node's own store. */
  predicate Sees(s: State, node: Node)
    requires s.owed.Some?
  {
    s.registry || node == s.owed.value.node
  }

  /** The runtime gives the clone an ID no attempt on the node is about. */
  predicate FreshID(s: State, node: Node, id: nat) {
    forall op :: op in s.attempts ==> !(s.attempts[op].node == node && s.attempts[op].vm == id)
  }

  /** Once a boot from the owed guest's state is planned, it runs that guest, and nothing is owed any more. */
  lemma PlannedBootRuns(s: State, s1: State, w: Op, node: Node, c: Calls, id: nat, blank: Guest)
    requires Conserved(s) && !s.up && s.owed.Some? && Sees(s, node) && Serves(s, node, c) && FreshID(s, node, id)
    requires s1 == AfterWake(s, w, node, c)
    ensures Enabled(s1, Boot(w, id, blank))
    ensures Next(s1, Boot(w, id, blank)) ==
            s1.(vm := Some(Machine(node, id, s.contents[s.owed.value.snapshot])), up := true, owed := None, plans := s1.plans - {w})
  {
    assert Served(s, node, c) == s.owed.value.snapshot;
  }

  /** A wake that a source serves is followed by a boot of the owed guest. */
  lemma WakeResumesGuest(s: State, w: Op, node: Node, c: Calls, id: nat, blank: Guest)
    requires Conserved(s) && s.owed.Some? && Enabled(s, PlanWake(w, node, c))
    requires Sees(s, node) && Serves(s, node, c) && FreshID(s, node, id)
    ensures var s1 := Next(s, PlanWake(w, node, c));
            && Enabled(s1, Boot(w, id, blank))
            && Next(s1, Boot(w, id, blank)).up
            && Next(s1, Boot(w, id, blank)).vm == Some(Machine(node, id, s.contents[s.owed.value.snapshot]))
  {
    WakePlansExactly(s, w, node, c);
    PlannedBootRuns(s, Next(s, PlanWake(w, node, c)), w, node, c, id, blank);
  }

  /** So is a create of the name, unless its lookup failed or its own clone source or image conflicts. */
  lemma CreateResumesGuest(s: State, w: Op, node: Node, c: Calls, q: Request, id: nat, blank: Guest)
    requires Conserved(s) && s.owed.Some? && Enabled(s, PlanCreate(w, node, c, q))
    requires Sees(s, node) && Serves(s, node, c) && FreshID(s, node, id)
    requires q.managed && (s.registry ==> c.manifestRead) && (q.marked || !q.explicitSource) && SameImage(s, q)
    ensures var s1 := Next(s, PlanCreate(w, node, c, q));
            && Enabled(s1, Boot(w, id, blank))
            && Next(s1, Boot(w, id, blank)).up
            && Next(s1, Boot(w, id, blank)).vm == Some(Machine(node, id, s.contents[s.owed.value.snapshot]))
  {
    CreatePlansExactly(s, w, node, c, q);
    PlannedBootRuns(s, Next(s, PlanCreate(w, node, c, q)), w, node, c, id, blank);
  }

  /** With every call succeeding, the owed guest's own node is served. */
  lemma OwnNodeIsServed(s: State)
    requires Conserved(s) && s.owed.Some?
    ensures Sees(s, s.owed.value.node) && Serves(s, s.owed.value.node, AnyCalls())
  {
  }

  lemma SomeIDIsFresh(s: State, node: Node) returns (id: nat)
    ensures FreshID(s, node, id)
  {
    var ids := set op | op in s.attempts :: s.attempts[op].vm;
    id := Bound(ids);
    assert forall op :: op in s.attempts ==> s.attempts[op].vm in ids;
  }

  /**
   Hibernate, then wake, for good: after any careful run in which the hibernate of a save
   removed the VM and its guest is still owed, there are a wake and a boot that bring back
   the guest exactly as it was when that save was taken.
   */
  lemma HibernatedGuestComesBack(registry: bool, before: seq<Event>, op: Op, snap: SnapID, between: seq<Event>)
    returns (wake: Event, boot: Event)
    requires Possible(Fresh(registry), before) && CarefulRun(Fresh(registry), before)
    requires Enabled(Run(Fresh(registry), before), Take(SaveOk(op, snap)))
    requires var s1 := Next(Run(Fresh(registry), before), Take(SaveOk(op, snap)));
             Possible(s1, between) && CarefulRun(s1, between)
    requires var s := Run(Next(Run(Fresh(registry), before), Take(SaveOk(op, snap))), between);
             s.owed.Some? && s.owed.value.snapshot == snap
    ensures wake.PlanWake? && boot.Boot?
    ensures var saved := Run(Fresh(registry), before);
            var s := Run(Next(saved, Take(SaveOk(op, snap))), between);
            && Enabled(s, wake) && Enabled(Next(s, wake), boot)
            && var woken := Next(Next(s, wake), boot);
               woken.up && woken.vm.value.guest == saved.vm.value.guest
  {
    var saved := Run(Fresh(registry), before);
    var s1 := Next(saved, Take(SaveOk(op, snap)));
    var s := Run(s1, between);
    ConservedRun(Fresh(registry), before);
    EventConserves(saved, Take(SaveOk(op, snap)));
    ConservedRun(s1, between);
    SnapshotsAreImmutable(s1, between, snap);
    wake, boot := OwedGuestWakes(s);
  }

  lemma OwedGuestWakes(s: State) returns (wake: Event, boot: Event)
    requires Conserved(s) && s.owed.Some?
    ensures wake.PlanWake? && boot.Boot? && Enabled(s, wake) && Enabled(Next(s, wake), boot)
    ensures var woken := Next(Next(s, wake), boot);
            woken.up && woken.vm.Some? && woken.vm.value.guest == s.contents[s.owed.value.snapshot]
  {
    var node := s.owed.value.node;
    var w := Bound(s.plans.Keys);
    var id := SomeIDIsFresh(s, node);
    OwnNodeIsServed(s);
    wake, boot := PlanWake(w, node, AnyCalls()), Boot(w, id, 0);
    WakeResumesGuest(s, w, node, AnyCalls(), id, 0);
  }
}
