# vk-cocoon: a Dafny model of its protocols

vk-cocoon is a virtual kubelet that runs each pod as a MicroVM. Its hard parts are
not in any one function: they are what stays true while a pod is created, deleted,
evicted, hibernated, woken, restarted and re-adopted, with every call that can fail
failing and the process crashing in between. This project models those parts and
proves what they promise.

How it is organised:

| files | part of the system |
|---|---|
| `SparseFile`, `SectionWriter`, `ExtentPlan`, `PeerRestore` | a snapshot file restored from a peer: scan, plan, stream, write sparsely, in any interleaving |
| `Tables`, `Provider` | the provider's tables as values, and the provider object whose locked sections change them |
| `ProviderRuns`, `DeleteFence`, `DeleteRemoves`, `FlushAndBind`, `RestartCooldown`, `LifecycleRuns` | runs of the provider: any interleaving of those sections, and what holds over all of them |
| `WakeSource` | where a wake finds the guest, and when a create restores rather than boots afresh |
| `HibernateWake`, `HibernateConserves`, `HibernateOverlap`, `HibernateOrder`, `WakeResumes` | the hibernate/wake protocol of one VM name over its life: the machine, what it keeps, exactly when attempts may overlap, the order of one attempt, and that the guest comes back |
| `HibernateRollback` | what a rollback leaves in the tables, section by section |
| `PostClone`, `StartupReconcile` | what a crash leaves owed, and what startup does with every VM it lists |
| `LeaseCache`, `Probes`, `VncPorts` | the lease cache and its races, the readiness debounce, VNC port reservations |

The form follows the source. Objects that are updated in place are classes
(`SectionWriter`, `StagedFile`, `Provider`, `LeaseParser`, `Manager`, `Ports`), loops are
methods with invariants, and a protocol with concurrent or failing parts is a state
machine: events with guards, a step function, and runs as sequences of events. A method
that changes state is tied to a function of the old state, and the theorems are about
runs of those functions.

## What turned out to hold only under a condition

Each is stated as an equivalence, with a concrete case next to it.

- Skipping zero chunks has the effect of a plain write exactly when the file reads zero
  under every skipped chunk. A restore truncates first, so it always does
  (`SectionWriting.BufferedWriteRefinesPlainWrite`).
- The client's bounds check on a slice keeps it inside the file exactly when the sum of
  offset and length does not overflow 64 bits (`ExtentPlan.AcceptedInBounds`).
- Nothing keeps a second hibernate of a name from beginning while a first is still in
  flight: creates and resumed hibernates take no pod lock, and forgetting a pod discards
  the lock its holder still has. A hibernate that begins then is safe, whatever the others
  do, exactly when none of them is of the same VM and short of its remove, is uploading or
  able to upload on another node, is about to delete the tag, or, without a registry, is
  still saving on this node
  (`HibernateOverlap.BeginIsSafeExactly`); an overlap that loses the guest is reached
  (`HibernateOverlap.OverlapLosesGuest`). On one node `pushGate` keeps uploads in order, so
  there the older upload cannot overtake.
- While a hibernate is on its way, another save of its VM is safe exactly before its own
  save, or with a registry once its snapshot is exported and no other attempt on the node
  is still to export one; dropping its local snapshot is unsafe exactly without a registry
  and after its save; discarding the tag is unsafe exactly between its push and its remove
  (`HibernateOverlap.OutsideIsSafeExactly`). The conservation and round-trip theorems are
  over all runs in which each hibernate begins unthreatened and nothing unsafe in this
  sense happens from outside.
- A failed remove compensates by deleting the pushed tag. If a remove could report an
  error and still have removed the VM, the guest would survive exactly when that delete
  did nothing (`HibernateOverlap.LyingRemoveKeepsGuestExactly`). The conservation theorems
  assume that an error other than "not found" means the VM is still there.
- A clone is never Ready without its fixup, over any crashes, restarts and recreates,
  exactly when the pod carries neither a done marker nor a Ready or a hibernate failure of
  an earlier VM at the moment the clone commits, no hibernate is asked for, and `CreatePod`
  never adopts the VM by its name (`PostClone.FixupIsNeverSkipped`). The other two always
  can skip it: the lift of a failed hibernate calls the guest Ready whatever became of the
  fixup (`PostClone.LiftSkipsFixup`), and so does an adoption that finds the failed marker
  (`PostClone.AdoptionSkipsFixup`). Step by step, at an unfixed guest exactly the branches
  named in `PostClone.Skips` lead to a Ready without a fixup (`PostClone.SkipsExactly`).
- A VM some pod is tracked with meets the orphan policy, at startup or later through its
  watcher, exactly when an unmanaged pod's annotation names a creating placeholder that is
  terminal or that the watcher finds terminal or unwanted (`StartupReconcile.Reconcile`).
  Such a VM is in two classes at once; otherwise every listed VM is in one.
- Every lease refresh leaves an index no older than its call exactly when no two versions
  of the lease file share mtime and size (`LeaseCache.RefreshEndsFreshExactly`). The
  comment on `refresh` says a race costs at most another parse; but `LookupByMAC` reads in
  a later section, and is sure to read nothing older than its call exactly when no other
  refresh sits on an older read at that moment (`LeaseCache.LookupIsFreshExactly`).
- VNC ports stay node-unique exactly when no adoption names a display another pod holds,
  and stay in the hundred-port span exactly when no display of 100 or more is adopted
  (`VncPorts.PortsAreUniqueExactly`, `VncPorts.PortInSpanExactly`).

## Model

| member | source | states |
|---|---|---|
| `SectionWriting.SkipWritesCarry` | snapshots/peer.go:497-517 | every write the eliding writer issues carries the bytes of the data at its own offset and lies inside the data |
| `SectionWriting.SkipWritesSeparated` | snapshots/peer.go:497-517 | its writes are ascending and never touch: something is skipped between any two |
| `SectionWriting.SkipWritesCoverExactly` | snapshots/peer.go:497-517 | a byte is written if and only if the 1 MiB chunk it falls in, counted from the start of the buffer, is not all zero |
| `SectionWriting.RunHasNoZeroChunk` | snapshots/peer.go:504-511 | no chunk inside one write is all zero |
| `SectionWriting.WriteSkippingZeros` | snapshots/peer.go:497-517 | the nested loops issue exactly the specified writes in order, succeed only if every one did, and even on an error write nothing outside the buffer's range |
| `SectionWriting.SectionWriter.Write` | snapshots/peer.go:428-441 | however the stream is cut into reads, what has reached the file is the full buffers so far and the rest waits in the buffer; even on an error nothing outside the range fed is written |
| `SectionWriting.SectionWriter.Fill` | snapshots/peer.go:431-433 | the copy appends to what is pending and loses nothing fed before |
| `SectionWriting.SectionWriter.Batch` | snapshots/peer.go:430-439 | one round of the loop keeps the batching invariant and never leaves a full buffer |
| `SectionWriting.SectionWriter.Flush` | snapshots/peer.go:444-454 | after it nothing is pending and the file's log holds every write of the whole stream |
| `SectionWriting.GrewWithinFrames` | snapshots/peer.go:497-517 | writes confined to a range leave every byte outside it as it was |
| `SectionWriting.StagedFile.WriteAt` | snapshots/peer.go:512-514 | a write lands in the log at its offset, or fails having landed a prefix |
| `SectionWriting.BlockWritesCoverExactly` | snapshots/peer.go:428-517 | over a whole stream of buffers a byte is written if and only if its chunk of the stream is not all zero: buffer boundaries never change which chunks are elided |
| `SectionWriting.BlockWritesCarry` | snapshots/peer.go:428-517 | every write of the buffered stream carries the stream's own bytes |
| `SectionWriting.BufferedWriteRefinesPlainWrite` | snapshots/peer.go:421-517 | buffered, zero-skipping writing equals one plain write of the stream if and only if the file reads zero under every elided chunk |
| `SparseFile.ReplayOfCarriers` | snapshots/peer.go:358-377 | writes that carry a source's bytes, in any order and overlapping at will, leave the source under them and the old bytes elsewhere |
| `ExtentPlan.ScanExtents` | snapshots/extents_linux.go:14-51 | the runs cover every data byte, in order and inside the file; it fails if and only if the last seek it made broke, or found holes unsupported; with an unsupported data seek it is the whole file, and with working seeks exactly the data bytes |
| `ExtentPlan.CoalesceShape` | snapshots/peer.go:468-478 | merged runs are ordered, end where the input ends, and are more than the gap apart |
| `ExtentPlan.CoalesceCovers` | snapshots/peer.go:468-478 | merging covers exactly the input's bytes and the bytes in gaps no larger than the limit |
| `ExtentPlan.CoalesceBytes` | snapshots/peer.go:468-478 | merging n runs into m adds at most the gap limit for each of the n - m merges |
| `ExtentPlan.CoalesceExtents` | snapshots/peer.go:468-478 | the in-place loop computes the specified merge |
| `ExtentPlan.SplitShape` | snapshots/peer.go:481-489 | slices are ordered, non-empty and no longer than the cap |
| `ExtentPlan.SplitIsFull` | snapshots/peer.go:481-489 | a run is cut only where it must be: a slice short of the cap ends where a run ended |
| `ExtentPlan.SplitCovers` | snapshots/peer.go:481-489 | splitting covers exactly the bytes it was given |
| `ExtentPlan.SplitTotal` | snapshots/peer.go:481-489 | splitting neither adds nor loses a byte |
| `ExtentPlan.SplitExtents` | snapshots/peer.go:481-489 | the nested loops compute the specified split |
| `ExtentPlan.PlanIsValid` | snapshots/peer.go:148-184 | every served plan is ordered, capped, in bounds, accepted by the client's check, covers every reported run plus only small gaps, and pads at most one gap per merge |
| `ExtentPlan.ChunkPartitions` | snapshots/peer.go:362-365 | dealing the slices to streams keeps every slice once, in order, in at most the stream limit of non-empty groups, all but the last of the same size |
| `ExtentPlan.GroupTasks` | snapshots/peer.go:362-365 | the grouping loop computes those groups |
| `ExtentPlan.AcceptedInBounds` | snapshots/peer.go:348-352 | the check accepts a slice if and only if it is non-empty, starts in the file and ends in it or overflows int64; so an accepted one lies inside if and only if it does not overflow |
| `ExtentPlan.OverflowingSliceAccepted` | snapshots/peer.go:348-352 | the input that passes the check and lies outside the file |
| `PeerRestore.FetchSlice` | snapshots/peer.go:384-418 | succeeds if and only if a response came, its body did not break off, every write landed, the length is the slice's and the trailer is the checksum of what was received; then the stream's log grew by exactly those bytes; and whatever happened, no byte outside the range received is touched |
| `PeerRestore.FetchTask` | snapshots/peer.go:369-380 | the task loop succeeds if and only if every slice was accepted and written, and then the stream has written exactly the delivered bytes in order; from an empty log and a trusted peer that is what the rebuild theorem needs of each task |
| `PeerRestore.DeliveredIsServed` | snapshots/peer.go:407-417 | if the trailers are the checksums of what the server read, and the delivered streams do not collide with those, a task that succeeds has written the source's own bytes |
| `PeerRestore.TaskWritesCover` | snapshots/peer.go:362-382 | one stream's writes reach every non-zero byte of its slices |
| `PeerRestore.InterleavedWrites` | snapshots/peer.go:362-382 | any interleaving of streams that carry the source carries the source and covers what each covered |
| `PeerRestore.PeerRestoreRebuildsSource` | snapshots/peer.go:332-382 | from any scan that covers the non-zero bytes, through plan, replies cut into reads at will, successful tasks and any interleaving of their writes into the truncated file, the result is the source byte for byte |
| `ProviderObject.Provider.TrackPod` | provider/cocoon/provider.go:349-356 | the pod is tracked, with the VM and its name if one is given; an intent of its own stays and its annotations say it, another's goes; leaves every other key alone in every table and keeps tracked pods in agreement with their intents |
| `ProviderObject.Provider.TrackPodUnlessDeleting` | provider/cocoon/provider.go:327-335 | refuses if and only if the key is claimed, and then changes nothing; otherwise tracks as above |
| `ProviderObject.Provider.TrackPodIncarnation` | provider/cocoon/provider.go:337-347 | binds if and only if the key is neither claimed nor another incarnation's; either way a named VM can be reached afterwards |
| `ProviderObject.Provider.DropVM` | provider/cocoon/provider.go:365-375 | the VM's binding and restart stamp go, its name goes if and only if it still names this very record, and no other stamp or name changes |
| `ProviderObject.Provider.GcStaleRestarts` | provider/cocoon/provider.go:377-384 | the map walk removes exactly the stamps older than twice the cooldown |
| `ProviderObject.Provider.UntrackIncarnation` | provider/cocoon/provider.go:396-429 | untracks if and only if that incarnation is the tracked one; otherwise nothing changes |
| `ProviderObject.Provider.DetachIncarnation` | provider/cocoon/provider.go:405-420 | refuses if and only if the key is claimed; otherwise that incarnation, its VM and its intent go if it is the tracked one, and another is left alone; the VM in hand can be reached unless the key binds one of its name |
| `ProviderObject.Provider.Untrack` | provider/cocoon/provider.go:431-439 | the key has no pod, VM or intent left, and the section leaves every other key alone in every table and keeps tracked pods in agreement with their intents |
| `ProviderObject.Provider.ClaimDeletingIncarnation` | provider/cocoon/provider.go:469-482 | claims if and only if nobody holds the key and it is this incarnation bound to this VM; only the claim set changes |
| `ProviderObject.Provider.ClaimDeleting` | provider/cocoon/provider.go:484-495 | another incarnation, a held key and a new claim, told apart in that order; only a new claim changes anything |
| `ProviderObject.Provider.UpdateTrackedVM` | provider/cocoon/provider.go:509-521 | replaces the record, under its key and its name, if and only if it is still of that VM, keeping its ID and name |
| `ProviderObject.Provider.TryRestart` | provider/cocoon/provider.go:697-703 | allows a restart if and only if the cooldown has passed since the last, and then refuses every other within the next cooldown |
| `ProviderObject.Provider.FailCreate` | provider/cocoon/create.go:149-170 | untracks the pod, but not its VM, unless another incarnation took the key |
| `ProviderObject.Provider.ApplyLifecycle` | provider/cocoon/lifecycle.go:69-116 | a write is refused if and only if another incarnation is tracked, or nothing is and the intent is another's, or the intent is of a newer generation, or it failed at this generation and the write says Ready or Hibernated; then nothing changes; otherwise it is applied to intent, pod and tracked pod alike, unacknowledged, at the larger of their generations |
| `ProviderObject.Provider.SetLifecycleStateForWake` | provider/cocoon/update.go:415-430 | applied if and only if the key binds the woken VM, its pod does not ask to hibernate and the write is not refused |
| `ProviderObject.Provider.RepublishOnGenerationBump` | provider/cocoon/lifecycle.go:204-218 | repeats the current state and message if and only if the pod's generation is newer than its own intent's and no other incarnation is tracked |
| `ProviderObject.Provider.LiftHibernateFailure` | provider/cocoon/update.go:296-326 | starts the pod over if and only if its own intent is a failure of hibernate no newer than the pod, its VM is still bound and no other incarnation is tracked |
| `ProviderObject.Provider.SeedLifecycleIntent` | provider/cocoon/lifecycle.go:192-201 | what the pod's annotations say becomes its intent, acknowledged; a pod without any leaves all as it was |
| `ProviderObject.Provider.RecordLifecycleFlushed` | provider/cocoon/lifecycle.go:220-229 | the status it flushed stops being pending if it is still the intent; otherwise nothing changes |
| `ProviderObject.Provider.DropSupersededLifecycle` | provider/cocoon/lifecycle.go:231-238 | the intent goes if it is still the one refused; otherwise nothing changes |
| `ProviderObject.Provider.FlushLifecycle` | provider/cocoon/lifecycle.go:118-151 | undisturbed, the first of at most three answers that is not an error decides: acknowledge, drop, or leave pending |
| `ProviderObject.Provider.CollectDrifts` | provider/cocoon/lifecycle.go:160-177 | the map walk collects exactly the unacknowledged intents, each once |
| `DeleteFence.OneClaimPerKey` | provider/cocoon/provider.go:469-501 | in every reachable state at most one delete or eviction holds a key |
| `DeleteFence.ClaimFencesIncarnation` | provider/cocoon/provider.go:327-347 | from claim to finish, whatever else runs, the key holds the incarnation and the VM it held when claimed, or nothing |
| `DeleteFence.RemovesOnlyTheClaimedVM` | provider/cocoon/delete.go:27-98 | the VM a delete or eviction removes is the one its key was bound to when it claimed the key |
| `DeleteRemoves.DeleteRemovesItsVM` | provider/cocoon/delete.go:27-90 | a delete that claims a key bound to a VM, and reads it before anything forgets it, can remove it at once, and whenever it does, whatever interleaved, that VM is removed |
| `DeleteRemoves.BoundStays` | provider/cocoon/provider.go:327-394 | a claimed key stays bound to its VM if and only if no event is the watcher's forget or the claim's own forget or untrack of it |
| `DeleteRemoves.ReadSeesTheBoundVM` | provider/cocoon/delete.go:56-67 | what a delete reads is the VM its key is bound to at that moment, or none |
| `DeleteRemoves.DeleteClaims` | provider/cocoon/provider.go:484-495 | a delete claims its key if and only if nobody holds it and no other incarnation is tracked, and records the VM bound to it |
| `DeleteRemoves.EvictionRemovesItsVM` | provider/cocoon/provider.go:469-482 | an eviction claims if and only if the key is free and holds exactly that incarnation and VM, and can then remove that VM |
| `DeleteRemoves.DeleteFreesTheKey` | provider/cocoon/delete.go:39-90 | after its forget and finish the key has no pod, VM, intent or claim, and every other claim is held as before |
| `DeleteFence.ForgetTouchesOnlyTheClaim` | provider/cocoon/provider.go:386-394 | forgetting inside a claim drops that claim's own incarnation and VM and leaves every other key as it was |
| `DeleteFence.ClaimPersists` | provider/cocoon/provider.go:484-501 | a claim never changes what it claimed, and a finished one is never held again |
| `RestartCooldown.RestartsAreSpaced` | provider/cocoon/provider.go:641-721 | two watcher restarts of one VM with no drop of it in between are at least the cooldown apart, however often stale stamps are collected |
| `RestartCooldown.RemembersRun` | provider/cocoon/provider.go:377-384 | collecting stale stamps never forgets a restart that still matters |
| `RestartCooldown.RestartIsAllowedAgain` | provider/cocoon/provider.go:697-703 | a VM is restarted if and only if thirty seconds have passed since the last restart on record, so again thirty seconds after a restart and not before |
| `RestartCooldown.GcForgetsTheStale` | provider/cocoon/provider.go:377-384 | collecting forgets exactly the restarts more than a minute ago |
| `LifecycleRuns.TrackedPodsAgreeWithIntents` | provider/cocoon/lifecycle.go:69-116 | in every reachable state a tracked pod with an intent of its own incarnation carries exactly that intent's status |
| `LifecycleRuns.GenerationNeverDecreases` | provider/cocoon/lifecycle.go:91-97 | over any run that keeps the intent, the observed generation never decreases |
| `LifecycleRuns.FailedIsSticky` | provider/cocoon/lifecycle.go:98-108 | after Failed, Ready or Hibernated at the same generation is applied only if Creating or Hibernating at it was applied in between |
| `LifecycleRuns.IntentIsOrdered` | provider/cocoon/lifecycle.go:69-116 | an intent changes its status only by an applied write, which is never older |
| `LifecycleRuns.AdmittedExactly` | provider/cocoon/lifecycle.go:69-108 | exactly which writes are admitted, from tracked pod, pod and intent, and the generation they carry |
| `LifecycleRuns.SkippedOnlyIfAccepted` | provider/cocoon/lifecycle.go:160-177 | what the reconciler skips is a status the apiserver accepted for that UID, or one startup read from it |
| `LifecycleRuns.AppliedIsPicked` | provider/cocoon/lifecycle.go:109-114 | every applied write is pending at once, even one that repeats an acknowledged status |
| `LifecycleRuns.PendingUntilRecorded` | provider/cocoon/lifecycle.go:220-238 | a pending write stays pending if and only if it is still the intent and no write of an equal status of that incarnation is acknowledged |
| `LifecycleRuns.PendingRun` | provider/cocoon/lifecycle.go:160-238 | over any run the reconciler keeps picking a pending write exactly until it is replaced, dropped, or a write of an equal status is acknowledged |
| `LifecycleRuns.ForeignFlusherIsHarmless` | provider/cocoon/lifecycle.go:118-151 | a flusher that no longer owns the entry changes nothing; one that does changes only its own key's intent |
| `FlushAndBind.FlushGoesOn` | provider/cocoon/lifecycle.go:118-151 | whatever interleaves, a flush goes on to patch if and only if its status is still the intent, to record if and only if the patch was accepted, to drop if and only if it was refused, and to check again if and only if it erred fewer than three times |
| `FlushAndBind.FlushPatchesAtMostThrice` | provider/cocoon/lifecycle.go:124-148 | over any run a flush sends at most three patches |
| `FlushAndBind.AcceptedIsAcknowledged` | provider/cocoon/lifecycle.go:132-136 | the record after an accepted patch acknowledges its status, if that is still the intent |
| `FlushAndBind.RefusedIsDropped` | provider/cocoon/lifecycle.go:137-140 | the drop after a refused patch drops the intent, if it is still that one |
| `WakeSource.WakeAgreesWithRegistry` | provider/cocoon/update.go:613-670 | with a registry, whatever the source, the snapshot cloned is the one the tag names |
| `WakeSource.WakeSucceedsExactly` | provider/cocoon/update.go:613-715 | exactly which combinations of registry, local copy, peer and pull give a wake a source |
| `WakeSource.WakeTakesTheNearest` | provider/cocoon/update.go:613-670 | the source taken is the local copy if and only if it is the tag's snapshot, the peer if and only if that is not so and the peer serves, and the registry otherwise |
| `WakeSource.UnverifiedCopyIsNeverUsed` | provider/cocoon/update.go:506-542 | a stale copy is discarded and never used; one that cannot be checked is neither |
| `WakeSource.FreshBootOnlyWithoutEvidence` | provider/cocoon/create.go:89-102 | a managed pod boots afresh if and only if it is unmarked and the evidence lookup answered absent |
| `WakeSource.CreatePathExactly` | provider/cocoon/create.go:89-201 | restore, fresh boot, preassigned and refusal, each if and only if: state that exists is restored unless the pod's own clone source or its image conflicts, a marked pod restores without any, a failed lookup refuses |
| `HibernateConserves.RemovedGuestIsHeld` | provider/cocoon/update.go:175-247 | over all attempts on all nodes, overlapping, failing, crashing and resumed, as long as each begins unthreatened and nothing unsafe happens to its snapshot from outside, a VM that hibernate removed has that attempt's snapshot where a wake looks for it |
| `HibernateConserves.ConservedRun` | provider/cocoon/update.go:175-288 | every stage of every attempt keeps the latest guest running or held, and every other attempt unable to touch it |
| `HibernateConserves.HibernateWakeRoundTrip` | provider/cocoon/update.go:351-382 | whatever happens between save and boot, on whichever node and through whichever source it boots, the guest resumes exactly as it was saved |
| `WakeResumes.HibernatedGuestComesBack` | provider/cocoon/update.go:175-382 | after any careful run that leaves a hibernated guest owed, some wake and boot are possible that bring it back exactly as that save took it |
| `WakeResumes.WakePlansExactly` | provider/cocoon/update.go:351-372 | a wake goes on to boot if and only if a source serves, from the snapshot it serves, and discards the local copy if and only if it is stale; nothing else changes |
| `WakeResumes.CreatePlansExactly` | provider/cocoon/create.go:89-102 | a create plans what a wake would, a blank boot, or nothing, each if and only if the evidence, the marker, the clone source and the image say so |
| `WakeResumes.WakeResumesGuest` | provider/cocoon/update.go:360-382 | a wake of an owed guest that a source serves is followed by a boot that runs that guest |
| `WakeResumes.CreateResumesGuest` | provider/cocoon/create.go:240-250 | so is a create of the name whose lookup answered and whose clone source and image do not conflict |
| `HibernateConserves.BootResumes` | provider/cocoon/create.go:173-222 | a create or wake that looked while the guest was owed boots that guest, never a blank disk |
| `HibernateConserves.OwedIsNotFresh` | provider/cocoon/create.go:89-102 | a create of a name that is owed never takes the fresh-boot path |
| `HibernateConserves.SnapshotsAreImmutable` | provider/cocoon/update.go:175-247 | no event changes what a snapshot ID stands for |
| `HibernateConserves.SaveTakesTheGuestAsItRuns` | provider/cocoon/update.go:191-200 | a save captures the guest as it runs at that moment, as the attempt's snapshot and in the node's store |
| `HibernateConserves.CrashEndsItsNode` | provider/cocoon/resume.go:24-44 | a crash ends exactly the attempts and plans of its node; the VM, the snapshots, the tag and what is owed stay |
| `HibernateConserves.FailedAttemptsKeepVM` | provider/cocoon/update.go:270-288 | however many attempts fail, overlap or crash, the VM keeps running until it dies by itself or a remove takes it, and at that moment its snapshot is held |
| `HibernateOverlap.BeginIsSafeExactly` | provider/cocoon/update.go:201-228 | whatever is in flight goes on, no removed guest is lost after this hibernate begins, if and only if no attempt in flight is of the same VM before its remove, is uploading or able to on another node, is about to delete the tag, or, without a registry, is still saving on this node |
| `HibernateOverlap.ThreatLosesGuest` | snapshots/pusher.go:20-65 | for each such attempt, the run that loses a guest, past the node-wide push gate |
| `HibernateOverlap.OutsideIsSafeExactly` | provider/cocoon/update.go:192-228 | whatever is in flight goes on, no removed guest is lost after another save of the VM, a dropped local snapshot or a discarded tag, if and only if it spares what the hibernate on its way still relies on: the snapshot it is to export, or that another attempt on the node is, or the place where a wake looks |
| `HibernateOverlap.OverlapLosesGuest` | provider/cocoon/provider.go:816-822 | such an overlap is reached: evicted while uploading, recreated elsewhere, hibernated again |
| `HibernateOverlap.LyingRemoveKeepsGuestExactly` | provider/cocoon/update.go:219-228 | if a failing remove had removed the VM, the guest would be held if and only if the tag delete did nothing |
| `HibernateOverlap.LyingRemoveLosesGuest` | provider/cocoon/update.go:219-228 | the run in which such a remove would lose the guest |
| `HibernateOrder.SaveAndPush` | provider/cocoon/update.go:192-213 | save and push succeed exactly when both calls do, with the snapshot held; a failure leaves the VM and no attempt |
| `HibernateOrder.Push` | provider/cocoon/update.go:201-213 | a push that succeeds, or errs after it landed, leaves the manifest of the saved snapshot, its node and its image under the tag; one that did not land changes nothing of it |
| `HibernateOrder.RemoveOrRollBack` | provider/cocoon/update.go:214-247 | a remove that succeeds owes the saved snapshot; one that fails leaves the VM and the tag as far as its delete failed |
| `HibernateOrder.KeepAndRollBack` | provider/cocoon/update.go:219-228 | a failed remove deletes the pushed tag exactly when the delete succeeds, and changes nothing else |
| `HibernateOrder.Hibernate` | provider/cocoon/update.go:175-247 | succeeds exactly when save, push and remove do, with the guest's state held under its own node and image; otherwise the VM is as it was |
| `HibernateRollback.RollbackKeepsVMReachable` | provider/cocoon/create.go:529-565 | from the first section of a rollback on, whatever interleaves with the others and follows them, the VM stays bound or indexed by name if and only if no event takes it |
| `HibernateRollback.ReachesStep` | provider/cocoon/provider.go:327-439 | an event takes a reachable VM if and only if it binds or indexes another VM over it, or drops its record, passes that section's own guard, and leaves no second way to reach it |
| `HibernateRollback.DetachRestoresReach` | provider/cocoon/create.go:529-538 | the closing detach makes the VM reachable again even if it was taken, unless a claim holds the key or another VM of the name is bound to it |
| `HibernateRollback.BindTrackReaches` | provider/cocoon/provider.go:337-347 | the first section leaves the VM reachable whether it binds or is refused |
| `FlushAndBind.BindGoesOn` | provider/cocoon/create.go:529-565 | whatever interleaves, a bind that finds its pod superseded, or its name given to another pod, goes on to its detach and to nothing else; a refused one goes no further; one that finds neither is bound; a refresh takes the changed copy if and only if the key still binds that VM |
| `PostClone.FixupIsNeverSkipped` | provider/cocoon/resume.go:166-209 | over every crash, restart and recreate, Ready implies a successful fixup in this VM if and only if no hibernate is asked for, `CreatePod` never adopts the VM, and the pod carried neither a done marker nor a Ready or a hibernate failure when the clone committed |
| `PostClone.SkipsExactly` | provider/cocoon/update.go:296-340 | at an unfixed guest a step keeps Ready to fixed guests, on every later run that takes no skipping branch, if and only if it is none: the lift of a hibernate failure, an adoption on a done or failed marker, a restart on a Ready, a liftable hibernate failure or a done marker |
| `PostClone.FixedFirstRun` | provider/cocoon/postclone.go:57-226 | over any run without those branches, no unfixed clone is Ready, about to be marked so, or past its fixup |
| `PostClone.LiftSkipsFixup` | provider/cocoon/update.go:148-161 | whatever the pod carried, the run in which the fixup fails, a hibernate fails, and clearing its request makes the unfixed guest Ready |
| `PostClone.AdoptionSkipsFixup` | provider/cocoon/create.go:74-84 | whatever the pod carried, the run in which the fixup fails before the VM ID is published, and the adoption after a crash makes the unfixed guest Ready |
| `PostClone.LeftoverLifeSkipsFixup` | provider/cocoon/reconcile.go:95-111 | the runs in which a Ready annotation, or a hibernate failure, that outlived its VM skips the fixup |
| `PostClone.LeftoverMarkerSkipsFixup` | provider/cocoon/resume.go:166-209 | the run in which a leftover done marker skips the fixup |
| `PostClone.CrashIsResumed` | provider/cocoon/resume.go:166-209 | a restart resumes a fixup or a ready wait if and only if it finds the VM, no hibernate is asked for, the lifecycle annotation is unset or Creating and the fixup has not failed, the fixup itself if and only if it is not marked done either, and a hibernate if and only if it finds the VM and one is asked for; a VM it does not find is left to `CreatePod` if and only if none is |
| `PostClone.OwedExactly` | provider/cocoon/resume.go:166-209 | hibernate, snapshot, fixup, NIC classification, ready wait or nothing: each answer if and only if, on all ten facts |
| `PostClone.CloneGetsReady` | provider/cocoon/postclone.go:57-176 | whatever the pod carried, a commit can become Ready on a fixed guest, with the done marker unless a failed one is stuck, by taking no failing branch |
| `PostClone.CrashedCloneGetsReady` | provider/cocoon/resume.go:54-115 | so can one that crashed anywhere before its fixup was marked, through the restart that resumes it |
| `PostClone.FixupFails` | provider/cocoon/postclone.go:109-194 | a fixup that runs out, a SAC pass that fails and a lease that does not land leave a failed pod, and the first two a failed marker |
| `PostClone.FailureSticks` | provider/cocoon/lifecycle.go:98-108 | over any run, a failed pod stays failed until another attempt, a newer generation, or a new pod or process |
| `PostClone.FailureStays` | provider/cocoon/lifecycle.go:98-108 | exactly which events take a pod out of a failure |
| `PostClone.FailedPodIsNotAwaited` | provider/cocoon/postclone.go:89-96 | a settled guest is awaited if and only if its pod has not failed |
| `PostClone.FailedMarkerSticks` | provider/cocoon/postclone.go:203-226 | no fixup overwrites a failed marker; only an update, an adoption or a new pod reads another |
| `PostClone.MarkerSaysHowFar` | provider/cocoon/postclone.go:203-226 | otherwise a mark that gets through says running or done |
| `PostClone.FailedFixupIsRetriedExactly` | provider/cocoon/resume.go:166-209 | a fixup that ran out is tried again after a crash if and only if the VM is found, no hibernate is asked for, and neither its marker nor its failure had got through to a pod still being created |
| `StartupReconcile.ReconcileStaleCreates` | provider/cocoon/reconcile.go:135-176 | a VM is kept, watched, gone or given to the orphan policy if and only if its record and the answers of verb and inspect say so, none twice |
| `StartupReconcile.SettleExactly` | provider/cocoon/reconcile.go:135-176 | terminal exactly when past creating and found stopped; watched exactly when the verb erred or was busy or the inspect did not settle it; gone exactly when collected or not found; standing otherwise |
| `StartupReconcile.IndexVMs` | provider/cocoon/reconcile.go:54-61 | the lookup maps hold every kept VM under its ID and its name, and only kept VMs; the last of a name wins |
| `StartupReconcile.MatchPods` | provider/cocoon/reconcile.go:70-111 | each pod is tracked with what it matches and with nothing else |
| `StartupReconcile.MatchIsItsOwn` | provider/cocoon/reconcile.go:70-111 | a pod is tracked with its annotated VM, or without one with a standing VM of its name, if and only if there is one |
| `StartupReconcile.OrphanPass` | provider/cocoon/reconcile.go:122-127 | the orphan policy meets exactly the unmatched kept VMs and the terminal placeholders, each once |
| `StartupReconcile.EveryVMIsSorted` | provider/cocoon/reconcile.go:24-176 | every listed VM is tracked, orphaned, watched or gone, the last three each if and only if its record and the answers say so, and they exclude each other; a tracked VM is also in one of them if and only if an unmanaged annotation names a placeholder that settled that way |
| `StartupReconcile.WatchBusyCreate` | provider/cocoon/reconcile.go:179-230 | the watcher gives its VM to the orphan policy, indexes it, or finds it gone, each if and only if the first round that is not undecided says so |
| `StartupReconcile.TrackedMeetsPolicyExactly` | provider/cocoon/reconcile.go:79-85 | a VM some pod is tracked with meets the orphan policy, at startup or through its watcher, if and only if an unmanaged annotation names a placeholder that is terminal or that its watcher finds so |
| `StartupReconcile.CondemnedCanBeNamed` | provider/cocoon/reconcile.go:194-230 | such pods and placeholders exist, for startup and for the watcher |
| `StartupReconcile.Reconcile` | provider/cocoon/reconcile.go:24-132 | the whole pass: every pod adopts its own VM, every listed VM is sorted, none meets the policy twice at startup, and exactly when a tracked one meets it |
| `LeaseCache.Parse` | network/dhcp.go:92-111 | dropping rows without a parseable expiry loses no lookup |
| `LeaseCache.BuildIndex` | network/dhcp.go:80-83 | the index answers as a scan for the last matching lease would |
| `LeaseCache.LeaseParser.Install` | network/dhcp.go:76-89 | the installed index answers every key as a last-match scan of the rows read, under the stamp taken before the read |
| `LeaseCache.LeaseParser.Refresh` | network/dhcp.go:65-90 | succeeds exactly on a stat and either a current stamp or a read; an error changes nothing |
| `LeaseCache.RefreshInstalls` | network/dhcp.go:65-90 | with writes anywhere in between, a refresh is over at its check if and only if the cache bears the stamp its stat saw, and otherwise installs the file as its read saw it under that stamp |
| `LeaseCache.LeaseParser.Lookup` | network/dhcp.go:52-62 | returns the last row of that MAC, case folded, if it has not expired, and nothing else |
| `LeaseCache.RefreshEndsFreshExactly` | network/dhcp.go:65-90 | every refresh of every run ends with an index no older than its call if and only if no two file versions share mtime and size |
| `LeaseCache.RepeatedStampIsMissed` | network/dhcp.go:70-75 | the run in which a repeated stamp hides a new version |
| `LeaseCache.LookupIsFreshExactly` | network/dhcp.go:52-62 | from its call on, a lookup reads an index no older than the call, whatever races, if and only if no refresh sits on an older read at that moment (one direction for files whose versions differ in mtime or size) |
| `LeaseCache.SlowStoreIsRead` | network/dhcp.go:64-90 | for each such refresh, the run in which the lookup reads what it stored late |
| `LeaseCache.LookupCanBeStale` | network/dhcp.go:52-90 | such a moment is reached even when all stamps differ |
| `Probes.RunAgent` | probes/probes.go:132-172 | readiness is whether one of the last three results, the synchronous first one included, was ready; the callback fires exactly at its changes; the sleep is five seconds while ready and between a tenth and one second otherwise |
| `Probes.DebouncedIsWindow` | probes/probes.go:148-171 | the failure counter implements a window of three |
| `Probes.FlipsAreEarned` | probes/probes.go:148-171 | the callbacks are exactly the third failures after a success and the successes after none in the last three results |
| `Probes.BackoffShape` | probes/probes.go:174-176 | the backoff grows from 100 ms, never exceeds 1 s and reaches it at the sixth step |
| `Probes.IntervalIs` | probes/probes.go:132-176 | the sleep is five seconds while ready, a tenth at the start and right after the third failure, and grows by half with every further failure up to one second |
| `Probes.Manager.Forget` | probes/probes.go:86-95 | removes agent and result together and cancels exactly the agent that held the key |
| `Probes.Manager.Register` | probes/probes.go:98-112 | a new agent holds the key and exactly its predecessor is cancelled |
| `Probes.Manager.SetOwned` | probes/probes.go:121-130 | records only for the agent that holds the key |
| `Probes.RetiredAgentIsSilent` | probes/probes.go:121-130 | once an agent has lost its key, every later state is what it would be without that agent's reports |
| `Probes.ReplacedAgentIsSilent` | probes/probes.go:86-112 | replacing or forgetting an agent silences it for good |
| `Probes.ForgottenStaysForgotten` | probes/probes.go:86-95 | a forgotten key has no result until a later start or set, whatever was in flight |
| `Probes.ResultIsLastReport` | probes/probes.go:72-130 | after any run, what is read for a key is the last report by a set or by the agent that then held the key, unless it was forgotten since |
| `VncPorts.Ports.Used` | provider/cocoon/macos.go:81-84 | the map walk collects exactly the reserved ports |
| `VncPorts.Ports.Claim` | provider/cocoon/macos.go:72-96 | the search loop returns the specified port; a port returned is the key's reservation from then on, and no other key's reservation changes |
| `VncPorts.Ports.Adopt` | provider/cocoon/macos.go:98-109 | the key holds exactly the port its guest serves, or none; node-unique ports stay so if and only if no other key holds that port |
| `VncPorts.Ports.Release` | provider/cocoon/create.go:160-163 | node-unique ports stay so, the key's port is free again, and the others are held as before |
| `VncPorts.FirstClaim` | provider/cocoon/macos.go:81-95 | a first claim gives the preferred port if it is free and in range, else the lowest free one, and fails if and only if all hundred are taken |
| `VncPorts.RepeatedClaimIsStable` | provider/cocoon/macos.go:78-80 | until the key is released or adopted, every claim repeats its port |
| `VncPorts.TwoClaimsDiffer` | provider/cocoon/macos.go:71-96 | whatever happens between two claims of different keys, short of a release or adoption of the first and a colliding adoption, their ports differ |
| `VncPorts.PortsAreUniqueExactly` | provider/cocoon/macos.go:71-109 | over any run, no two keys ever share a port if and only if no adoption names a display another key holds |
| `VncPorts.PortInSpanExactly` | provider/cocoon/macos.go:99-109 | over any run, a key's port is outside the span if and only if it was last adopted on display 100 or above |

## Left out

- HTTP, JSON, the cocoon CLI, the Kubernetes client and the OCI registry: their answers are parameters of the steps; the stored formats are not modelled.
- CRC32C: an arbitrary function. `PeerRestore.DeliveredIsServed` assumes, of the streams actually delivered, that the trailer is the checksum of what the server read and that different bytes do not share it.
- A file that changes while it is scanned or served; the model reads one content. `handleSlice` and its own length check are represented by the stream it serves.
- Restoring several files at once: files do not share bytes, so each is treated by itself. Staging directories and their rename are not modelled.
- int64 wrap-around inside `splitExtents`, `coalesceExtents` and `scanExtents`: sizes there are file sizes the server read itself.
- `podLock`: not modelled; the sections it serialises may interleave freely. Where that matters for a guest is stated above.
- A second VM of one name that runs on another node at the same time: a pod runs on one node, and its VM is removed or lost before the name boots elsewhere.
- A resolution of a wake source, and a create's evidence lookup with it, is one step; the boot is a later one.
- An upload that lands after its client has given up on it: a failed push landed by then or not at all.
- Whether the apiserver's annotation equals the intent at every moment: acknowledgement says that status was accepted for that UID, not that no older patch landed after it.
- Sleeps, deadlines and context cancellation: they only decide which event comes next. Fan-out limits and metrics are not modelled.
- The owed-work retry tables (`hibernating`, `pendingRecheck`, due times) and `dispatchResume`: only the decision `owedOpFor` makes, and only the resumed clone work is followed further.
- SAC and agent commands of the guest fixup: one step that succeeds or is exhausted. The dropped-NIC branch is decided by `owedOpFor` but not run through the clone machine.
- The clone machine of `PostClone` ends with its VM, so a hibernate that succeeds and the clone a wake makes are not followed; nor are the wake of a pod that startup tracks without this VM, and a fixup of a replaced pod that is still at work on it, whose marks and Ready its UID refuses.
- macOS guests other than their VNC ports; the two tables `macosVNC` and `macosLeftover` are not part of `Tables`.
- The snapshot reclaimer, the event watcher's transport, node status and exec/log streaming.
- `HibernateConserves.HibernateWakeRoundTrip`: speaks of a boot that looked for its source while the guest was owed, and without a registry of one on the node that saved, since nothing carries the snapshot elsewhere. Unmanaged pods attach to the VM their annotation names and boot none.
- `RestartCooldown.RestartsAreSpaced`: says nothing across a drop of the VM's record, which deletes the stamp.
- `StartupReconcile.Reconcile`: pods that are tracked without a VM, and the lifecycle seeding of tracked ones, are not part of its result.
- `LeaseCache.LeaseParser.Lookup`: case folding is a parameter; the expiry is a number the row parser gives or not.
- `ProviderObject.Provider.FlushLifecycle`: the loop with nothing in between; flushers that interleave with everything else are events of `ProviderRuns`.
