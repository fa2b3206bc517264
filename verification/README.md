# LeilFS operator: verified models

A Dafny model of the parts of the LeilFS Kubernetes operator whose correctness
does not follow from reading one function. `dafny verify dfyconfig.toml` checks
everything.

* **Master election** — any number of pods of the master StatefulSet, each with
  its init-config step, an sfsmaster process and the ha-sidecar shell loop,
  share one Lease. `LeaseProtocol` is a timed transition system: the clock, the
  operator, crashes, deletions, and the sending, landing, losing and answering
  of every API call are separate steps that interleave freely. `SidecarScript`
  and `Backoff` hold the shell code itself. `LeaseVersions`, `MasterExclusion`,
  `LockFreedom`, `LeaseHistory`, `LeaseTiming` and `LeaseFailover` prove what holds
  of all runs; `SecondMaster`,
  `BlindRenewal`, `StaleRenewals` and `SlowFailover` show where these results
  stop holding; `LeaseLiveness` and `LeaseHandover` show that the runs they
  speak of exist.
* **The observer** — `MasterObserver`, the operator's side: pod labels, Service
  selector and status follow the Lease.
* **Auto-discovered chunk servers** — `AutoDiscover` lists the writes of one
  reconcile, `AutoDiscoverReconciler` is the reconciler with every API call free
  to fail, `AutoDiscoverSafety` and `AutoDiscoverConvergence` prove crash safety,
  sweep safety and convergence, `AutoDiscoverWrites` says in labels and names what
  is written, and `AutoDiscoverService` which volumes get a chunk server.
* **Admission** — `Admission` and `ChunkIsolation`: the duplicate-storage check,
  and what an admitted spec guarantees about the volumes built from it.
* **Finalizer** — `Lifecycle`: the cluster object over all runs of reconciles and
  user actions.
* **Porcelain parsers** — `Porcelain` and `PorcelainRoundTrip`: `chunks-health`
  and `list-goals` invert the layouts documented beside them; `PorcelainErrors`
  says what they make of any other input.

## Where the code and its documentation differ

The model follows the code.

* The ADR asks for exactly one master at any time (line 15). Renewals and
  releases carry no `resourceVersion`, and a master that reads a foreign holder
  goes to the shadow branch without restarting. So exclusion rests on timing.
  `SecondMasterIffStale` says when two masters are possible at a given instant.
  `FreshMastersAreNotEnough` shows that it does not suffice that no live master
  ever lets its Lease age: an elected pod that is still to be restarted can
  overwrite the new holder with a renewal one second late.
* A sidecar that crashes in mid-PATCH leaves a renewal behind that can land after
  a younger one and put `renewTime` back. So calls of d seconds need
  10 + 4d < 30, not 10 + 3d < 30 (`CallBoundIsSharp`), and with restarts that
  take longer, max(restart, 10 + 2d) + 2d < 30 is exact (`BoundsAreSharp`).
* The release comment (controller line 2490) says shadows then see an expired
  Lease. The release stamps a new `renewTime`, so nobody can acquire for 30
  seconds, counted from that stamp or from an older renewal that is still on its
  way at that moment (`NoAcquisitionSoonAfterRelease`).
* The ADR bounds failover by 30 s plus the pod restart (line 156). The poll
  interval, the back-off and the calls come on top: an election by
  r + 30 + 5 + 15 + 2d is guaranteed (`FailoverIsBounded`), and that deadline is
  tight: runs reach it with nobody elected (`DeadlineIsTight`), and r + 49 + 2d
  without any failed read (`JustTooEarly`).
* One chunk server per discovered volume is intended, but names are cut to eight
  characters. For any store `EveryVolumeServedIff` gives the exact condition
  under which one reconcile delivers it; from an empty store this is that no two
  eligible volumes share a prefix (`ServedFromNothingIff`), but after a change of
  the selector a retained claim can starve a volume for good although that holds
  (`SelectorChangeStarves`).
* The joined key of the host-path check is injective only without NUL
  characters; the exact condition is `KeysCollideIff`.
* An unset shadow count stands for one shadow in the Role's name list and for
  none in the StatefulSet (`RolePodNames`). The sidecar calls a Lease expired at
  an age of 30 s, the operator only beyond 30 s.

## Model

| member | source | states |
|---|---|---|
| Backoff.OrdinalOfPodName | internal/controller/leilfscluster_controller.go:2575-2577 | The sed and `case` fallback recovers index i from `<cluster>-master-i`, for every cluster name, dashes and digits included |
| Backoff.NoOrdinal | internal/controller/leilfscluster_controller.go:2575-2577 | A name that neither is a number nor ends in a dash and digits counts as 0 |
| Backoff.RolePodNames | internal/controller/leilfscluster_controller.go:3047-3055 | The Role names every pod of the StatefulSet, without repetition and in ordinal order, and exactly one more when the shadow count is unset |
| Backoff.StaleDelay | internal/controller/leilfscluster_controller.go:2559-2582 | The delay is always in 0..15, and 0 for a changelog no more than 31 s old |
| Backoff.ComputeStaleDelay | internal/controller/leilfscluster_controller.go:2559-2582 | The script's chain of assignments computes the clamped delay |
| Backoff.DelayByOrdinal | internal/controller/leilfscluster_controller.go:2575-2582 | Without a changelog pod i of the StatefulSet waits i seconds up to 15, at any time |
| Backoff.DelayByAge | internal/controller/leilfscluster_controller.go:2559-2567 | With a changelog: no wait exactly up to an age of 31 s, 15 s exactly from 60 s on, and in between two seconds of age for each second of delay |
| Backoff.StalerWaitsLonger | internal/controller/leilfscluster_controller.go:2559-2582 | At a common instant the delay is monotone in changelog age, strictly so two seconds apart until the cap |
| SidecarScript.InitConfig | internal/controller/leilfscluster_controller.go:2346-2383 | init-config writes master exactly when the Lease was read and names this pod, freshness plays no part; it is the personality that the protocol's PodInit step gives the pod |
| SidecarScript.LoopTurn | internal/controller/leilfscluster_controller.go:2470-2601 | One whole turn of the loop, answers included: it writes only as holder or when the Lease it read has no renewTime or is 30 s old; blind PATCHes only as holder, a release only out of grace with the process dead; a compare-and-swap carries the revision read and is 0..15 s late; the pod deletes itself exactly after a release, a lost renewal or a won election; it sleeps 5 s after a failed read, a fresh Lease or a lost compare-and-swap, 65 after a won one, 10 after a renewal, 70 after a lost one, 60 after a release |
| SidecarScript.HowTurnsEnd | internal/controller/leilfscluster_controller.go:2450-2458 | The same numbers for the protocol's steps: an answer heard, an answer that never comes, a GET that fails |
| LeaseProtocol.OnlyActorMoves | internal/controller/leilfscluster_controller.go:2470-2601 | No step of the clock, the network or one pod changes another pod |
| LeaseVersions.VersionsOkRun | internal/controller/leilfscluster_controller.go:2588-2599 | On every run, any revision a pod holds for a compare-and-swap is either history or still names a Lease that was expired when the pod saw it, and renewTimes never lie in the future |
| LeaseVersions.AcquisitionTakesExpiredLease | internal/controller/leilfscluster_controller.go:2507-2593 | Every acquisition, however long the back-off and however late it lands, takes a Lease that has no renewTime or is at least 30 s old at that moment |
| LeaseVersions.NoAcquisitionSoonAfterRelease | internal/controller/leilfscluster_controller.go:2488-2496 | After a release, whatever happens to the Lease short of deletion, nobody acquires it for 30 s from the stamp of the release or of the oldest blind PATCH still out |
| LeaseVersions.OneAcquisitionPerRevision | internal/controller/leilfscluster_controller.go:2588-2593 | For each resourceVersion at most one acquisition ever succeeds, also across deletion and re-creation of the Lease |
| LeaseVersions.PastRevisionNeverReturns | internal/controller/leilfscluster_controller.go:2909-2946 | The Lease never goes back to a revision it has left, across deletion and bootstrap too |
| LeaseVersions.RevisionMovesByWrites | internal/controller/leilfscluster_controller.go:2588-2598 | Between two states either the Lease is the same or some write, creation or deletion lies between them |
| LockFreedom.CarriedWasRead | internal/controller/leilfscluster_controller.go:2471-2479 | Any revision that a pod means to use or has sent was read by that pod itself earlier in the run |
| LockFreedom.RejectionMeansProgress | internal/controller/leilfscluster_controller.go:2588-2598 | Lock-freedom: every refused compare-and-swap was preceded by its sender's read of the revision it carries, and a write, creation or deletion of the Lease lies between that read and the refusal |
| LeaseHistory.WhatPatchesWrite | internal/controller/leilfscluster_controller.go:2492-2499 | The content after each of the three PATCHes, field by field; a refused one writes nothing; the revision moves exactly when the content does |
| LeaseHistory.AcquireTimeIsLastElection | internal/controller/leilfscluster_controller.go:2588-2593 | On every run acquireTime is the stamp of the last election since the Lease was created, and unset exactly if there was none |
| LeaseHistory.StartedWhenSaid | internal/controller/leilfscluster_controller.go:2462-2468 | On every run START_EPOCH is the moment at which the sidecar process that uses it was started |
| LeaseHistory.ReleaseRespectsGrace | internal/controller/leilfscluster_controller.go:2481-2495 | On every run a release is sent only by a pod that has read its own name, with sfsmaster dead, and after its sidecar has run for the whole grace period |
| MasterExclusion.NewClaim | internal/controller/leilfscluster_controller.go:2341-2383 | A pod becomes a claimant (master, reader of its own name, sender of a blind PATCH) only by a read at which the Lease names it |
| MasterExclusion.ClaimSurvives | internal/controller/leilfscluster_controller.go:2481-2505 | While the Lease of a claimant is fresh, only that claimant's own renewals and releases rewrite it |
| MasterExclusion.ExclusiveClaimsStep | internal/controller/leilfscluster_controller.go:2470-2601 | Every step from a punctual state keeps: one claimant at most, it is the holder or has released |
| MasterExclusion.AtMostOneMaster | internal/controller/leilfscluster_controller.go:2341-2383 | On every run of any number of pods in which no claimant's Lease has reached 30 s, at most one pod runs as master, and it is the holder or has released |
| SecondMaster.SecondMasterIffStale | internal/controller/leilfscluster_controller.go:2478-2518 | With a pod in line (master, named by the Lease, reader of its own name or with a renewal out), two masters are possible within the instant if and only if the Lease is not fresh or a blind PATCH with a 30 s old stamp is still out |
| SecondMaster.StaleMeansTwo | internal/controller/leilfscluster_controller.go:2478-2518 | From any state with a stale Lease and a pod in line, another pod can take over and both end up as masters, no time passing |
| BlindRenewal.FreshMastersAreNotEnough | internal/controller/leilfscluster_controller.go:2497-2505 | From every initial state with two pods and for every grace period some run ends with two masters although in all its states a live master's Lease is fresh, no pod lingers after deleting itself and no call takes more than one second |
| LeaseTiming.OnTimeMeansPunctual | internal/controller/leilfscluster_controller.go:62-75 | Within the bounds, the place of a claimant in its poll-renew cycle, or the age of its last PATCH if it is gone, implies that its Lease is younger than 30 s |
| LeaseTiming.CycleStarts | internal/controller/leilfscluster_controller.go:2470-2601 | Whatever a pod is doing when a PATCH at most one call old makes or keeps it holder, it is on schedule, renewTime moving back included |
| LeaseTiming.TimingOkStep | internal/controller/leilfscluster_controller.go:2462-2505 | Every step of an on-time run, crashes, deletions and timeouts in mid-PATCH included, keeps the holder inside its cycle and every late PATCH within bounds |
| LeaseTiming.LiveMasterKeepsLease | internal/controller/leilfscluster_controller.go:2462-2505 | On every on-time run and for every startupGracePeriod, a live master's Lease never ages to 30 s and names it unless it has released; for prompt restarts, short back-offs and no failed reads the bound is 10 + 4d < 30 |
| LeaseTiming.TimedRunsAreExclusive | internal/controller/leilfscluster_controller.go:2470-2601 | On every on-time run there is never more than one master |
| StaleRenewals.BoundsAreSharp | internal/controller/leilfscluster_controller.go:2462-2505 | Without failed reads and with short back-offs, a live master's Lease stays fresh on all on-time runs if and only if max(restart, 10 + 2d) + 2d < 30 |
| StaleRenewals.FeasibleIsSharp | internal/controller/leilfscluster_controller.go:62-75 | For every restart time of at least 10 + 2d, the feasibility condition of the timing theorem is exact |
| StaleRenewals.CallBoundIsSharp | internal/controller/leilfscluster_controller.go:2497-2505 | With calls of at most d seconds, restarts as quick as the cycle or quicker, no failed reads and no back-off, a live master's Lease stays fresh on all on-time runs if and only if 10 + 4d < 30 |
| StaleRenewals.SlowCallsLoseExclusion | internal/controller/leilfscluster_controller.go:2497-2505 | Beyond that bound some on-time run comes to a state from which two masters are possible at once |
| LeaseFailover.OnItsWayStep | internal/controller/leilfscluster_controller.go:2506-2601 | No step of anybody but an acquisition sets a polling shadow back on its way to a compare-and-swap with the current revision |
| LeaseFailover.StillWaiting | internal/controller/leilfscluster_controller.go:2506-2601 | As long as nobody has acquired, the record is the abandoned one and the shadow is on schedule |
| LeaseFailover.FailoverIsBounded | internal/controller/leilfscluster_controller.go:2507-2600 | If the last renewal is stamped r and the holder sends nothing more, another pod has become the holder by r + 30 + 5 + 15 + 2d on every interleaving |
| LeaseFailover.NeverStuck | internal/controller/leilfscluster_controller.go:2507-2600 | Until then the polling shadow, or the server serving it, always has a step to take, so the bound is not met by a stopped clock |
| SlowFailover.DeadlineIsTight | internal/controller/leilfscluster_controller.go:2506-2601 | For every d and every start with an expired Lease and the shadow just asleep, some run reaches the very deadline of FailoverIsBounded with nobody elected |
| SlowFailover.JustTooEarly | internal/controller/leilfscluster_controller.go:2513-2518 | For every d, a shadow that polls at age 29 s can leave the Lease unclaimed until r + 49 + 2d without any failed read |
| SlowFailover.StartsHappen | internal/controller/leilfscluster_controller.go:2470-2476 | Such a start, at r + 30, is reached on a run from every initial state with two pods |
| LeaseLiveness.OneCycle | internal/controller/leilfscluster_controller.go:2497-2505 | From one renewal of a steady master an on-time run leads to the next |
| LeaseLiveness.MasterCanStay | internal/controller/leilfscluster_controller.go:2588-2593 | From any initial state and for any number of periods some on-time run elects p and keeps it master and holder |
| LeaseHandover.OneHandover | internal/controller/leilfscluster_controller.go:2506-2601 | A master stops beside a polling shadow; on an on-time run the shadow pauses while the Lease is fresh, takes it at 30 s, comes up as master, and the old master returns as its shadow |
| LeaseHandover.HandoversHappen | internal/controller/leilfscluster_controller.go:2470-2601 | From any initial state with two pods, for any bounds and any number of handovers, some on-time run goes through them all |
| MasterObserver.Observer.CountReadyShadows | internal/controller/leilfscluster_controller.go:3215-3230 | ReadyShadows is the number of ready pods other than the active master, 0 if they cannot be listed |
| MasterObserver.Observer.RelabelPods | internal/controller/leilfscluster_controller.go:2983-2989 | After the loop a pod is labelled exactly if it is the holder, except where its own patch failed |
| MasterObserver.Observer.ReconcileMasterHA | internal/controller/leilfscluster_controller.go:2906-2999 | With each call free to fail, the whole new state and the error are those of the specification of one observation |
| MasterObserver.MissingLeaseIsCreated | internal/controller/leilfscluster_controller.go:2924-2946 | With no Lease an empty one is created, without holder and renewTime, unless that call fails; labels, selector and master stay |
| MasterObserver.UnheldLeaseOnlyCounts | internal/controller/leilfscluster_controller.go:2948-2958 | An unheld Lease changes nothing but the shadow count |
| MasterObserver.StaleLeaseClearsMaster | internal/controller/leilfscluster_controller.go:2960-2976 | A Lease more than 30 s old clears the recorded master and changes no label or selector |
| MasterObserver.FreshLeaseMovesMaster | internal/controller/leilfscluster_controller.go:2978-2998 | Any other held Lease moves labels, selector and status in this order; what has happened when a call fails, pod by pod |
| MasterObserver.UnreadLeaseStopsTheLook | internal/controller/leilfscluster_controller.go:2925-2928 | A Lease that cannot be read leaves everything as it is |
| MasterObserver.HaOffDeletesLease | internal/controller/leilfscluster_controller.go:2909-2917 | With HA off the Lease is deleted unless a call fails, and nothing else changes |
| MasterObserver.OneCleanLookStabilises | internal/controller/leilfscluster_controller.go:2978-2998 | From any view, one error-free look at a fresh holder leaves exactly that pod labelled and selected, status and shadow count right, and a second look changes nothing |
| MasterObserver.FailedPatchesKeepLabels | internal/controller/leilfscluster_controller.go:2984-2989 | With failing patches, a wrong label survives exactly on the pods whose patch failed |
| MasterObserver.LabelledPodWasHolder | internal/controller/leilfscluster_controller.go:3153-3164 | On every run of observations, failures, holder changes and pod events, a labelled pod was once observed as fresh holder or labelled from the start |
| AutoDiscover.PvMatchesSelector | internal/controller/leilfscluster_controller.go:1402-1418 | The loop decides: every selector key present with the wanted or an empty value; the disk label when the selector is empty; in whatever order the map comes |
| AutoDiscover.SetNameByPrefix | internal/controller/leilfscluster_controller.go:1226-1236 | Two volumes share a resource name exactly if they share their first eight characters |
| AutoDiscover.PassRunsItsOps | internal/controller/leilfscluster_controller.go:1153-1279 | The listed writes, run in order, make up the create phase followed by the sweep |
| AutoDiscoverWrites.EligibleIffWanted | internal/controller/leilfscluster_controller.go:1194-1236 | A volume gets a chunk server exactly if its labels fit, it has a node, is Available or Bound and is not labelled disk-state=Missing; the name is cluster, "-chunk-ad-" and at most eight characters |
| AutoDiscoverWrites.PutsIff | internal/controller/leilfscluster_controller.go:1236-1271 | A reconcile puts an object exactly if it is one of the four of such a volume |
| AutoDiscoverWrites.DeletesIff | internal/controller/leilfscluster_controller.go:1310-1328 | The sweep deletes an object exactly if it is one of the four of a listed claim whose volume is gone or labelled disk-state=Missing |
| AutoDiscoverWrites.HealthyDisksKeepTheirSets | internal/controller/leilfscluster_controller.go:1314-1318 | On every history a set whose volume is listed without the label disk-state, or with any other value, loses nothing in that step |
| AutoDiscoverReconciler.Reconciler.EnsureAutoDiscoverPvc | internal/controller/leilfscluster_controller.go:1355-1398 | An existing claim is left alone, a missing one created, or the call fails with the write done or not |
| AutoDiscoverReconciler.Reconciler.ReconcileVolume | internal/controller/leilfscluster_controller.go:1236-1271 | PVC, Service, ConfigMap, StatefulSet in this order, stopping at the first failure |
| AutoDiscoverReconciler.Reconciler.DeleteResourceSet | internal/controller/leilfscluster_controller.go:1339-1352 | The claim is deleted last; a failure leaves a prefix of the four deletions |
| AutoDiscoverReconciler.Reconciler.Sweep | internal/controller/leilfscluster_controller.go:1296-1331 | Deletes the sets of exactly the listed claims whose volume is gone or Missing, or a prefix of that on failure |
| AutoDiscoverReconciler.Reconciler.ReconcileAutoDiscoverChunkServers | internal/controller/leilfscluster_controller.go:1153-1279 | Whatever fails, the store ends after a prefix of the pass's writes, after all of them on success; a disabled cluster writes nothing |
| AutoDiscoverSafety.PassGuarded | internal/controller/leilfscluster_controller.go:1310-1352 | At each write of a pass, from any store: nothing but a claim is put without its claim, and nothing is deleted unless its claim is owned and its volume gone or Missing, the claim only when nothing else of its set is left |
| AutoDiscoverSafety.GuardedPrefixesSafe | internal/controller/leilfscluster_controller.go:1236-1271 | Such writes keep every StatefulSet, Service and ConfigMap together with its PVC at every moment |
| AutoDiscoverSafety.HistoriesAreSafe | internal/controller/leilfscluster_controller.go:1236-1352 | Crash safety: on every history of reconciles cut off anywhere, volume changes and configuration changes, also inside each reconcile |
| AutoDiscoverSafety.ProtectedSetsLoseNothing | internal/controller/leilfscluster_controller.go:1153-1157 | Sweep safety over histories: a set whose volume is listed without disk-state Missing, or whose claim is foreign, loses nothing; a disabled cluster's step changes nothing |
| AutoDiscoverConvergence.PassSlotOf | internal/controller/leilfscluster_controller.go:1153-1331 | The imperative pass over the whole store is an independent function of each name: the first volume gets the claim, the last one the node, then the sweep's verdict |
| AutoDiscoverConvergence.PassSlotFixed | internal/controller/leilfscluster_controller.go:1153-1331 | One name needs a second pass exactly when its condemned claim blocks an eligible volume |
| AutoDiscoverConvergence.ThreePassesEqualTwo | internal/controller/leilfscluster_controller.go:1153-1331 | Three clean passes equal two, from any store and for any volume list, shared prefixes included, in any listing order |
| AutoDiscoverConvergence.OnePassIsFixedIff | internal/controller/leilfscluster_controller.go:1153-1331 | One pass is a fixed point if and only if no condemned claim sits on a name an eligible volume needs |
| AutoDiscoverConvergence.OnePassMeetsSpecification | internal/controller/leilfscluster_controller.go:1153-1331 | With distinct prefixes one pass is a fixed point and leaves exactly the sets of the specification, each eligible volume with its full set |
| AutoDiscoverService.EveryVolumeServedIff | internal/controller/leilfscluster_controller.go:1226-1271 | From any store, a clean pass gives every eligible volume its own set if and only if each is servable: its name's claim is not about to be swept and is its own or foreign (or, if new, made for it), and the last volume of its name is on its node |
| AutoDiscoverService.ServedFromNothingIff | internal/controller/leilfscluster_controller.go:1226-1236 | From an empty store that is so if and only if no two eligible volumes share their first eight characters |
| AutoDiscoverService.StarvedForGood | internal/controller/leilfscluster_controller.go:1310-1316 | A retained claim of another listed volume on the name denies an eligible volume its set in this pass and leaves it so for the next |
| AutoDiscoverService.SelectorChangeStarves | internal/controller/leilfscluster_controller.go:1159-1164 | A history of one clean reconcile and a selector change comes to such a store although no two eligible volumes ever share a prefix |
| AutoDiscoverService.TiersTakeTurns | internal/controller/leilfscluster_controller.go:1402-1418 | Two disks of one prefix with different tier labels are a concrete input of this kind |
| AutoDiscoverConvergence.CleanPassLeaksNothing | internal/controller/leilfscluster_controller.go:1281-1331 | After any failures, a clean pass leaves no object without a claim that is foreign or still wanted |
| AutoDiscoverConvergence.HistoriesNameClaims | internal/controller/leilfscluster_controller.go:1235-1238 | Owned claims are named after their volumes on every history, so the specification's premise is always met |
| Admission.Visit | api/v1alpha1/leilfscluster_webhook.go:200-239 | One map update of the inner loop reports a duplicate exactly if there is an earlier twin, and keeps both maps pointing at first occurrences |
| Admission.ValidateChunkServerMountPaths | api/v1alpha1/leilfscluster_webhook.go:183-246 | The error list holds exactly the pairwise violations with their first owners, in order, and its length is the number of non-first occurrences per key |
| Admission.OwnerUnique | api/v1alpha1/leilfscluster_webhook.go:183-246 | A mount is reported at most once per kind |
| ChunkIsolation.FlaggedIffEarlierTwin | api/v1alpha1/leilfscluster_webhook.go:183-246 | The map form equals the quadratic one: mount (i,j) is flagged exactly if an earlier mount has the same key |
| ChunkIsolation.TwinsAreSameStorage | api/v1alpha1/leilfscluster_webhook.go:186-190 | With NUL-free node names, equal keys mean the same claim, or the same host path on the same node |
| ChunkIsolation.KeysCollideIff | api/v1alpha1/leilfscluster_webhook.go:209 | Two different node names can yield one key if and only if one continues the other with a NUL |
| ChunkIsolation.ValidateChunkServerNames | api/v1alpha1/leilfscluster_webhook.go:140-155 | Exactly the servers whose name occurs earlier are reported, each once, in order, with the first owner |
| ChunkIsolation.NamesAdmittedIff | api/v1alpha1/leilfscluster_webhook.go:132-155 | No report if and only if names are pairwise distinct |
| ChunkIsolation.ValidateClusterSpec | internal/controller/leilfscluster_controller.go:110-153 | Reports exactly the unsupported settings, each spelt out, and the mounts with a path but neither host path nor claim, each once and in the source's order |
| ChunkIsolation.BuildChunkVolumes | internal/controller/leilfscluster_controller.go:1090-1122 | Volume i is named data-i, mounted at path i, and backed by the host path if there is one, else by the claim, else by an emptyDir |
| ChunkIsolation.AdmissionImpliesIsolation | internal/controller/leilfscluster_controller.go:1090-1122 | An admitted spec yields distinct object names per kind, no storage shared by any two volumes of any servers, and an emptyDir only for an empty path |
| ChunkIsolation.StorageAdmittedIff | api/v1alpha1/leilfscluster_webhook.go:157-182 | With NUL-free node names the storage check passes if and only if no two mounts name the same storage |
| Lifecycle.Cluster.UpdateFinalizer | internal/controller/leilfscluster_controller.go:333-351 | A finalizer update with a stale version changes nothing, success with `want` means it is held; the finalizer is taken off only after a success of finalizeCluster, and the promise survives |
| Lifecycle.Cluster.Reconcile | internal/controller/leilfscluster_controller.go:313-387 | With failures and user actions between any two calls, and told by the answers the calls gave: steps run exactly for a live cluster that was read and holds the finalizer, in order, up to the first failure or all 14; a deleted one runs none, is finalized, and let go exactly after that succeeds; none ever runs for a finalized cluster; every state passed through keeps the promise |
| Lifecycle.Cluster.Serve | internal/controller/leilfscluster_controller.go:329-354 | In every state of every history a cluster that owns anything carries the finalizer until finalizeCluster has succeeded |
| Porcelain.NonEmptyLines | internal/exporter/parser.go:472-482 | Computes the non-blank lines without their trailing CRs, whose meaning KeptBodies gives |
| Porcelain.ParseChunksHealth | internal/exporter/parser.go:233-275 | The single loop with its three lists equals parsing each line and splitting by tag, with the first bad line's error |
| Porcelain.ParseGoals | internal/exporter/parser.go:346-374 | The loop equals parsing each line, with the first bad line's error |
| PorcelainRoundTrip.KeptBodies | internal/exporter/parser.go:472-482 | Of any document of bodies, blank lines and CRs, exactly the bodies remain, in order |
| PorcelainErrors.EveryTextIsADocument | internal/exporter/parser.go:472-482 | Any input whatever is such a document, so the non-empty lines are characterised for every input |
| PorcelainErrors.WhiteSpaceIs | internal/exporter/parser.go:476 | Blank means the 25 Unicode white-space characters |
| PorcelainErrors.RowMeaning | internal/exporter/parser.go:235-272 | For any line: which fields make it an AVA, REP or DEL row and with which values, and otherwise which error, down to the first bad field |
| PorcelainErrors.FirstBadLine | internal/exporter/parser.go:233-275 | The report has one row per line, or the error is that of the first bad line |
| PorcelainErrors.GoalMeaning | internal/exporter/parser.go:353-372 | For any line: id, name and the rest without its outer quotes, or which error |
| PorcelainErrors.FirstBadGoal | internal/exporter/parser.go:346-374 | All goals in order, or the error of the first bad line |
| PorcelainRoundTrip.FieldsOfJoin | internal/exporter/parser.go:236 | Splitting inverts joining for words without white space |
| PorcelainRoundTrip.RowRoundTrip | internal/exporter/parser.go:212-230 | A row printed in its documented layout parses to itself, or is rejected exactly when a counter needs more than 64 bits |
| PorcelainRoundTrip.HealthRoundTrip | internal/exporter/parser.go:205-275 | Any interleaving of printed rows with blank lines and CRs parses to exactly those rows split by tag in order, or to an error exactly when a counter is 2^64 or more |
| PorcelainRoundTrip.PrintedRowsAreBodies | internal/exporter/parser.go:212-230 | Every printed row is a body such documents may hold, so the round trip is about all rows |
| PorcelainRoundTrip.RowCountsSumToLines | internal/exporter/parser.go:233-275 | On any accepted input the three row counts sum to the non-empty lines |
| PorcelainRoundTrip.JoinOfFields | internal/exporter/parser.go:353-360 | Splitting and joining again collapses runs of white space |
| PorcelainRoundTrip.CollapseFixedIff | internal/exporter/parser.go:360 | Collapsing changes nothing if and only if all white space is single spaces |
| PorcelainRoundTrip.GoalRoundTrip | internal/exporter/parser.go:354-372 | A printed goal comes back with its definition collapsed, or is rejected exactly when its id needs more than 64 bits |
| PorcelainRoundTrip.GoalsRoundTrip | internal/exporter/parser.go:346-374 | Printed goals come back collapsed, and unchanged if and only if every definition has single spaces only |

## Left out

- AtMostOneMaster: its premise covers every claimant, that is also a pod that has just read its own name or has a renewal or release in flight, not masters alone, because with masters alone the statement is false (FreshMastersAreNotEnough).
- SecondMasterIffStale: speaks of one instant and of states that still satisfy the exclusion invariant; it does not classify runs that have already lost it.
- TimedRunsAreExclusive: assumes that no PATCH lands more than `call` seconds after it was sent, that the calls of pods that matter (masters, holders, readers of their own name) are answered within `call`, that a holder's sidecar is back within `restart` and loses at most `retry` to failed reads, that a pod which released or asked for its own deletion is gone before renewTime + 30, and that the Lease is not deleted while the role is claimed; the code enforces none of these. Nothing is asked of other pods.
- BoundsAreSharp: exactness is shown for runs without failed reads and for back-offs that the second clause of `Feasible` admits; longer back-offs of a holder that does not yet know that it is one need a larger `restart`.
- FailoverIsBounded: about one shadow whose own calls succeed and that is not restarted; which shadow wins is left open, as the script's comment does.
- LeaseProtocol models one shared whole-second clock; skew between pods and a renewTime that `date` cannot read (which the script takes as 1970) are not modelled.
- HTTP, tokens, TLS and the sed extraction of JSON fields: a GET delivers the record or fails, a PATCH is atomic at the server.
- The API server is taken as linearizable; stale informer caches and an `AlreadyExists` answer to the operator's Lease creation are not modelled.
- Only operator, sidecars and deletions touch the Lease; other clients editing its fields are not modelled in the election (MasterObserver allows any Lease content).
- sfsmaster is a process-alive bit and a changelog time; metadata synchronisation is not modelled.
- MasterObserver leaves out reconcileMasterService beyond the selector (it may set it or fail as an event of the run) and how readiness is computed.
- AutoDiscover: PVC-protection and garbage collection are immediate deletions; reading the node from a volume's affinity is a field of the volume; a missing volume label and an empty one are both "not Missing".
- AutoDiscover: one namespace and one cluster; a manual chunk server named `ad-…` that collides with a discovered one is not modelled, nor are the contents of Services and ConfigMaps.
- OnePassMeetsSpecification: claims the operator does not own, but that have a discovered set's name, count as already serving it, because the reconciler accepts any existing PVC of that name.
- Lifecycle: finalizers of other controllers, status updates and the contents of the sub-reconcilers; a sub-reconciler either creates something or not, and fails or not.
- Porcelain: strings are sequences of characters, invalid UTF-8 is not modelled; the other parsers have the same shape and add nothing harder.
- NodePort range checks, defaulting, PodSpec construction, probes, NFS, web UI, expose, metaloggers, metrics, the kubectl plugin, generated code and packaging: no property beyond a reading of one function.
- Replica counts are natural numbers; the overflow of 1 + replicas at the largest 32-bit value is not modelled.
