# Verification of the dynamic NFS provisioner

A Dafny model of the OpenEBS dynamic NFS provisioner and proofs about it. `dafny verify dfyconfig.toml` checks
all of it. There are three parts.

**Provision, delete, collect.** One NFS volume is a backend claim, a Deployment and a Service.
`ServerJob.dfy` gives every step of creating and of deleting one, each at most one API call on these objects with
the hook that goes with it, and `SweepMachine.dfy` every step of a garbage collector sweep. The same two step
functions are used twice:

- `Provisioner.dfy` and `Tracker.dfy` hold the provisioner's methods as classes that change an API server, the
  call's options and the tracker. Each method is proved to take the machine's steps: the end the machine would
  reach from where the method starts is the end it would reach from where the method stops. `Calls.dfy` and
  `Outcomes.dfy` say what a whole Provision or Delete comes to without the machine, by which of its calls go well,
  and the methods are proved against that too. `Solo.dfy` and `SweepSolo.dfy` prove what undisturbed runs achieve.
- `Protocol.dfy` interleaves any number of Provision and Delete calls, the sweep, users, storage, API failures
  and restarts, one step at a time. Adding a PV to the tracker and taking it out again are steps of their own.
  `Invariant.dfy` and `Preservation.dfy` give an inductive invariant, `Safety.dfy`, `Leaks.dfy` and `Progress.dfy` what
  follows for all runs, and `Limits.dfy` the two races that remain, with the exact condition for each.
  `Bridge.dfy` shows that an undisturbed run of the methods is a run of the protocol; `Runs.dfy` puts runs
  together.

**Node affinity.** `Strings.dfy` states the functions of Go's strings package that are used, `NodeAffinity.dfy`
the parser, and `AffinityRoundTrip.dfy` the documented grammar, its printer and the round trip.

**Hooks.** `Finalizers.dfy` and `Hook.dfy` hold the metadata edits and the engine that runs them,
`HookTheorems.dfy` exactly when the order of Go's map iteration does not matter, and `HookEffects.dfy` what each
field of the configuration does to an object.

`Basics.dfy`, `Text.dfy` and `Kube.dfy` are shared: options, characters and names, and the API server's objects.

## Environment

The controller library that calls Provision and Delete is not part of this model. The protocol assumes:

- One provisioner process, with one sweep at a time. A restart loses the calls, the sweep and the tracker.
- UIDs are never used twice and contain no white space. The PV of a claim is named `pvc-` and the claim's UID.
- No Provision call is made for a claim that is itself a backend claim. Of such a volume the sweep itself may delete
  the claim, and then the volume; `SweepSolo.DependentListing` is about one sweep over such volumes.
- A Provision call starts only while the claim with its UID exists. The claim may vanish before the call has
  registered with the tracker, and at any later time.
- A Delete call starts only when the PV exists and its claim is gone. Two calls on one PV never overlap, from
  start to return.
- A failing API call has no effect, or has taken effect by the time it returns.
- Nobody but the provisioner creates or deletes `nfs-*` objects in the server namespace. Everything else may
  change at any time: claims with arbitrary labels, claim phases, and PVs of any name.
- Deleted objects are gone at once; finalizers do not delay deletion.

Under these the source leaves two races open. Both are in `Limits.dfy`.

1. *A late registration.* A Provision call whose claim vanishes before the call has registered may register when
   the sweep is already past its tracker check. Sweep and call then both work on the PV. This is the only way: the
   tracker keeps the two apart over a run if and only if no call registers late in it (`Safety.ExclusionIff`), and
   a call that registers while its claim exists is never late. The chain and the exclusion are stated for the PVs to
   which it has not happened, which `State.raced` records.
2. *A PV read too early.* The sweep can delete the objects of a PV that comes into being after the sweep has read
   that it is absent, even though a Provision call for it had finished. This again is the only way: the sweep is at
   some point deleting for a PV that exists if and only if the PV appears while the sweep is deleting for it
   (`Limits.PresentPvSparedIff`). It needs the claim to be gone, so volumes in use are safe.

The first race can leave a Deployment or a Service without its backend claim. The sweep lists only backend claims, so
it does not find them: what a sweep owes an abandoned PV, one without claim, PV or call, it achieves exactly if *the
backend claim is still there, or nothing is left* (`Leaks.LeakFreedomIff`). Where no call registered late that always
holds (`Leaks.LeakFreedom`); where it does not, no later sweep helps either (`Leaks.OrphanIsNeverSwept`).

## Model

| member | source | states |
|---|---|---|
| Safety.DurableVolumes | provisioner/provisioner.go:155-213 | in every run, after a Provision call on a PV has returned Finished, its backend claim, Deployment and Service are all there in every later state in which the claim with that UID exists |
| Safety.ResourceChain | provisioner/helper_kernel_nfs_server.go:581-638 | in every reachable state Service implies Deployment implies backend claim, for every PV no Provision call registered late on, across failures, restarts, retries and a sweep deleting beside a Delete call |
| Safety.SweepExcludesProvision | provisioner/garbage_collector.go:69-112 | in every reachable state in which the sweep is past its tracker check for a PV, the PV's claim is gone and, unless one registered late, no Provision call on it is registered |
| Safety.ExclusionIff | provisioner/garbage_collector.go:90-93 | over any run from the start, sweep and registered Provision call are never both past that point for a PV if and only if no Provision call on it registered after the sweep's tracker check |
| Safety.RacedIff | provisioner/provisioner.go:158 | the history of late registrations holds exactly the PVs with such an event in the run |
| Safety.TimelyRegistration | provisioner/provisioner.go:155-159 | if every Provision call on a PV registers while the PV's claim exists, none is late |
| Limits.RaceCanHappen | provisioner/provisioner.go:155-159 | from every reachable state with an idle sweep, a live claim that no call works on and its backend claim there, a run leads to a Provision call about to register with the sweep past its tracker check |
| Limits.RaceBreaksChain | provisioner/helper_kernel_nfs_server.go:581-615 | from every such state, wherever the sweep stands behind its check, a run has the sweep deleting beside the registered call and ends with a Service without backend claim, and without Deployment unless the sweep had passed it before |
| Limits.RaceLeavesOrphan | provisioner/garbage_collector.go:90-111 | from every reachable state with a live claim that no call works on and an idle sweep, a run ends after a restart with an idle sweep, an abandoned PV, and a Service left of it without Deployment and backend claim |
| Leaks.OrphanIsNeverSwept | provisioner/garbage_collector.go:61-68 | a Deployment or a Service left without backend claim, claim and call outlives every sweep of every run in which no Delete call is made for its PV |
| Safety.OnlyStaleObjectsVanish | provisioner/garbage_collector.go:61-131 | whatever step is taken in a reachable state, an object of a PV disappears only if the claim is gone and, unless a Provision call registered late, none is registered |
| Leaks.LeakFreedomIff | provisioner/garbage_collector.go:61-115 | one sweep without API errors, restart or new PV of that name leaves no object of a PV whose claim and PV were gone and on which no call worked, whatever other claims, calls and users do meanwhile, if and only if its backend claim was still there or nothing was left of it |
| Leaks.LeakFreedom | provisioner/garbage_collector.go:61-115 | so such a sweep cleans up after every such PV on which no Provision call registered late |
| Safety.TrackerExact | provisioner/pvc_tracker.go:49-68 | in every reachable state a PV is in the tracker if and only if a Provision or Delete call on it has registered and not yet unregistered, on every path to its return |
| Safety.BoundBeforeServing | provisioner/helper_kernel_nfs_server.go:594-609 | in every run, a Service exists only if an earlier step of a Provision call read that PV's backend claim as Bound |
| Safety.FinishedIsWired | provisioner/helper_kernel_nfs_server.go:552-577 | whether objects were created or found, when a Provision call that did not register late has come to its end with Finished the Service selects the Deployment's pods, the Deployment's volume names the existing backend claim, and the address is that Service's cluster IP or its name, the server namespace and `svc.cluster.local` between dots |
| Safety.ObjectsAreWired | provisioner/helper_kernel_nfs_server.go:243-506 | in every reachable state and for every PV, late registration or not: a Service selects its Deployment's pods, a Deployment's volume names the backend claim, and Deployment and backend claim carry name, namespace and UID of the PV's claim |
| Safety.Recognisable | provisioner/helper_kernel_nfs_server.go:138-185 | in every reachable state every backend claim matches the sweep's selector, carries the name, namespace and UID of the claim it was made for, and has a name from which the sweep recovers its PV |
| Preservation.StepKeeps | provisioner/garbage_collector.go:69-112 | every event of the protocol keeps the invariant behind the results above |
| Progress.LiveClaimCanBeProvisioned | provisioner/helper_kernel_nfs_server.go:581-615 | from every reachable state, whatever was left behind, a live claim that no call works on has a run that provisions it and returns Finished, with sweep, other calls and PVs standing still |
| Progress.DeadPvCanBeDeleted | provisioner/helper_kernel_nfs_server.go:619-638 | from every state an existing PV whose claim is gone and that no call works on has a run in which Delete returns without error and exactly the PV's objects are gone, with sweep and other calls standing still |
| Limits.SweepLosesOnlyMissedPvs | provisioner/garbage_collector.go:95-111 | in every run, if a sweep step removes an object of a PV that exists, then in the same sweep an earlier step read that this PV is absent, the sweep has been deleting for it since, and the PV appeared in between |
| Limits.PresentPvSparedIff | provisioner/garbage_collector.go:95-111 | over any run from the start, the sweep is at some point deleting for a PV that exists if and only if the PV comes into being while the sweep is deleting for it |
| Limits.SweepSparesPvItReads | provisioner/garbage_collector.go:95-105 | in every run, a PV that exists from some moment on at which the sweep is not deleting for it loses no object to the sweep |
| Limits.SweepMissesPvItReadTooEarly | provisioner/garbage_collector.go:95-111 | whenever the sweep is about to read an absent PV for one of its backend claims, some run ends with that PV existing and all its objects deleted |
| Limits.FinishedThenSwept | provisioner/garbage_collector.go:69-111 | from every reachable state with a live claim that no call works on, an idle sweep and no PV, some run has a Provision call return Finished and ends with the PV existing and all its objects deleted |
| Bridge.CallIsRun | provisioner/helper_kernel_nfs_server.go:581-638 | a registered call run alone to its end, with storage binding its claim at any time, is a run of the protocol with the same cluster and outcome |
| Bridge.ProvisionIsRun | provisioner/provisioner.go:155-213 | so is a whole Provision with its registration and the deferred removal from the tracker, which leaves tracker and calls as they were; it returns with the method's outcome and is recorded as Finished exactly if the method succeeds |
| Bridge.DeleteIsRun | provisioner/provisioner.go:220-276 | and a whole Delete, which returns without error exactly if the method does |
| Bridge.SweepIsRun | provisioner/garbage_collector.go:61-115 | a sweep run alone to its end is a run of the protocol with the same cluster, tracker and calls untouched |
| Bridge.CleanUpIsRun | provisioner/garbage_collector.go:61-115 | and so is the whole clean-up that begins with listing the backend claims |
| Solo.CrashResume | provisioner/helper_kernel_nfs_server.go:581-615 | creation stopped and started again any number of times, each time after any number of steps and failures, ends without error once nothing fails, in the cluster of one uninterrupted run |
| Solo.CrashResumeUnlessItFails | provisioner/helper_kernel_nfs_server.go:144-193 | the same when the last run and the uninterrupted one may fail too: whenever both end without error, they end in the same cluster |
| Solo.ResumeExactly | provisioner/helper_kernel_nfs_server.go:144-193 | the clusters are equal, UIDs, IPs and metadata included, where the server and the hooks assign the same in all runs |
| Solo.DeleteUndoesProvision | provisioner/helper_kernel_nfs_server.go:581-638 | from a cluster without objects of the PV, a Provision, successful or not, and then a Delete that succeeds give back the same cluster |
| Solo.EndsUnprovisioned | provisioner/helper_kernel_nfs_server.go:619-638 | deletion that succeeds removes exactly the PV's three objects; deletion that fails removes nothing else |
| SweepSolo.SweepRefinement | provisioner/garbage_collector.go:69-112 | a sweep alone and without errors leaves the initial cluster minus exactly the objects of stale PVs, for every order in which the claims are listed, if no listed item is kept by a claim that is itself the backend claim of a stale item before it |
| SweepSolo.SweepRefinementIff | provisioner/garbage_collector.go:69-112 | for properly named backend claims that condition is also necessary |
| SweepSolo.DependentListing | provisioner/garbage_collector.go:133-160 | and there are listings that violate it: a volume whose claim is itself a backend claim |
| SweepSolo.SweepIsolation | provisioner/garbage_collector.go:69-112 | whatever API errors hit other backend claims, a stale one whose own calls succeed loses all its objects, and one that is not stale, and whose PV no stale one is named for, keeps its objects in an independent listing |
| SweepSolo.ItemEffect | provisioner/garbage_collector.go:70-111 | for one backend claim and any failures: nothing changes unless it is stale, then only its own objects may go, and all of them do if no call fails |
| SweepSolo.StaleBackend | provisioner/garbage_collector.go:70-108 | the backend claim of a PV is stale exactly if its labels name no claim with that UID, and the PV is neither tracked nor there |
| ServerJob.JobTerminates | provisioner/helper_kernel_nfs_server.go:648-675 | every step of a call, each tick of the wait included, uses up a bound fixed when the call starts |
| Text.ScanInvertsBackendName | provisioner/garbage_collector.go:84-88 | scanning the name built for a PV gives back that PV if and only if the PV's name has no white space |
| Text.ScanExact | provisioner/garbage_collector.go:84-88 | scanning any name gives nothing without the prefix, and otherwise the first word behind prefix and blanks, or nothing if a newline comes first |
| Safety.DnsLabels | provisioner/helper_kernel_nfs_server.go:575-576 | the labels of the address are, in order, Service, namespace, svc, cluster and local |
| Outcomes.ProvisionOutcome | provisioner/provisioner.go:155-213 | a Provision run alone returns Finished if and only if configuration, every read and create call with its hook, the wait, the backend PV hook and the PV hook go well in their order; and each object is there at the end if and only if it was before, or its turn came and its create call took effect |
| Outcomes.DeleteOutcome | provisioner/helper_kernel_nfs_server.go:619-638 | a deletion run alone returns without error if and only if for each object in turn the read finds none, or the delete hook and the delete call succeed, and, with hooks, the NFS PV hook does; an object is left if and only if it was there and its turn does not come or its delete call has no effect |
| Outcomes.FailedDeleteHookStops | provisioner/helper_kernel_nfs_server.go:509-548 | with hooks, a failed delete hook on an object that is there ends the deletion with an error and leaves this object and those after it |
| Provisioner.NfsProvisioner.CreateBackendPVC | provisioner/helper_kernel_nfs_server.go:133-193 | takes the machine's steps; a failed read or create hook makes nothing and fails, a claim found is kept, otherwise the claim is made with the five labels spelled out, all else kept; on success it exists and the options name it |
| Provisioner.NfsProvisioner.CreateDeployment | provisioner/helper_kernel_nfs_server.go:243-388 | the same for the Deployment, with its four labels and the claim name the options hold |
| Provisioner.NfsProvisioner.CreateService | provisioner/helper_kernel_nfs_server.go:434-506 | the same for the Service, which selects the Deployment name the options hold |
| Provisioner.NfsProvisioner.WaitForPvcBound | provisioner/helper_kernel_nfs_server.go:648-675 | returns true if and only if the claim is there, some tick before the timer fires is the first to find it bound, and every read up to then is served; so a missing claim or a failed read ends the wait with an error; nothing but claim phases changes, within the tick budget |
| Provisioner.NfsProvisioner.RunBackendPVHook | provisioner/helper_kernel_nfs_server.go:599-604 | takes the machine's step, and succeeds exactly if the hook does |
| Provisioner.NfsProvisioner.CreateNFSServer | provisioner/helper_kernel_nfs_server.go:581-615 | takes the machine's steps in the order claim, Deployment, wait, hook, Service, and stops at the first error |
| Provisioner.NfsProvisioner.GetNFSServerAddress | provisioner/helper_kernel_nfs_server.go:552-577 | takes the machine's steps through to the address: the cluster IP read from the Service, or Service name, namespace and `svc.cluster.local` between dots |
| Provisioner.NfsProvisioner.ProvisionVolume | provisioner/provisioner.go:155-213 | ends where the machine ends, with its outcome and address; succeeds, and leaves each object, exactly as ProvisionOutcome has it; a failed configuration stops it after one call, with nothing created; on success all three objects exist and the claim is bound; every call is made with the PV in the tracker, and on every path the PV is out of it afterwards |
| Provisioner.NfsProvisioner.ProvisionKernel | provisioner/provisioner_kernel_nfs_server.go:36-175 | ends where the machine ends, with its outcome and address; a failed configuration stops it after one call, with nothing created; the tracker is not touched |
| Provisioner.NfsProvisioner.DeleteService | provisioner/helper_kernel_nfs_server.go:509-548 | takes the machine's steps; succeeds if and only if the read finds none, or hook and delete call succeed, deleting also after a failed read; the Service is left exactly if it was there and hook or call failed without effect |
| Provisioner.NfsProvisioner.DeleteDeployment | provisioner/helper_kernel_nfs_server.go:391-431 | takes the machine's steps; succeeds if and only if the read finds none, or hook and delete call succeed, deleting also after a failed read; the Deployment is left exactly if it was there and hook or call failed without effect |
| Provisioner.NfsProvisioner.DeleteBackendPVC | provisioner/helper_kernel_nfs_server.go:196-240 | takes the machine's steps; succeeds if and only if the read finds none, or hook and delete call succeed, deleting also after a failed read; the backend claim is left exactly if it was there and hook or call failed without effect |
| Provisioner.NfsProvisioner.DeleteNFSServer | provisioner/helper_kernel_nfs_server.go:619-638 | takes the machine's steps in the order Service, Deployment, claim, and stops at the first error |
| Provisioner.NfsProvisioner.DeleteKernel | provisioner/provisioner_kernel_nfs_server.go:181-193 | takes the machine's steps with the PV's name alone; the tracker is not touched |
| Provisioner.NfsProvisioner.RunNfsPVHook | provisioner/provisioner.go:244-252 | takes the machine's step, and succeeds exactly if the hook does |
| Provisioner.NfsProvisioner.DeleteVolume | provisioner/provisioner.go:220-276 | a retained volume is left alone; otherwise ends where the machine ends, and as DeleteOutcome has it, with hooks or without; every call is made with the PV in the tracker, and on every path the PV is out of it afterwards |
| Provisioner.NfsPvcExists | provisioner/garbage_collector.go:133-160 | an error exactly without one of the three labels, spelled out, or on a failed read; otherwise whether the claim of the labelled namespace and name exists with the labelled UID |
| Provisioner.DeleteBackendStaleResources | provisioner/garbage_collector.go:117-131 | ends where the hook-free deletion of that PV's server ends, and as DeleteOutcome has it without hooks |
| Provisioner.CleanUpItem | provisioner/garbage_collector.go:70-111 | checks claim, then tracker, then PV, and cleans up, as the sweep machine does for one item |
| Provisioner.CleanUpStalePvc | provisioner/garbage_collector.go:61-115 | lists exactly the claims of the server namespace with the `nfs-kernel` label, and for whatever order the server returns leaves the cluster the sweep machine leads to |
| Tracker.ProvisioningTracker.Add | provisioner/pvc_tracker.go:49-54 | inserts the PV and nothing else |
| Tracker.ProvisioningTracker.Delete | provisioner/pvc_tracker.go:56-61 | removes the PV and nothing else |
| Tracker.ProvisioningTracker.Inprogress | provisioner/pvc_tracker.go:63-68 | whether the PV is in the set |
| AffinityRoundTrip.AffinityRoundTrip | provisioner/node_affinity.go:28-168 | for every list of well-formed rules, a value-less one spelled `k` or `k:[]`, with any white space around keys and value lists and blank entries anywhere, parsing the comma-joined text gives exactly that list, in order, with Exists or In and the same values, if and only if no newline before a bracket follows an entry without bracket in the same piece |
| AffinityRoundTrip.OneLineIsReadable | provisioner/node_affinity.go:86-95 | a text whose keys hold no newline meets that condition |
| AffinityRoundTrip.MeaningsAreMeaning | provisioner/node_affinity.go:119-168 | that list has one requirement for each rule that is not blank, in order: Exists without values, In with them |
| AffinityRoundTrip.ReadValued | provisioner/node_affinity.go:143-168 | a rule with values, its closing bracket cut off or not, is read back with the white space around key and list trimmed |
| AffinityRoundTrip.KeyOf | provisioner/node_affinity.go:143-147 | the key of any rule with a colon is what stands before the first one, trimmed |
| AffinityRoundTrip.ValuesOf | provisioner/node_affinity.go:150-168 | the values are what stands between any number of brackets, trimmed and split at its commas, with In, and Exists if it is blank |
| AffinityRoundTrip.SecondColonIgnored | provisioner/node_affinity.go:143-168 | what stands after a second colon does not count |
| AffinityRoundTrip.RulesCut | provisioner/node_affinity.go:86-114 | a piece with a valued rule behind a comma: the bare keys before it and then that rule, or, if a bracket is left before it, one rule made of what is before it alone |
| AffinityRoundTrip.RulesWhole | provisioner/node_affinity.go:97-114 | a piece without one: one rule if it has a bracket, else its bare keys |
| Strings.JoinSplit | provisioner/node_affinity.go:36 | splitting at a separator loses nothing: joining the pieces gives the text back |
| Strings.TrimSpaceExact | provisioner/node_affinity.go:147 | TrimSpace takes away exactly the white space around a text |
| Strings.TrimExact | provisioner/node_affinity.go:153-154 | TrimRight and TrimLeft take away exactly the trailing and leading occurrences of a character |
| NodeAffinity.ParseHomomorphism | provisioner/node_affinity.go:28-42 | for all texts s and t, parsing s, `],` and t is parsing s followed by parsing t |
| NodeAffinity.RightMost | provisioner/node_affinity.go:176-195 | on every string the search ends and gives the text after the last comma that has `:[` after it on its line, or nothing if there is none |
| NodeAffinity.RightMostSplits | provisioner/node_affinity.go:88-95 | that text is found at its last index, and the cut there rebuilds the string |
| NodeAffinity.ComplexIffMatch | provisioner/node_affinity.go:86-89 | the two patterns used match the same texts |
| NodeAffinity.GetOneOrMoreNodeSelectorRequirements | provisioner/node_affinity.go:80-117 | returns the rules of one piece, the function the round trip is proved about |
| NodeAffinity.GetNodeAffinityRules | provisioner/node_affinity.go:28-42 | returns the rules of the whole text, the function the round trip and the homomorphism are proved about |
| HookTheorems.ConfluentIff | pkg/hook/action.go:21-62 | running the hooks gives the same object and error status in every order of the configuration, for every object, if and only if the adding and removing entries for that resource and event share no annotation key and no finalizer |
| HookTheorems.GuardLosesNothing | pkg/hook/action.go:21-68 | when nothing is configured for a resource and event, running the hooks in any order changes nothing and reports no error |
| HookTheorems.HooksKeepLabels | pkg/hook/pvc_action.go:26-68 | whatever is configured and whether or not it fails, an object keeps its labels |
| Hook.HookEngine.UpdateAvailableActions | pkg/hook/parser.go:41-72 | afterwards ActionExists holds exactly for the resources and events a scan of the configuration finds |
| Hook.HookEngine.Action | pkg/hook/action.go:21-62 | visits every key of the configuration once in an arbitrary order and does what the fold over that order does, stopping at the first error; HooksTakeEffect says what that is |
| HookEffects.HooksTakeEffect | pkg/hook/types.go:73-83 | in every order: for each resource and event, by the fields of the configuration, the entry under the event's adding key sets its annotations with the template replaced and appends missing finalizers, the one under its removing key takes its annotation keys and one of each of its finalizers away, both do both, and all else is kept; an object of the wrong kind is an error; other fields and keys change nothing |
| HookEffects.TemplateReplaced | pkg/hook/helper.go:34-39 | each occurrence of the template variable is replaced where it stands, and the text around it is kept |
| Hook.HookAction | pkg/hook/pvc_action.go:26-44 | no entry: nothing; an object of the wrong type: an error and nothing else; otherwise the entry's edit |
| Hook.AddAnnotations | pkg/hook/helper.go:28-42 | overrides the given annotations with their values, the template replaced by the time read for each, and keeps the others |
| Hook.SubstituteIsReplace | pkg/hook/helper.go:34-39 | the search for the template variable before replacing it never changes the result |
| Finalizers.AddFinalizers | pkg/helper/helper.go:29-43 | the in-place loops append each missing finalizer in order |
| Finalizers.RemoveFinalizers | pkg/helper/helper.go:59-68 | the in-place loops remove the first occurrence for each finalizer given |
| Finalizers.RemoveAnnotations | pkg/helper/helper.go:71-76 | removes the given keys and no other |
| Finalizers.AddAppends | pkg/helper/helper.go:29-43 | Add keeps the list as a prefix and appends exactly the missing finalizers, once each |
| Finalizers.AddTwice | pkg/helper/helper.go:29-43 | Add is idempotent |
| Finalizers.RemoveCounts | pkg/helper/helper.go:59-68 | Remove takes away one occurrence for each mention and nothing else |
| Finalizers.RemoveAfterAdd | pkg/helper/helper.go:29-68 | removing what was just added equals, as a sequence, removing it from the original list, duplicates allowed |
| Finalizers.AddRemoveCommute | pkg/helper/helper.go:29-68 | adding and removing lists that share no finalizer commute as exact sequences |

## Left out

- The API client wrappers, object builders and rollout checks: the API server is maps with arbitrary failures.
- Hooks run on stored objects (`pkg/hook/execute.go`): a delete hook, the backend PV hook and the NFS PV hook may
  fail and stop the call, but the metadata they patch onto stored objects is not tracked.
- Merging of the volume configuration, quantity parsing and node selection: one step that may fail.
- Pod details, ports, images, file permissions, lease and grace times, capacities: passed through unchanged.
- Time: the wait is a number of ticks seen before the timer fires, and the hook clock is an arbitrary function
  that gives the time read for an annotation.
- The lock in the tracker, the collector's ticker, leader election, metrics, alerts, analytics and logging.
- Maps that are nil and maps that are empty are not told apart.
- The four hook files have the same shape; one method stands for them, told apart by the kind of object it takes.
- Strings are sequences of characters; invalid UTF-8 is not modelled.
- Solo.CrashResume: compares the PV's objects up to the UID, cluster IP and hook metadata, which the server and the hooks assign anew, and needs at least one tick to see the claim bound.
- Limits.RaceBreaksChain: the call must have at least one tick to see the claim bound, since without one it never builds a Service.
- SweepSolo.SweepRefinementIff: necessity is stated for backend claims with the one-word name built for their PV; with other names two items can share their targets.
- Text outside the documented affinity grammar: its pieces and rules are characterised (RulesCut, RulesWhole,
  ValuesOf), but it has no printer. White space around single values inside a list, which the parser keeps, is not
  part of the grammar.
