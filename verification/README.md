# Dynatrace OneAgent Operator: a verified model

This project models the reconcilers of the OneAgent Operator, a Kubernetes operator written in Go, and proves what they
keep over whole runs. Code that changes things in place is written as classes and methods with loops, proved against
specification functions or relations; the properties are proved about those.

| area | modules |
|---|---|
| Istio objects of two roles in one name space | `IstioObjects`, `IstioController`, `IstioConvergence`, `IstioSafety`, `IstioSharing` |
| Termination marks of cluster nodes | `NodeCache`, `NodeTermination`, `NodesController` |
| Versions, rolling restart, recorded image version | `Text`, `Versions`, `VersionCycles`, `RollingRestart`, `AgentUpdate`, `ImageVersions` |
| Webhook certificates and their publication | `Certificates`, `WebhookBootstrapper` |
| The OneAgent pass, its status writes, the token checks | `OneAgentApi`, `TokenReconciler`, `TokenProperties`, `OneAgentController`, `StatusWrites`, `PassProperties` |
| Host cache, environment variables and labels, pod injection | `HostCache`, `EnvVars`, `PodInjection`, `PodProperties`, `InjectionMeaning` |

`dafny verify dfyconfig.toml` checks all of it.

## How the outside world appears

- API calls that may fail are either nondeterministic methods (`NodesController.Api`, `WebhookBootstrapper.Cluster`) or
  answers given as inputs (`IstioController.Oracle`, `OneAgentController.PassInputs`, `RollingRestart.Poll`), so every
  statement holds for all faults. Convergence is stated for passes without faults.
- The clock is an input or a method whose results never decrease. Properties said to hold on any clock do not need that.
- Hashes, URL escaping, image names, key generation and signing are parameters. Collision-freeness is a hypothesis
  where it is needed.
- A Go panic is an outcome of its own (`Panicked`, `Crashed`), not excluded by a precondition.

## Where the code differs from what it seems to promise

- `waitPodReadyState` returns nil at its deadline when exactly one replacement runs, ready or not, and at once when
  `waitSecs` is 0 (`NilMeansOneReplacement`). Its uint16 counter wraps from 65531 on; with 65535 the deadline is never
  reached (`CounterIsElapsedTimeIff`, `LargestWaitNeverTimesOut`).
- `isDesiredNewer` indexes the desired components unchecked. It panics exactly when the desired version runs out of
  components (`CompareMeaning`), and a panic in a pass loses everything the pass had changed (`CrashWritesNothing`).
  Two versions are newer than each other exactly when the shorter one ends where they first differ and bytes and numbers
  disagree there (`MutuallyNewerIff`), as 1.10 and 1.2.0 (`RecordedVersionsCanCycle`). Every longer cycle contains two
  such versions (`NewerCycleHasOpposed`), so the recorded image version can come back to one it left exactly when the probes offer two
  such versions and the first of them can be recorded (`RecordReturnsIff`, `FirstRecordReturnsIff`).
- A change of the status is lost in exactly one case: the DaemonSet cannot be read, the phase turns to Error, and nothing
  else was flagged (`NoLostWrites`). The other way round, anything flagged keeps `SetPhaseOnError` from running: the first
  pass that misses the token secret writes the phase as it was, exactly while the conditions do not report the missing
  secret yet (`MissingSecretKeepsPhaseIff`), and the next one shows Error (`NextMissingSecretShows`).
- A failed pod list is taken for an empty one and empties the recorded instances (`InstancesErasedIff`).
- A full resync that cannot send a node's event keeps the entry with the mark of the attempt (`UnsentKeepsMark`). The next
  one within the hour removes the node, so that no event is ever sent (`SilentRemovalIff`). Where a pass does not
  leave the entry with its mark, because it persists nothing, as after any error of `onDeletion` or of the first loop of
  the resync, or because it removes the entry, and only there, the marking rules allow the next pass to attempt the event
  again within the hour (`NextEventSpacedIff`).
- A cache entry that does not decode and belongs to a cordoned node that a OneAgent claims makes every full resync fail,
  and without failing calls nothing else does (`ReconcileAll`).
- Whether a root key belongs to the root certificate is left to the signer. Whether `x509.CreateCertificate` refuses a key
  that is not the parent's depends on the Go release: the image is built with 1.17 (`Dockerfile:1`), CI uses 1.15
  (`.travis.yml:28`), and the library is not part of this model, so both are covered. With a signer that checks, nothing
  broken is ever written, but every pass fails from the time the server certificate is due until the root is
  (`MismatchBlocksRenewal`). With one that does not, the server certificate written then is not signed by the root beside
  it (`WrittenIsSoundIff`).
- A faulty pass can leave a certificate that clients reject: between the two files, or, with a new root, between the files
  and the CA bundle (`PassRejectedIff`, `RunRejectedIff`).
- The names of Istio objects are collision-free within an instance. Two instances collide exactly when they have the same
  name, as a OneAgent and a OneAgentAPM may, or one name continues the other (`InstancesCollideIff`) like "a" and "a-http"
  (`EndpointKeyCollidesAcrossInstances`). A OneAgent and a OneAgentAPM of one name share all labels too. A store that satisfies both exists exactly when they use
  every endpoint under the same role (`SettledTogetherIff`); where they do not, they undo each other for ever
  (`NeverBothQuiet`), and where they want the same, they settle from any store (`SameNamesSettle`).
- A foreign object under a desired name counts as present: a desired endpoint gets an object of its own exactly if no
  foreign one had the name (`ThreePassesServe`).
- The host cache is filled once and never refreshed while it is non-empty (`GetHostInfoForIP`).
- The webhook panics on a pod without containers (`PodInjector.Extend`: exactly on those), and attaches a pull
  secret that is not used when an installer URL overrides the image (`ImageAgreesWithScript`).

## Model

| member | source | states |
|---|---|---|
| `IstioConvergence.ConvergesInThreePasses` | controllers/istio/controller.go:69-146 | From any store, with fixed inputs and no API faults, after at most three passes every pass returns false and changes nothing, every desired endpoint has its ServiceEntry (and VirtualService unless it is an IP), and no object labelled with a role is unused by that role |
| `IstioConvergence.PassProgress` | controllers/istio/controller.go:69-106 | A pass returns false exactly at the fixpoint and leaves it alone; every other pass strictly decreases the distance to it |
| `IstioConvergence.RolesExclusive` | controllers/istio/helper.go:193-199 | No object is selected by the labels of both roles, which is what keeps one role's sweep from undoing the other's creations for ever |
| `IstioConvergence.ConfigureRoleQuiet` | controllers/istio/controller.go:108-146 | Without faults a role's configuration creates exactly the missing names, removes exactly the doomed objects, and reports a change iff the role was not settled |
| `IstioConvergence.ConfigureApi` | controllers/istio/controller.go:69-106 | Configuring the API role settles it from any store, and keeps settled endpoints settled when nothing of the API role was doomed |
| `IstioConvergence.ConfigureEndpoints` | controllers/istio/controller.go:69-121 | Configuring the endpoints settles them, changes nothing iff they were settled, and dooms nothing of the API role |
| `IstioSafety.ThreePassesServe` | controllers/istio/controller.go:202-294 | With a collision-free hash, three undisturbed passes later each desired endpoint has its ServiceEntry, and its VirtualService unless it is an IP, as own objects with exactly its content, each iff no foreign object held the name at the start |
| `IstioSafety.ServedContents` | controllers/istio/helper.go:60-177 | What these objects hold: a ServiceEntry for the port, by DNS with the upper-case protocol for a name and by address with TCP for an IP; a VirtualService that routes https by TLS and http by HTTP, to host and port |
| `IstioSafety.PassSameForeign` | controllers/istio/controller.go:69-200 | Whether someone else holds a name never changes by a pass, whichever of its calls fail |
| `IstioSafety.ThreePassesCanBeNeeded` | controllers/istio/controller.go:69-106 | The bound of three is tight for any IP endpoints: a store from which three passes in a row report a change, whatever the endpoints, their names and the API host, as long as these differ |
| `IstioSafety.SweepFrame` | controllers/istio/controller.go:148-200 | Even with failing calls, a removal deletes only objects carrying this instance's and role's labels whose name is not desired, and reports a change iff it deleted something |
| `IstioSafety.ConfigureRoleFrame` | controllers/istio/controller.go:108-146 | A role's whole configuration, faults included, deletes only doomed objects, changes no surviving one and adds only desired names |
| `IstioSafety.RunKeepsForeign` | controllers/istio/controller.go:69-200 | Over any run of an instance's passes with any faults, objects without its labels are neither deleted nor changed |
| `IstioSafety.GenuineMatches` | controllers/istio/controller.go:246-330 | The objects under an endpoint's name that carry the instance's labels were built for that endpoint |
| `IstioObjects.EndpointKeyInjective` | controllers/istio/helper.go:121-124 | For one instance the hashed string determines protocol (http or https), host and port |
| `IstioObjects.InstancesCollideIff` | controllers/istio/helper.go:121-124 | Two instances, of one kind or two, can claim one object name iff they have the same name, or one name continues the other with -http or -https and ends there or goes on after a dash |
| `IstioSharing.NeverBothQuiet` | controllers/oneagentapm/oneagentapm_controller.go:123-131 | A OneAgent and a OneAgentAPM of one name: a name that one of them uses, they do not share under one role and no third party holds makes them undo each other for ever; after any number of rounds the next one changes something |
| `IstioSharing.SameNamesSettle` | controllers/oneagentapm/oneagentapm_controller.go:123-131 | Two that want the same names under the same roles leave each other alone after two rounds without failures, from any store |
| `IstioSharing.SettledTogetherIff` | controllers/istio/helper.go:193-199 | Some store without third parties leaves a pass for each of the two without a change iff every name either uses is the API host of both or an endpoint of both |
| `IstioController.HandleIstioConfiguration` | controllers/istio/controller.go:246-330 | Probe and create as a step on the store: the new state, the calls used and the result, for every fault |
| `IstioController.RemoveIstioConfiguration` | controllers/istio/controller.go:148-200 | List and delete as a step on the store: which objects go, for every fault |
| `IstioController.Controller.VerifyIstioCrdAvailability` | controllers/istio/controller.go:230-244 | True unless one of the two types is unknown; the second probe is skipped when the first fails that way |
| `IstioController.Controller.ReconcileIstioCreateConfigurations` | controllers/istio/controller.go:202-228 | Refines the role's creation step, stopping at the first error |
| `IstioController.Controller.ReconcileIstioRemoveConfigurations` | controllers/istio/controller.go:123-146 | Refines the role's removal step over both collections |
| `IstioController.Controller.ReconcileIstioConfigurations` | controllers/istio/controller.go:108-121 | Refines creation followed by removal for one role |
| `IstioController.Controller.ReconcileIstio` | controllers/istio/controller.go:69-106 | Refines a whole pass: the API role first, the endpoints only if the first changed nothing |
| `NodeTermination.MarksOverRun` | controllers/nodes/nodes_controller.go:371-417 | Over any interleaving of handler passes, a node's persisted mark never decreases while its entry stays, and two different marks are more than an hour apart |
| `NodeTermination.RemovalsOverRun` | controllers/nodes/nodes_controller.go:266-300 | Whatever leaves the persisted cache during a run leaves it in some pass for one of the five reasons |
| `NodeTermination.MarksNeverAheadOfClock` | controllers/nodes/nodes_controller.go:414-417 | No persisted mark is later than the clock of the pass after which it is read |
| `NodeTermination.NextAttemptSpaced` | controllers/nodes/nodes_controller.go:371-417 | Once a pass persisted its mark, every later attempt for the node comes more than an hour after that one, over any run, as long as the entry stays |
| `NodeTermination.NextEventSpacedIff` | controllers/nodes/nodes_controller.go:371-389 | Among the passes the marking rules allow, one that attempts a node's event again within the hour can follow iff the pass that attempted it did not leave the entry with its mark |
| `NodeTermination.UnsentKeepsMark` | controllers/nodes/nodes_controller.go:197-216 | A full resync keeps the entry of a node whose event could not be sent exactly as it was, with the mark of the attempt |
| `NodeTermination.SilentRemovalIff` | controllers/nodes/nodes_controller.go:197-216 | The full resync after one with an unsent event removes the entry without any attempt, so that no event is ever sent, iff it comes within the hour |
| `NodesController.ReconcileNodes.HandleEvents` | controllers/nodes/nodes_controller.go:77-95 | The event loop, for any events and any change of the cluster in between, makes a run to which the statements on runs apply; every tick without an error is a full resync, an error persists nothing, and every pass announces only the nodes its event allows; without failing calls it says exactly which events are handled without an error |
| `NodesController.ReconcileNodes.ReconcileAll` | controllers/nodes/nodes_controller.go:133-216 | For every order of map iteration: nil means the result of a full resync, recent marks on every claimed cordoned node, and no undecodable entry among these before; an error persists nothing; without failing calls an error comes iff such an entry blocks; only cordoned nodes and nodes outside the cluster with a live entry are announced |
| `NodesController.ReconcileNodes.OnDeletion` | controllers/nodes/nodes_controller.go:110-131 | The node is gone afterwards or nothing is persisted; no other entry changes, and only this node is announced, at its address, while its OneAgent exists and it was seen within the hour. Without failing calls it succeeds iff the entry, if any, decodes |
| `NodesController.ReconcileNodes.OnUpdate` | controllers/nodes/nodes_controller.go:97-108 | Only a cordoned node that a OneAgent claims is marked and announced, at an address a OneAgent reports; nothing else changes and no one else is announced. A failed update persists nothing; a successful one leaves a recent mark. Without failing calls it succeeds iff the node exists and no undecodable entry blocks it |
| `NodesController.ReconcileNodes.RemoveNode` | controllers/nodes/nodes_controller.go:266-300 | The entry goes for one of the five reasons, or stays because it could not be decoded or its event was not sent |
| `NodesController.ReconcileNodes.MarkForTermination` | controllers/nodes/nodes_controller.go:371-389 | Either a mark is at most an hour old and nothing happens, or one event is attempted and the new mark is kept whether or not the event was sent |
| `NodesController.ReconcileNodes.ReconcileUnschedulableNode` | controllers/nodes/nodes_controller.go:340-369 | Only the node's own entry changes, and only if a OneAgent claims it; on success it carries a mark at most an hour old |
| `NodesController.ReconcileNodes.DetermineOneAgentForNode` | controllers/nodes/oneagent_dao.go:11-43 | Finds a OneAgent with an instance on the node, and none iff no OneAgent claims it |
| `NodesController.UnschedulableIff` | controllers/nodes/nodes_controller.go:391-404 | A node counts as unschedulable iff it is cordoned or carries the taint of the cluster autoscaler |
| `NodesController.ReconcileNodes.GetCache` | controllers/nodes/nodes_controller.go:218-252 | The cache starts with the stored contents and flags every later difference from them |
| `NodesController.ReconcileNodes.UpdateCache` | controllers/nodes/nodes_controller.go:254-264 | Success means the stored contents are the cache's, also when an unflagged cache is not written |
| `NodesController.ReconcileNodes.RefreshClaimedNodes` | controllers/nodes/nodes_controller.go:167-196 | Exactly the claimed cluster nodes get an entry naming a OneAgent that claims them, with its IP, a LastSeen from this pass and the old mark |
| `NodesController.ReconcileNodes.RemoveMissingNodes` | controllers/nodes/nodes_controller.go:197-216 | Exactly the nodes outside the cluster are visited, once each; those whose removal failed stay |
| `NodesController.AfterSecondLoop` | controllers/nodes/nodes_controller.go:133-196 | How marking and refreshing compose, without which the third loop could not rely on the entries it finds |
| `NodesController.ResyncedAtEnd` | controllers/nodes/nodes_controller.go:133-216 | How the three loops compose to the result of a full resync |
| `NodeCache.Cache.Get` | controllers/nodes/cache.go:30-46 | Distinguishes a missing entry, one that does not decode, and the entry last set |
| `NodeCache.Cache.Set` | controllers/nodes/cache.go:49-60 | Replaces one entry and flags the cache |
| `NodeCache.Cache.Delete` | controllers/nodes/cache.go:63-68 | Removes one entry, and flags the cache |
| `Versions.PrintedOrder` | dtclient/dynatrace_client.go:174-176 | Comparing two printed versions equals comparing the (int, int, int, string) tuples they were printed from |
| `Versions.CompareMeaning` | controllers/oneagent/oneagent_update.go:108-148 | Newer iff at some position the desired component is larger after agreeing numbers; an index panic iff the desired version runs out of components |
| `Versions.IsDesiredNewer` | controllers/oneagent/oneagent_update.go:108-148 | The index loop with its early returns computes the comparison that the lemmas are about |
| `Versions.NewerIrreflexive` | controllers/oneagent/oneagent_update.go:108-148 | No version is newer than itself, even when components do not parse |
| `Versions.NewerTransitive` | controllers/oneagent/oneagent_update.go:108-148 | On versions of equal component count the relation is transitive, even when components do not parse |
| `Versions.SameShapeNeverPanics` | controllers/oneagent/oneagent_update.go:108-148 | No panic when the desired version has at least as many components |
| `Versions.MutuallyNewerIff` | controllers/oneagent/oneagent_update.go:108-148 | Two versions are each newer than the other iff the shorter one ends where they first differ and byte order and number order of the components there are opposite |
| `VersionCycles.NewerCycleHasOpposed` | controllers/oneagent/oneagent_update.go:108-148 | Any sequence of versions, each newer than the one before, that ends where it began contains two that are opposed in this sense |
| `Text.ItoaAtoiRoundTrip` | controllers/oneagent/oneagent_update.go:120-130 | Parsing a printed int gives the int back, for the whole 64-bit range |
| `Text.SplitJoin` | controllers/oneagent/oneagent_update.go:110-112 | Splitting at dots loses nothing and leaves no dot |
| `AgentUpdate.OnlyOutdatedPodsDeleted` | controllers/oneagent/oneagent_update.go:24-93 | A pass deletes a prefix of the order-preserving filter of pods whose reported version is strictly older; a rate limit among the answers means no deletion at all |
| `AgentUpdate.OutdatedPodsRestarted` | controllers/oneagent/oneagent_update.go:24-71 | With everything known, and whether or not the recorded version has just changed, all outdated pods are deleted in order, each after the wait for the one before, and the phase is Deploying; an error stops this at the pod it is about |
| `AgentUpdate.OutdatedPodsMeaning` | controllers/oneagent/oneagent_update.go:75-93 | A pod is outdated iff a version was reported for it that is older than the latest |
| `AgentUpdate.StageStops` | controllers/oneagent/oneagent_update.go:24-60 | What else ends the stage and deletes nothing: an unknown latest version, a failed list, or the first answer that is a rate limit or makes the comparison panic |
| `AgentUpdate.StageRecordsLatest` | controllers/oneagent/oneagent_update.go:24-71 | The recorded version becomes the latest unless that is unknown or empty; update is reported iff it changed; a changed phase is written at once |
| `AgentUpdate.SearchCompleteIff` | controllers/oneagent/oneagent_update.go:75-93 | The search gives a result iff no answer is a rate limit or makes the comparison panic |
| `AgentUpdate.FindOutdatedPodsInstaller` | controllers/oneagent/oneagent_update.go:75-93 | Collects exactly the outdated pods, in order |
| `AgentUpdate.ReconcileVersionInstaller` | controllers/oneagent/oneagent_update.go:24-71 | The statements on the status, the writes, the deletions and the result refine the version stage, for every answer |
| `RollingRestart.OneAtATime` | controllers/oneagent/oneagent_utils.go:140-161 | A restart completes a prefix of its pods, each deleted only after the wait for the one before, which began where the wait before that ended, returned nil; then it either is done without error, or was refused the next pod, or deleted it and stopped with the error of its wait |
| `RollingRestart.DeletedIsPrefix` | controllers/oneagent/oneagent_utils.go:140-161 | The deleted pods are a prefix of the pods given |
| `RollingRestart.NilMeansOneReplacement` | controllers/oneagent/oneagent_utils.go:90-133 | A wait returns nil iff waitSecs is 0 or its last poll saw exactly one running replacement, which was ready iff the loop left by its break |
| `RollingRestart.StatusTellsLastPoll` | controllers/oneagent/oneagent_utils.go:90-133 | The error of a wait tells what its last poll saw: a failed list, no replacement, or how many |
| `RollingRestart.RecoveredMeaning` | controllers/oneagent/oneagent_utils.go:100-127 | The loop breaks on a list with exactly one running pod of another name on the node, all of whose containers are ready |
| `RollingRestart.OneReadyRecovers` | controllers/oneagent/oneagent_utils.go:100-127 | And on every such list |
| `RollingRestart.WaitEnds` | controllers/oneagent/oneagent_utils.go:90-133 | Below 65535 every wait ends: within ceil(waitSecs/10) polls up to 65530, within 13107 polls for 65531 to 65534 |
| `RollingRestart.CounterIsElapsedTimeIff` | controllers/oneagent/oneagent_utils.go:90-133 | The uint16 counter is the elapsed time at every poll a wait can reach, never wrapping, iff waitSecs is at most 65530 |
| `RollingRestart.LargestWaitNeverTimesOut` | controllers/oneagent/oneagent_utils.go:90-133 | With waitSecs 65535 only a ready replacement ends the wait |
| `RollingRestart.Cluster.WaitPodReadyState` | controllers/oneagent/oneagent_utils.go:90-133 | The polling loop refines the wait, using exactly its poll answers |
| `RollingRestart.Cluster.DeletePods` | controllers/oneagent/oneagent_utils.go:140-161 | The loop over the pods refines the restart: error, events and unused answers |
| `ImageVersions.RecordedVersionsChain` | controllers/oneagent/oneagent_controller.go:345-400 | Over any run whose versions are empty or have one component count, each recorded image version is the earlier one or strictly newer |
| `ImageVersions.HashFromSameProbe` | controllers/oneagent/oneagent_controller.go:345-400 | Version and hash always come from one probe, or are those the run started with |
| `ImageVersions.ImageProbesSpaced` | controllers/oneagent/oneagent_controller.go:345-360 | Recorded image probes are at least fifteen minutes apart, on any clock |
| `ImageVersions.ShapedStep` | controllers/oneagent/oneagent_controller.go:345-400 | One pass replaces version and hash together by a strictly newer version, or keeps both |
| `ImageVersions.ReplaceEachOtherIff` | controllers/oneagent/oneagent_controller.go:375-398 | Two versions replace each other as the record iff each is newer than the other in the sense above |
| `ImageVersions.RecordReturnsIff` | controllers/oneagent/oneagent_controller.go:345-400 | Over runs of any length, the record can come back to a version it left iff two of the versions the probes offer are opposed and the first of them can be recorded |
| `ImageVersions.FirstRecordReturnsIff` | controllers/oneagent/oneagent_controller.go:345-400 | With nothing recorded yet: iff two of the versions the probes offer are opposed |
| `ImageVersions.EmptyNeverNewer` | controllers/oneagent/oneagent_update.go:108-148 | An empty desired version is never newer and never panics, whatever is recorded |
| `ImageVersions.ReconcileImageVersion` | controllers/oneagent/oneagent_controller.go:345-400 | The statements on the status refine the image stage, including a comparison that panics |
| `Certificates.AlwaysValid` | webhook/bootstrapper/certs.go:35-116 | From no data, with at most 4h between successful passes: from the first success on, at every instant the persisted server certificate is signed by the persisted root and both are in their validity period (section 4.1.2.5 of RFC 5280) |
| `Certificates.FourHoursLeft` | webhook/bootstrapper/certs.go:62-116 | Whatever it starts from, a successful validation leaves both certificates with at least four hours to run |
| `Certificates.ChainAfterValidation` | webhook/bootstrapper/certs.go:35-60 | For any data, a validation yields a chain iff the root is new, or the kept root was sound and so was the server certificate unless it is new |
| `Certificates.RenewalNames` | webhook/bootstrapper/certs.go:118-228 | A renewed certificate is made out to the domain, and a kept one keeps its name |
| `Certificates.RenewalLasts` | webhook/bootstrapper/certs.go:118-228 | A new root is due again after a year and a new server certificate after a week, less four hours, to the second |
| `Certificates.UntouchedIffNothingDue` | webhook/bootstrapper/certs.go:35-60 | Data equals the source exactly when nothing was due |
| `Certificates.ValidationIdempotent` | webhook/bootstrapper/certs.go:35-60 | A second validation at the same instant changes nothing |
| `Certificates.FailingPassPersistsNothing` | webhook/bootstrapper/controller.go:169-206 | A pass that does not succeed can be left out of a run wherever it happens, without changing what is persisted or when the last success was |
| `Certificates.OthersKept` | webhook/bootstrapper/certs.go:35-60 | A validation touches no other entry of the secret, whether it succeeds or fails |
| `Certificates.KeptIff` | webhook/bootstrapper/certs.go:62-116 | What is kept: a root whose key and certificate are there and decode, a server certificate that does and whose key is there, each with four hours left to the second |
| `Certificates.ValidationFailsIff` | webhook/bootstrapper/certs.go:35-228 | A validation fails iff a step it needs fails or the signer refuses a mismatched root |
| `Certificates.MismatchStopsIff` | webhook/bootstrapper/certs.go:62-116 | With a root key that does not belong to the root certificate, a validation fails iff only the server certificate is due and the signer checks the key against its parent |
| `Certificates.WrittenIsSoundIff` | webhook/bootstrapper/certs.go:177-228 | A server certificate that is written is signed by the root beside it iff the root is new or its key belongs to it; always so with a signer that checks |
| `Certificates.MismatchBlocksRenewal` | webhook/bootstrapper/certs.go:35-116 | With a signer that checks, a mismatched root stops every pass of a run from the time the server certificate is due until the root is, and nothing is written |
| `Certificates.RunHealthy` | webhook/bootstrapper/certs.go:35-228 | What a run persists is a chain with four hours to run at its last success, or nothing yet |
| `Certificates.Certs.ValidateCerts` | webhook/bootstrapper/certs.go:35-60 | Works on a fresh copy, leaves the source map alone, and refines the validation |
| `Certificates.Certs.ValidateRootCerts` | webhook/bootstrapper/certs.go:62-90 | Renewal is due iff root key or certificate is missing or does not decode, or the certificate has less than four hours left; otherwise both are loaded |
| `Certificates.Certs.ValidateServerCerts` | webhook/bootstrapper/certs.go:92-116 | Renewal is due iff the server key or certificate is missing, or the certificate does not decode or has less than four hours left |
| `Certificates.Certs.GenerateRootCerts` | webhook/bootstrapper/certs.go:118-175 | Replaces the root pair in the copy, or nothing, depending on which step of the generation fails |
| `Certificates.Certs.GenerateServerCerts` | webhook/bootstrapper/certs.go:177-228 | Signs a server certificate with the loaded root key and replaces the server pair, unless a step fails or the signer refuses the key for its parent |
| `WebhookBootstrapper.ReconcileWebhook.Reconcile` | webhook/bootstrapper/controller.go:111-128 | A pass gets through secret, certificate file, key file and CA bundle in this order and stops at the first error; without an error all four agree; without failing accesses it succeeds iff the validation does, and it writes only what differs |
| `WebhookBootstrapper.ReconcileWebhook.ReconcileCerts` | webhook/bootstrapper/controller.go:169-225 | The files become those of the stored secret, the returned root is the stored one, and a failed validation touches nothing |
| `WebhookBootstrapper.ReconcileWebhook.ReconcileWebhookConfig` | webhook/bootstrapper/controller.go:255-292 | The published configuration carries the root certificate; it is written exactly once if it did not, and not at all if it did or on an error |
| `WebhookBootstrapper.WritesWhatChanges` | webhook/bootstrapper/controller.go:169-225 | A pass writes nothing iff it changes nothing, and at most four times |
| `WebhookBootstrapper.AgreementNeedsNoWrites` | webhook/bootstrapper/controller.go:169-225 | Once the places agree, a pass with nothing to renew succeeds in validating and writes nothing, however far it gets |
| `WebhookBootstrapper.AgreementServesTrustedCertificate` | webhook/bootstrapper/controller.go:111-128 | Agreement means that clients trusting the CA bundle accept the certificate in the file for four hours |
| `WebhookBootstrapper.PassRejectedIff` | webhook/bootstrapper/controller.go:111-128 | From agreement, a pass leaves clients unable to connect iff it renewed and stopped between certificate and key file, or renewed the root and stopped before the bundle |
| `WebhookBootstrapper.RunRejectedIff` | webhook/bootstrapper/controller.go:111-128 | Over a run in which passes store nothing until one stores a renewal, until the next one is due: clients are rejected iff the furthest any pass got lies between two places that belong together |
| `WebhookBootstrapper.SecretFollowsCertificates` | webhook/bootstrapper/controller.go:169-198 | What a run of passes stores in the secret is what the run of validations persists, so that the statements on certificate runs apply |
| `StatusWrites.NoLostWrites` | controllers/oneagent/oneagent_controller.go:121-164 | In a pass that does not panic, a change of the status is lost iff the DaemonSet was unreadable and nothing else was flagged; every other change reaches updateCR afterwards |
| `StatusWrites.LostPhaseOnly` | controllers/oneagent/oneagent_utils.go:64-88 | What is lost then is the phase alone |
| `StatusWrites.CrashWritesNothing` | controllers/oneagent/oneagent_controller.go:199-274 | A comparison that panics ends the pass before anything was written |
| `StatusWrites.FailureShowsOnlyWithoutUpdate` | controllers/oneagent/oneagent_controller.go:138-163 | A failed pass shows phase Error iff nothing was flagged as updated, or the stages had set it |
| `StatusWrites.MissingSecretKeepsPhaseIff` | controllers/oneagent/oneagent_controller.go:138-163 | A pass without the token secret fails and writes its status; the phase survives iff the conditions do not report the missing secret yet, and is Error otherwise |
| `StatusWrites.NextMissingSecretShows` | controllers/oneagent/oneagent_controller.go:138-163 | So after any such pass, the next one with the secret still missing shows Error |
| `StatusWrites.InstancesErasedIff` | controllers/oneagent/oneagent_controller.go:434-453 | The last status a pass writes has its recorded instances emptied iff the pass gets as far as listing the pods and the list fails or is empty |
| `StatusWrites.StagesAccounted` | controllers/oneagent/oneagent_controller.go:199-274 | No stage of a pass changes the status without flagging it, however it ends |
| `OneAgentController.ReconcileOneAgent.Reconcile` | controllers/oneagent/oneagent_controller.go:121-164 | Refines the whole pass, from reading the object on: final status, every submitted status in order, and the result |
| `OneAgentController.ReconcileOneAgent.ReconcileImpl` | controllers/oneagent/oneagent_controller.go:199-274 | Refines the stages with their early returns |
| `OneAgentController.ReconcileOneAgent.ReconcileUpdates` | controllers/oneagent/oneagent_controller.go:237-267 | The update probes run at most once per interval, in order, each able to end the pass |
| `OneAgentController.ReconcileOneAgent.ReconcileRollout` | controllers/oneagent/oneagent_controller.go:310-342 | Refines the rollout stage, for every outcome of the DaemonSet step |
| `PassProperties.RolloutRecords` | controllers/oneagent/oneagent_controller.go:312-342 | A rollout records the pinned version or else the latest one if none is recorded, with phase Deploying, and the tokens used; a recorded version and its phase stay |
| `PassProperties.RolloutFails` | controllers/oneagent/oneagent_controller.go:276-342 | It fails without changing anything iff the DaemonSet step failed or the latest version is needed and unknown |
| `PassProperties.NextRolloutQuiet` | controllers/oneagent/oneagent_controller.go:276-342 | Once a version is recorded, the next rollout with the same tokens reports no update, so that the pass goes on |
| `OneAgentController.ReconcileOneAgent.ReconcileInstanceStatuses` | controllers/oneagent/oneagent_controller.go:434-453 | Refines the instances stage, for every list and every answer |
| `PassProperties.InstancesRecorded` | controllers/oneagent/oneagent_controller.go:434-474 | Without a rate limit the nodes recorded are exactly those of the pods, each with the name, host address and version of its last pod, the version being the reported one or else the one known before |
| `PassProperties.InstancesLimited` | controllers/oneagent/oneagent_controller.go:434-474 | A rate limit fails the stage; what was collected before it is recorded unless that is nothing |
| `OneAgentController.ReconcileOneAgent.DetermineOneAgentPhase` | controllers/oneagent/oneagent_utils.go:64-88 | The phase follows the DaemonSet's counters; an unreadable one sets Error and reports an error |
| `PassProperties.PhaseFollowsDaemonSet` | controllers/oneagent/oneagent_controller.go:270-273 | A pass that gets through its stages ends Running iff all scheduled pods are ready, else Deploying, unless an unflagged error hides it |
| `PassProperties.PhaseWithoutDaemonSet` | controllers/oneagent/oneagent_controller.go:270-273 | Without a DaemonSet a pass whose stages made no error ends in the phase they left |
| `PassProperties.UpdateProbesSpaced` | controllers/oneagent/oneagent_controller.go:250-252 | The probe time moves only when more than an interval has passed, and then to now |
| `PassProperties.IntervalMeaning` | controllers/oneagent/oneagent_controller.go:239-250 | The interval is 15 minutes, or as many minutes as the environment variable says if it is a number |
| `PassProperties.NoRestartUnlessWanted` | controllers/oneagent/oneagent_update.go:17-22 | With updates disabled or an immutable image the version stage does nothing |
| `PassProperties.VersionPartEnds` | controllers/oneagent/oneagent_controller.go:264-267 | Otherwise the version stage ends the pass with its error, a rate limit told from others, or with a flagged new version; a changed phase is submitted at once |
| `PassProperties.IstioChangeEndsPass` | controllers/oneagent/oneagent_controller.go:210-219 | A pass that changed Istio objects does nothing after that and comes back in half a minute |
| `PassProperties.PassComesBack` | controllers/oneagent/oneagent_controller.go:138-163 | Any other pass comes back after one minute at a rate limit, five when something was flagged and thirty otherwise; other errors are returned |
| `PassProperties.ImageProbeTaken` | controllers/oneagent/oneagent_controller.go:345-400 | When the image stage asks the registry, what it records of the answer, and what it does in every other case |
| `PassProperties.ImagePartFollowsSpec` | controllers/oneagent/oneagent_controller.go:221-225 | Whether the image is immutable follows the custom resource, and a change is flagged |
| `PassProperties.ImagePartErrors` | controllers/oneagent/oneagent_controller.go:223-232 | A failed image stage is an error that does not end the pass; a pull secret that cannot be brought up to date ends it, and a rate limit is told from other failures |
| `OneAgentController.Reconciliation.Update` | controllers/oneagent/oneagent_controller.go:189-197 | A flag once set stays set |
| `OneAgentController.Reconciliation.Error` | controllers/oneagent/oneagent_controller.go:181-187 | Reports whether there is an error; no error leaves an earlier one |
| `TokenProperties.RequestsSpaced` | controllers/utils/dynatrace_client_reconciler.go:98-211 | Over any run with the status written back, two scope requests for the same token are at least five minutes apart, counted from the recorded probes too |
| `TokenProperties.TrueOnlyWhenGranted` | controllers/utils/dynatrace_client_reconciler.go:98-211 | A token's condition becomes True only in a pass that asked for its scopes and was granted the required one |
| `TokenProperties.StageReports` | controllers/utils/dynatrace_client_reconciler.go:134-210 | When the probes are reached, each token's condition is True iff its answer held the required scope and, for the PaaS token, the connection info came, with the reason that belongs to the answer; unchanged while no probe is due; False if padded. The environment id follows the granted PaaS token |
| `TokenProperties.StageFails` | controllers/utils/dynatrace_client_reconciler.go:79-132 | Otherwise the stage fails, for the first reason that applies, and says so in the condition of every token concerned |
| `TokenProperties.SetConditionReported` | controllers/utils/dynatrace_client_reconciler.go:213-221 | A report replaces the condition of its type and no other, and the transition time changes only with the status |
| `TokenProperties.NoUpdateNoChange` | controllers/utils/dynatrace_client_reconciler.go:34-211 | Returning false for updated means the status is untouched and nothing was asked |
| `TokenProperties.UpdateIffChange` | controllers/utils/dynatrace_client_reconciler.go:34-211 | An update is reported iff the stage changed the status: conditions, probe times or environment |
| `TokenProperties.StageWellKept` | controllers/utils/dynatrace_client_reconciler.go:71-77 | Condition types stay unique, and after every pass every transition time is set |
| `TokenProperties.StageDisciplined` | controllers/utils/dynatrace_client_reconciler.go:140-211 | A pass asks at most once per token, only when due, and remembers exactly what it asked |
| `TokenReconciler.DynatraceClientReconciler.Reconcile` | controllers/utils/dynatrace_client_reconciler.go:34-211 | Refines the token stage: status, update flag, error and requests |
| `TokenReconciler.DynatraceClientReconciler.SetCondition` | controllers/utils/dynatrace_client_reconciler.go:213-221 | Replaces or appends a condition, reporting whether anything it compares changed |
| `TokenReconciler.DynatraceClientReconciler.Migrate` | controllers/utils/dynatrace_client_reconciler.go:71-77 | Stamps exactly the conditions without a transition time, and flags iff there was one |
| `HostCache.DynatraceClient.SetHostCacheFromResponse` | dtclient/dynatrace_client.go:132-193 | Every later lookup equals a scan of the response from its end; a malformed response leaves an empty cache |
| `HostCache.ScanMeaning` | dtclient/dynatrace_client.go:132-193 | The scan finds the last host in response order that lists the IP, was seen in the last 30 minutes (to the second) and matches the zone rule, and fails iff there is none |
| `HostCache.DynatraceClient.GetHostInfoForIP` | dtclient/dynatrace_client.go:95-109 | A lookup is answered from the loaded response; a request is sent iff the cache is empty, and a filled cache is never refreshed |
| `HostCache.DynatraceClient.GetAgentVersionForIP` | dtclient/agent_version.go:9-23 | Every case of the answer in terms of the scan: invalid IP, failed load, no host, no version, version; and which response is loaded afterwards |
| `HostCache.DynatraceClient.GetEntityIDForIP` | dtclient/agent_version.go:46-60 | Every case of the answer in terms of the scan, for entity ids; and which response is loaded afterwards |
| `HostCache.ReportedVersionMeaning` | dtclient/agent_version.go:9-23 | A version is reported iff the serving host has one, and it is the printed one |
| `HostCache.ReportedEntityMeaning` | dtclient/agent_version.go:46-60 | An entity id is answered iff the serving host has one, and it is that host's |
| `HostCache.EligibleMeaning` | dtclient/dynatrace_client.go:163-171 | Which hosts count, in whole numbers: last-seen second at most 30 minutes back, and in the configured zone, or without one in the default zone or none |
| `HostCache.OutdatedMeansOlderAgent` | controllers/oneagent/oneagent_update.go:75-93 | From response to restart decision: a pod is outdated iff the last eligible host listing its node has a version tuple before the latest one |
| `EnvVars.DaemonSetBuilder.PrepareEnvVars` | controllers/oneagent/oneagent_daemonset.go:335-445 | The pointer loops compute the merge of the defaults with the user's list |
| `EnvVars.Defaults` | controllers/oneagent/oneagent_daemonset.go:344-403 | The reserved names in their fixed order are pairwise distinct for every configuration |
| `EnvVars.ReservedEntry` | controllers/oneagent/oneagent_daemonset.go:405-443 | Entry i of the result is the user's last entry of the i-th reserved name, or else its default |
| `EnvVars.ReservedOnce` | controllers/oneagent/oneagent_daemonset.go:405-443 | Each reserved name occurs exactly once |
| `EnvVars.RemainingPositions` | controllers/oneagent/oneagent_daemonset.go:410-445 | What follows is every non-reserved user entry, and nothing else, in the original order |
| `EnvVars.MergeKeepsMeaning` | controllers/oneagent/oneagent_daemonset.go:335-445 | For every name, where the last entry wins: the user's value if there is one, else the default |
| `EnvVars.MergeIdempotent` | controllers/oneagent/oneagent_daemonset.go:335-445 | Merging the result again changes nothing |
| `EnvVars.ClusterDefaults` | controllers/oneagent/oneagent_daemonset.go:344-367 | Node name, cluster id, and the switch against injection iff the webhook injects |
| `EnvVars.InstallerDefaults` | controllers/oneagent/oneagent_daemonset.go:369-394 | An installer image is told token, download address and certificate check; an immutable one is not |
| `EnvVars.ProxyDefaults` | controllers/oneagent/oneagent_daemonset.go:396-412 | The proxy comes from its secret if one is named, else from its value, and is left out if neither is set |
| `EnvVars.DefaultSeen` | controllers/oneagent/oneagent_daemonset.go:405-445 | A default is what a container sees unless the user set the variable |
| `EnvVars.MergeLabels` | controllers/oneagent/oneagent_utils.go:19-28 | The nested loops, in any map order, compute the overlay of the maps |
| `EnvVars.OverlayMeaning` | controllers/oneagent/oneagent_utils.go:19-28 | Each key has the value of the last map that defines it |
| `EnvVars.OwnPodsSelected` | controllers/oneagent/oneagent_daemonset.go:45-60 | Whatever the user's labels, a DaemonSet's selector matches its own template, and the template of no instance of another name |
| `PodInjection.PodInjector.Handle` | webhook/server/server.go:63-257 | Every answer of the webhook, including the panic on a pod without containers, and the patched pod as a function of the one received |
| `InjectionMeaning.InjectionWanted` | webhook/server/server.go:78-82 | A pod is injected unless it, or where it says nothing its namespace, opts out |
| `InjectionMeaning.PatchedIff` | webhook/server/server.go:63-104 | Exactly when the webhook changes a pod, which is then marked |
| `InjectionMeaning.UnpatchedIff` | webhook/server/server.go:78-103 | Exactly when it leaves a pod alone without an error |
| `InjectionMeaning.ErrorCodes` | webhook/server/server.go:71-97 | Whose fault an error is: 500 for what cannot be read, 400 for a missing or wrong assignment |
| `InjectionMeaning.SettingsMeaning` | webhook/server/server.go:106-112 | Every setting is read from its own annotation, with its own default |
| `InjectionMeaning.ImageMeaning` | webhook/server/server.go:112-125 | Which image the init container runs, and when a pull secret is attached |
| `InjectionMeaning.InitToldAgent` | webhook/server/server.go:177-190 | Flavor, technologies and install path, as the init container sees them |
| `InjectionMeaning.InitToldSource` | webhook/server/server.go:177-196 | Installer URL, failure policy and immutability, as the init container sees them |
| `InjectionMeaning.InitToldPod` | webhook/server/server.go:162-196 | The pod's base name, and the fields that only the cluster knows |
| `InjectionMeaning.InitRuns` | webhook/server/server.go:177-204 | The init container runs the script of the config secret with the first container's security context |
| `InjectionMeaning.VolumesAdded` | webhook/server/server.go:127-156 | The volumes behind its mounts, and the pull secret |
| `InjectionMeaning.ContainerPreloads` | webhook/server/server.go:227-228 | Every container preloads the agent from the install path, whatever it had set before |
| `InjectionMeaning.ContainerToldNetwork` | webhook/server/server.go:230-246 | Proxy iff one is set, network zone iff there is one, else what the container had |
| `InjectionMeaning.ContainerMounts` | webhook/server/server.go:213-224 | The mounts a container has afterwards are its own and exactly three more |
| `PodInjection.PodInjector.InstrumentContainers` | webhook/server/server.go:206-247 | The in-place loop appends to every container and collects the init container's variables in order |
| `PodProperties.PatchOnlyAdds` | webhook/server/server.go:127-256 | A patch keeps number and order of the containers, all fields but mounts and variables, the old mounts and variables as prefixes, old volumes, secrets and init containers as prefixes, and adds one init container |
| `PodProperties.InitContainerDescribesPod` | webhook/server/server.go:177-211 | CONTAINERS_COUNT and the i-th name and image variables, as the container sees them, are those of the pod, and no others exist |
| `PodProperties.MountedConfigIsOwn` | webhook/server/server.go:206-224 | The file each container mounts as container.conf is one the init script writes, with exactly one section: its own name and image |
| `PodProperties.WrittenSections` | controllers/namespace/namespace_controller.go:270-288 | The script's loop over the variables writes one section per container of a name, in order |
| `PodProperties.InjectedAtMostOnce` | webhook/server/server.go:101-104 | However often and in whatever cluster states a pod is handled, only the first patch counts |
| `PodProperties.HandledAgainUnpatched` | webhook/server/server.go:97-104 | Handling the patched pod again in the same cluster gives no patch and no error |
| `PodProperties.ImageAgreesWithScript` | webhook/server/server.go:112-156 | The init script copies from its image iff an image was chosen for that; a pull secret without use is attached iff an installer URL overrides the built image |
| `PodProperties.ContainerVarInjective` | webhook/server/server.go:210-211 | A variable's name tells the container's position and which of the two values it holds |
| `PodInjection.MarkIsNoSetting` | webhook/server/server.go:104-112 | Marking the pod as injected changes none of the settings read afterwards |
| `PodInjection.BasePodName` | webhook/server/server.go:162-170 | The name up to its last dash, exclusive, or all of it |

## Left out

- HTTP, JSON and PEM encoding, URL parsing, real cryptography and SHA-256: abstract values, parameters and outcomes.
- Manager start-up, leader election, watchers, tickers and goroutines: handlers are sequential steps, as in the one event loop that calls them.
- Changes of the cluster during a pass: within one pass of the nodes controller the nodes and OneAgents stay the same. Between passes everything may change.
- The namespace the nodes controller lists OneAgents from: its own namespace and `POD_NAMESPACE` are taken to be the same.
- The content of a termination event beyond the node, its address and the mark: the entity id is looked up from the address, and the event is dated ten minutes before the entry was last seen.
- Write conflicts on the nodes ConfigMap and the certificate secret: a write succeeds or fails, and a failed one changes nothing.
- `SetControllerReference` errors: one more way in which a creation fails.
- The content of ServiceEntries and VirtualServices beyond host, protocol, port, resolution and routes: constants without branches.
- Reading an Istio object between probe and creation: another client may create it in between, which the oracle covers as a failed creation.
- The pod specification of the DaemonSet and its FNV hash: branch-free content, and a 32-bit hash is not collision-free. Whether the DaemonSet was written is an input of the pass.
- OneAgentController.ReconcileOneAgent.ReconcileRollout: does not say when the DaemonSet is created or updated, because that is decided by the content and the hash left out above.
- Files are written at once or not at all: a write that stops half way through a certificate file is not modelled.
- Service creation in the webhook bootstrapper: one branch, no influence on the certificates.
- The namespace controller and the OneAgentAPM controller, apart from the Istio pass that the latter shares: they would add only easy members. Of the init script only the loop that writes container sections is modelled, without the host sections.
- `BuildDynatraceClient`, pull-secret generation, image-name builders and registry access: their results are inputs.
- `UpdatedTimestamp` of the OneAgent: it is set by every write and is not part of the status value compared.
- StatusWrites.NoLostWrites: writing means that updateCR was called with the status; a call the API server refuses is submitted but not stored.
- Certificates.AlwaysValid: a validity period is inclusive at both ends and encoded in whole seconds; revocation and name constraints are not modelled.
- Certificates.UntouchedIffNothingDue: needs that freshly drawn keys do not occur in the old data, and so do `PassRejectedIff` and `RunRejectedIff`.
- NodeTermination.NextEventSpacedIff: speaks of the passes the marking rules allow, not of what a handler is bound to do; it needs a pass that ends within the hour after its attempt.
- IstioSharing.SettledTogetherIff: says that a store satisfying both exists. Two that share every name but have different API hosts may still undo each other from other stores, depending on labels and order.
- HostCache.OutdatedMeansOlderAgent: needs version numbers in the int range and dot-free timestamps.
- PodProperties.MountedConfigIsOwn: needs unique container names, which Kubernetes enforces; `WrittenSections` says what happens without.
- Logging and the text of error messages, except where a message is stored in a condition.
