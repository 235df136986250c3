# Verified model of the OVS-DPDK DRA driver

This project models the stateful core of a Kubernetes Dynamic Resource Allocation driver for OVS-DPDK vhost-user
ports, and proves what its protocols keep over whole runs, with failures at every external call.

* **Claim lifecycle** (`Stores`, `Lifecycle`, `Handlers`, `NodeDriver`, `SocketFs`). Preparing and unpreparing claims drives four
  stores: OVS ports, socket directories, CDI specs and the claim store. Every external call can fail, and rollback is
  by hand. A failure pattern is a sequence of booleans indexed by call number, so a statement for all `faults` is a
  statement about every pattern. The class `NodeDriver.Node` holds the stores as fields; each of its methods is proved
  equal to a function on a value `World`, and the theorems are lemmas about those functions. `World` carries three
  pieces of history: `leaked` (resources whose latest cleanup call failed), `broken` (stored claims on which a cleanup
  call of an unprepare succeeded while the entry stayed) and `origin` (the claim each stored entry came from).
  `Rollback`, `NoLeaks`, `Backing`, `CalmRuns`, `Batches`, `Retries`, `RoundTrip`, `StuckPorts`, `CdiReferences` and
  `Delivery` hold the results.
* **Claim status** (`StatusList`, `StatusWriter`, `Publishing`). The keyed status list, the filter and merge on it, and
  the optimistic-concurrency write loop against an API server that other writers change between any two steps.
* **Topology device plugins** (`NumaTable`, `Topology`, `DevicePluginManager`). The NUMA table kept from OVS events,
  and the manager that starts and stops one server per resource, fully or incrementally, compared with a declarative
  specification of which resource belongs on which node.
* **Policy** (`Policy`, `PolicyReconciler`) and **port configuration** (`PortConfigs`).

The main theorems:

* `Backing.ReachableStates`: from an empty claim store, after any sequence of batches under any failure pattern, every
  port, directory and CDI spec was there before, belongs to a stored claim, or is on record as a failed cleanup; every
  foreign port is unchanged; and if each claim is fresh when its turn comes, a stored claim has its ports, directories
  and CDI spec if and only if it is not `broken`.
* `Rollback.AllOrNothing`: the exact stores after a prepare that failed anywhere; and `Rollback.SingleFailureUndone`:
  whichever single call fails, the prepare is undone completely.
* `Delivery.SocketsMeet`: OVS opens the socket in the host directory that the pod's CDI device mounts, and the pod is told
  the same file as it appears in the container.
* `Publishing.PreparedStatusPublished`: a successful status update for a claim of a prepare batch shows, for every device
  key, the stored device of the last result with it.
* `StuckPorts.PreparableInAnyRun`: in every reachable state, a claim that is not stored can be prepared in some future
  if and only if none of its port names is taken now.
* `CdiReferences.CdiReferencesResolve`: every CDI ID of a claim mounts its own directory if and only if the composed
  names of its allocation results differ.
* `StatusWriter.NoLostUpdates`: a successful status update leaves the allocation, the consumers and all other drivers'
  entries in order as they were right before that write, holds exactly the snapshotted own entries, and takes at most
  five writes.
* `Topology.FaithfulInAnyRun` and `Topology.IncrementalEqualsFull`: in every run a resource no change of which was missed
  is served as specified exactly when its last start did not fail, never on a node that is not wanted; and an incremental
  refresh reaches the same servers as a full update.
* `PolicyReconciler.AdvertisedExactly`: a bridge is advertised exactly when it exists and a policy for this node lists it.
* `NumaTable.TableReplaysEvents`: the nested table is the replay of the events.

Some natural wishes are false of the code, and the model keeps the code.

* A failed prepare does not restore every socket directory that was there before it. `Rollback.AllOrNothing` has the
  exact condition for every point of failure: none of the directories it made, which are the first `DirsMade` of those
  it wanted, existed. `Rollback.ExistingDirectoryLost` is a claim that loses its directory.
* A prepare can answer "ready" from the store although nothing backs the claim (`Retries.CachedAnswerCanBeUnbacked`).
  In runs of fresh claims the exact condition is `broken` (`Backing.ReadyMeansBacked`).
* A port that a rollback could not delete blocks its claim for good (`StuckPorts.BlockedForever`).
* Bridge and request names hold dashes, and so does the separator between them, so two devices of a claim can share a
  CDI ID (`Naming.DashCollisionExample`, and exactly when: `Naming.DashCollision`). On a single bridge, or without dashes
  on one of the two sides, they do not (`CdiReferences.PlainNamesMountOwn`). Whether the CDI library itself refuses a
  spec with repeated names is not modelled; a refused write is one of the failure patterns.
* Adding an interface under a second bridge leaves it in the table twice (`NumaTable.OneBridgeExactly`).
* A subrequest, whose request is named "main/sub", leaves a parent directory behind (`SocketFs.SubrequestLeavesParent`).
  The rest of the model is about requests without '/', which the type `Kube.PathName` says.

Two conditions on names are kept by Kubernetes and by the policy object, so the code never meets their violation: pod
UIDs and pod claim names hold no underscore, and the pattern of `topologyResource`
(pkg/api/ovsdpdkdra/v1alpha1/types_ovsdpdkresourcepolicy.go:62) has no slash. `Naming.UnderscoreCollision` and
`Naming.SlashCollision` state exactly what would coincide without them.

Where comments and code differ, the model follows the code: `GetVhostUserConfig` is documented to return defaults but
returns nothing when no configuration was set (pkg/devicestate/devicestate.go:130-136), and `CreateClaimSpecFile` is
documented to write a single device but writes one per prepared device (pkg/cdi/cdi.go:63-88).

Assumptions on what the driver calls: creating a port is one all-or-nothing transaction (section 4.1.3 of RFC 7047)
that fails when the port name exists, and the named bridge row exists; the host root directory exists; making a directory
that fails makes none, while a failure to set its permissions removes it again or leaves it on record; store writes are transactional and read back
equal; the kubelet helper calls the handlers one at a time; the API server never reuses a version and answers a write
with a stale version or another UID with a conflict. An API reply may be lost after the write was committed.

## Model

| member | source | states |
|---|---|---|
| Naming.PortNameInjective | pkg/devicestate/devicestate.go:449-452 | port names coincide exactly on equal eight-digit UID prefixes and equal requests |
| Naming.SocketDirInjective | pkg/devicestate/devicestate.go:368-370 | without underscores in pod UID and pod claim name, socket directories coincide exactly on equal pod, pod claim and request |
| Naming.UnderscoreCollision | pkg/devicestate/devicestate.go:368-370 | pod, pod claim and request share their directory with another triple of underscore-free pod and pod claim exactly when one of the two holds an underscore |
| Naming.ContainerDirInjective | pkg/devicestate/devicestate.go:363-365 | mount points coincide exactly on equal pod claim and request |
| Naming.OneClaimNames | pkg/devicestate/devicestate.go:363-370 | within one claim each derived name differs exactly when the requests differ |
| SocketFs.MakeThenRemove | pkg/socketfs/socketfs.go:55-79 | making a missing directory and removing it restores the file tree exactly when its parent was there |
| SocketFs.FlatRequestRestores | pkg/socketfs/socketfs.go:55-79 | a request without '/' makes and removes exactly its own directory |
| SocketFs.SubrequestLeavesParent | pkg/socketfs/socketfs.go:55-79 | a subrequest leaves exactly the directory of its main request behind, unless that existed |
| Naming.DashCollision | pkg/cdi/cdi.go:59-61 | CDI names of one claim coincide exactly for equal device and request and for one text cut at two different dashes |
| Naming.DashCollisionExample | pkg/cdi/cdi.go:59-61 | a bridge and a request with dashes that share a CDI name with another pair |
| Naming.CdiNameInjective | pkg/cdi/cdi.go:59-61 | without dashes in the devices, or in the requests, the CDI name determines both |
| Naming.DashesDropped | pkg/devicestate/devicestate.go:449-452 | the digits of a UID are its groups without the dashes between them |
| Naming.PluginSocketInjective | pkg/deviceplugin/deviceplugin_server.go:75-81 | slash-free suffixes give one plugin socket per resource |
| Naming.SlashCollision | pkg/deviceplugin/deviceplugin_server.go:75-81 | two resources share a socket exactly when their suffixes agree after the last slash |
| PortConfigs.ParseClaimConfigs | pkg/devicestate/config.go:49-95 | the parse loop computes the function the precedence lemmas are about, errors included |
| PortConfigs.AssignRequests | pkg/devicestate/config.go:89-91 | every listed request, and no other, is mapped to the configuration |
| PortConfigs.ParseSucceedsExactly | pkg/devicestate/config.go:56-83 | the parse succeeds exactly when every entry of this driver is class-sourced, or claim-sourced with the right kind and version, VLAN in 0..4095 and a rate whenever it polices |
| PortConfigs.ConfigPrecedence | pkg/devicestate/config.go:37-45 | a request gets the last claim entry naming it, else the last entry naming none, else the default |
| PortConfigs.ConfigAlwaysValid | pkg/devicestate/config.go:97-107 | every configuration handed out has its VLAN in 0..4095 and a rate whenever policing is set |
| StatusList.KeyExact | pkg/devicestate/claimstatus.go:34-44 | two entries share a key exactly when driver, pool, device and share ID agree, an absent share ID counting as empty |
| StatusList.UpsertDeviceStatus | pkg/devicestate/claimstatus.go:48-60 | the loop replaces the first entry with the key or appends |
| StatusList.UpsertAllIsKeyedMap | pkg/devicestate/claimstatus.go:48-60 | over a whole prepare the last update of a key wins and untouched keys keep their entry |
| StatusList.UpsertAllKeepsDistinct | pkg/devicestate/claimstatus.go:23-60 | distinct keys stay distinct |
| StatusList.UpsertAllKeepsPositions | pkg/devicestate/claimstatus.go:48-60 | no entry moves and entries under other keys stay identical |
| StatusList.UpsertAllAppendsUpdates | pkg/devicestate/claimstatus.go:59-59 | appended entries answer an update under a key the list did not have |
| StatusList.FilterDevicesByDriver | pkg/driver/server.go:173-181 | exactly this driver's entries, in order |
| StatusList.MergeDeviceStatus | pkg/driver/server.go:187-195 | the others' entries in order, then the owned ones |
| StatusList.MergeSeparates | pkg/driver/server.go:183-195 | a merge keeps the others' entries and holds exactly the owned ones for this driver |
| StatusList.UpsertAllKeepsOthers | pkg/devicestate/devicestate.go:394-400 | upserts of one driver leave the other drivers' entries and their order alone |
| Policy.ValidateBridges | pkg/devicestate/devicestate.go:164-173 | accepts exactly the lists with distinct names and MTU in 68..65535 |
| Policy.ComputeAllocatableDevices | pkg/devicestate/devicestate.go:404-410 | the map of the last device per bridge name |
| Policy.AllocatableOfValid | pkg/devicestate/devicestate.go:404-445 | accepted bridges are advertised one to one, each key being device name, bridge attribute and bridge name, with the MTU attribute of the spec in 68..65535 and 32768 ports |
| Lifecycle.DeletePortCleans | pkg/ovs/client.go:473-503 | a port deletion removes the port of that bridge or is on record as failed, and touches nothing else |
| Lifecycle.UnprepareDeviceCleans | pkg/devicestate/devicestate.go:333-360 | each resource of the device is gone or on record, nothing else changes, and success means port and directory are gone |
| Lifecycle.UnprepareAllCleans | pkg/devicestate/devicestate.go:305-331 | the same for all devices of a claim, every one of them tried |
| Lifecycle.PlanSource | pkg/devicestate/devicestate.go:211-216 | devices are prepared for exactly this driver's allocation results, each with the configuration of its request |
| Lifecycle.PlannedPortValid | pkg/devicestate/devicestate.go:475-497 | every port is created with a valid configuration and an MTU in range, or 0 when its bridge is not advertised |
| Lifecycle.InstallEffect | pkg/devicestate/devicestate.go:237-265 | a device is installed under a free port name, or only its directory may have changed: unchanged, removed, or on record |
| Lifecycle.InstallAllEffect | pkg/devicestate/devicestate.go:211-223 | the loop installs a prefix exactly and stops in one failed install |
| Lifecycle.FailedPrepareRollsBack | pkg/devicestate/devicestate.go:216-232 | wherever a prepare fails, no earlier port is deleted or changed, and every new port or directory left is on record |
| Lifecycle.SuccessfulPrepareInstalls | pkg/devicestate/devicestate.go:225-234 | success installs all devices and writes the spec of exactly these |
| Lifecycle.PreparedResources | pkg/devicestate/devicestate.go:192-235 | a success adds exactly the resources of its devices and changes nothing that existed |
| Rollback.AllOrNothing | pkg/devicestate/devicestate.go:211-315 | wherever a prepare fails, with its own cleanup calls successful: ports as before, the directories it made gone, no CDI spec left; directories restored if and only if none it made existed |
| Rollback.PrepareOneAllOrNothing | pkg/driver/server.go:55-70 | the same for the handler, a failed write to the claim store included |
| Rollback.SingleFailureUndone | pkg/driver/server.go:55-70 | whichever single call of a prepare fails that could otherwise go ahead, everything is undone and nothing is on record |
| Rollback.PrepareClaimAlike | pkg/devicestate/devicestate.go:192-235 | a prepare does not depend on which earlier cleanups failed |
| Rollback.TakenNameLosesDir | pkg/devicestate/devicestate.go:262-265 | a taken port name makes the prepare lose an existing directory |
| Rollback.ExistingDirectoryLost | pkg/devicestate/devicestate.go:262-265 | a concrete node and claim where that happens |
| Lifecycle.PrepareKeepsOtherStatuses | pkg/devicestate/devicestate.go:374-401 | a prepare changes only this driver's status entries of the claim |
| CdiReferences.CdiReferencesResolve | pkg/cdi/cdi.go:59-88 | every CDI ID returned resolves in the CDI spec of its claim; all resolve to their own request's mount if and only if no two of this driver's allocation results have the same device and request joined by a dash |
| CdiReferences.PlainNamesMountOwn | pkg/cdi/cdi.go:59-88 | on a single bridge, or without dashes in the bridges or in the requests, every CDI ID resolves to its own mount |
| Delivery.DeliveredAsAllocated | pkg/devicestate/devicestate.go:237-303 | result by result, the OVS port has the bridge, owner, VLAN, rates and MTU that were asked for, its socket in the host directory; the reported device has the result's request, pool and device, the port's MTU and rates, and the socket in the container directory |
| Delivery.SocketsMeet | pkg/devicestate/devicestate.go:257-299 | where a CDI ID mounts its own directory, the port's socket is in the mounted host directory and the reported path is the same file in the container |
| Handlers.UnprepareOneEffect | pkg/driver/server.go:133-157 | the ends of an unprepare: untouched, entry kept and marked if a cleanup call succeeded, or entry gone with all ports and directories |
| NoLeaks.PrepareOneAccounted | pkg/driver/server.go:41-74 | preparing one claim keeps the accounts, store write failure and its rollback included |
| NoLeaks.UnprepareOneAccounted | pkg/driver/server.go:133-157 | unpreparing one claim keeps the accounts |
| NoLeaks.NoLeaksInAnyRun | pkg/driver/server.go:35-160 | over any run every resource is foreign, stored or on record, and foreign ports stay unchanged |
| Backing.ApartResources | pkg/devicestate/devicestate.go:368-370 | claims that differ in UID prefix and in pod and pod claim share no port, directory or spec |
| Backing.PreparedBacked | pkg/devicestate/devicestate.go:252-299 | each device of a successful prepare has its directory and a port row with its bridge, socket, VLAN, rates and MTU |
| Backing.PrepareOneCoherent | pkg/driver/server.go:55-71 | preparing a fresh claim leaves every stored claim backed or not as it was, and stores a backed one |
| Backing.CleanupExact | pkg/devicestate/devicestate.go:318-360 | an attempt whose cleanup calls all fail changes no store, any other removes something of the claim |
| Backing.UnprepareOneCoherent | pkg/driver/server.go:146-155 | unpreparing a claim leaves the other stored claims as they are, backed or not, and marks it broken exactly when it is no longer backed |
| Backing.BackedInAnyRun | pkg/driver/server.go:35-160 | over any run of fresh claims a stored claim is backed if and only if it is not broken |
| Backing.ExactAccounts | pkg/driver/server.go:127-160 | with nothing on record the resources beyond the base are exactly the stored claims' |
| Backing.ReadyMeansBacked | pkg/driver/server.go:49-71 | a claim reported ready is stored with the reported devices, and backed if and only if it is not broken |
| CalmRuns.CalmRunStays | pkg/driver/server.go:35-160 | over a run without failing calls nothing is put on record and no claim becomes broken |
| CalmRuns.CalmRunExact | pkg/driver/server.go:35-160 | in such a run of fresh claims the resources beyond the start are exactly those of the stored claims |
| Backing.ReachableStates | pkg/driver/server.go:35-160 | accounts and backing in every state reachable from an empty store |
| Batches.StoredClaimIsCached | pkg/driver/server.go:49-53 | a stored or repeated claim is answered from the store with no effect and no status write |
| Batches.PrepareOneStore | pkg/driver/server.go:55-72 | stored entries never change, the answer is what is stored, and only a new claim is handed to the status writer |
| Batches.BatchIsSingles | pkg/driver/server.go:41-77 | a batch has the effect, results and status writes of one-claim calls up to the first failure |
| Batches.BatchStopsExactly | pkg/driver/server.go:41-77 | a batch ends in success after its last claim, or with an error at the first claim that is not answered, and without a result map exactly when the claim store could not be read |
| Batches.UnprepareBatchExactly | pkg/driver/server.go:133-159 | an unprepare batch gets past failed cleanups, and stops without results exactly at an entry that cannot be read or deleted |
| Batches.UnprepareResultKeys | pkg/driver/server.go:133-159 | a batch that returns results has one for every claim |
| Batches.UnprepareResultExactly | pkg/driver/server.go:146-157 | a result is nil exactly when the last cleanup of that claim did not fail |
| Batches.BatchResults | pkg/driver/server.go:41-77 | result keys are exactly the processed prefix, ready results report stored devices, only the last can be an error |
| Retries.UnprepareOneRetry | pkg/driver/server.go:136-155 | one attempt keeps the entry unchanged or releases it completely |
| Retries.UnprepareBatchRetry | pkg/driver/server.go:133-157 | after any batch the entry is intact or gone with its ports and directories, and a nil result means gone |
| Retries.EntrySurvivesUntilReleased | pkg/driver/server.go:127-160 | over any run an entry survives unchanged until an unprepare releases it completely |
| Retries.CleanupSucceedsExactly | pkg/devicestate/devicestate.go:318-360 | a cleanup succeeds exactly when no port deletion and no directory removal fails, whatever the spec removals do |
| Retries.UnprepareAnswersExactly | pkg/driver/server.go:136-155 | the answer for a stored claim, by which of the read, the cleanup calls and the entry deletion fail |
| Retries.CleanAttemptReleases | pkg/driver/server.go:146-155 | an attempt without failing calls always releases the claim |
| Retries.CachedAnswerCanBeUnbacked | pkg/driver/server.go:152-154 | for every stored claim one failing entry deletion makes a later prepare report it ready with nothing behind it |
| RoundTrip.PrepareSucceedsExactly | pkg/devicestate/devicestate.go:192-235 | under any failure pattern, success holds exactly for well-formed claims with free, different port names and a configuration when none of the three calls per device and the spec write fails |
| RoundTrip.PrepareAnswersExactly | pkg/driver/server.go:45-72 | the handler's answer for a claim that is not stored, by which calls fail |
| RoundTrip.DistinctRequests | pkg/devicestate/devicestate.go:252-269 | devices of one claim have different ports, directories and mount points exactly when their requests differ |
| StuckPorts.OrphanStays | pkg/driver/server.go:35-160 | over any run a port that no stored claim lists stays unchanged |
| StuckPorts.LeftPortIsOrphan | pkg/devicestate/devicestate.go:305-315 | a port left by a refused prepare is one it wanted, on record, and listed by no stored claim |
| StuckPorts.BlockedForever | pkg/devicestate/devicestate.go:262-265 | while such a port has a wanted name, no run ever prepares the claim |
| StuckPorts.PreparableAgainExactly | pkg/devicestate/devicestate.go:192-303 | a claim whose port names no stored claim lists can be prepared in some run exactly when it is well-formed with one request per device and its port names are free |
| StuckPorts.PreparableInAnyRun | pkg/driver/server.go:35-160 | the same in every state of a run of fresh claims |
| RoundTrip.PrepareThenUnprepare | pkg/driver/server.go:55-155 | prepare then unprepare restores all four stores, and everything else stays unchanged in between |
| NodeDriver.Node.CreateSocketDir | pkg/socketfs/socketfs.go:55-72 | directory made with permissions right under the existing host root, or removed again with the removal error dropped |
| NodeDriver.Node.RemoveSocketDir | pkg/socketfs/socketfs.go:74-79 | directory removed or on record |
| NodeDriver.Node.CreateOvsPort | pkg/ovs/client.go:420-469 | port created, or no effect when the call fails or the name exists |
| NodeDriver.Node.DeleteOvsPort | pkg/ovs/client.go:473-503 | port found by name and removed from the named bridge only, with a not-found answer |
| NodeDriver.Node.CreateClaimSpecFile | pkg/cdi/cdi.go:65-103 | one CDI device with one mount per prepared device, written whole or not at all |
| NodeDriver.Node.DeleteClaimSpecFile | pkg/cdi/cdi.go:106-114 | spec removed or on record |
| NodeDriver.Node.ClaimStoreGet | pkg/claimstore/claimstore.go:93-110 | the stored devices, the empty list, or a read error |
| NodeDriver.Node.ClaimStoreSet | pkg/claimstore/claimstore.go:113-126 | stored, or no effect |
| NodeDriver.Node.ClaimStoreDelete | pkg/claimstore/claimstore.go:129-137 | deleted, or no effect |
| NodeDriver.Node.UnprepareOneDevice | pkg/devicestate/devicestate.go:333-360 | the new stores and the answer are those of the cleanup function |
| NodeDriver.Node.UnprepareResourceClaim | pkg/devicestate/devicestate.go:318-331 | the loop tries every device and reports whether all succeeded |
| NodeDriver.Node.PrepareDevice | pkg/devicestate/devicestate.go:237-303 | the new stores and the device are those of installing its plan |
| NodeDriver.Node.PrepareResults | pkg/devicestate/devicestate.go:211-223 | devices, status entries and stores of the loop up to the first failing device |
| NodeDriver.Node.PrepareResourceClaim | pkg/devicestate/devicestate.go:192-235 | the whole prepare with its checks and rollbacks |
| NodeDriver.Node.PrepareOneClaim | pkg/driver/server.go:45-72 | the loop body of the prepare handler |
| NodeDriver.Node.PrepareResourceClaims | pkg/driver/server.go:35-78 | stores, result map, error and status notices of the prepare handler |
| NodeDriver.Node.PreparedDevicesToResult | pkg/driver/server.go:162-170 | the kubelet devices in order |
| NodeDriver.Node.UnprepareOneClaim | pkg/driver/server.go:136-155 | the loop body of the unprepare handler |
| NodeDriver.Node.UnprepareResourceClaims | pkg/driver/server.go:127-160 | stores and result map of the unprepare handler |
| NodeDriver.Node.UpdateConfig | pkg/devicestate/devicestate.go:101-115 | configuration cleared or set, with the default root for an empty path |
| NodeDriver.Node.UpdatePolicyDevices | pkg/devicestate/devicestate.go:160-188 | a bad list changes nothing, a good one replaces the devices even when republishing fails, and devices stay well advertised |
| StatusWriter.ApiServer.AttemptUpdate | pkg/driver/server.go:87-117 | one attempt: write, and on conflict refetch, UID check and merge |
| StatusWriter.ApiServer.UpdateClaimStatus | pkg/driver/server.go:80-118 | the retry loop makes exactly the writes of the protocol function |
| StatusWriter.AttemptKeepsSync | pkg/driver/server.go:93-116 | after any attempt the copy to be written still shows what the server committed for other drivers |
| StatusWriter.VerdictExact | pkg/driver/server.go:87-117 | an attempt succeeds exactly on an accepted write, and is retried exactly when neither an error was permanent nor the refetched UID another one |
| StatusWriter.PublishDisciplined | pkg/driver/server.go:87-118 | every write carries the original UID and the snapshotted entries and loses nothing; none follows an accepted write, a permanent error or a refetched claim of another UID; and each sends the refetched status merged, or the same again |
| StatusWriter.PublishBounded | pkg/consts/consts.go:63-69 | no more writes than steps, and no giving up before them unless cancelled or final |
| StatusWriter.UndisturbedAccepted | pkg/driver/server.go:87-94 | a write that is handled while its copy is current is accepted |
| StatusWriter.RefetchedIsCurrent | pkg/driver/server.go:96-116 | after a conflict the retry on the refetched claim is accepted unless others write again |
| StatusWriter.NoLostUpdates | pkg/driver/server.go:80-125 | at most five writes, none given up early, an undisturbed one accepted; and a successful one keeps the allocation, the consumers and the others' entries in order and stores exactly the snapshotted own ones |
| Publishing.PreparedClaimInSync | pkg/driver/server.go:71-84 | the claim handed to the status writer is still in sync with the version it was read at |
| Publishing.PreparedStatusComplete | pkg/devicestate/devicestate.go:374-401 | the status list shows for every prepared key the entry of its last device |
| Publishing.PreparedNotice | pkg/driver/server.go:55-72 | what the handler hands to the status writer is the claim with the others' entries in order, and under every key of this driver's results an entry that shows the stored device of the last of them, share ID included |
| Publishing.BatchNotices | pkg/driver/server.go:41-77 | the claims handed on are exactly those the batch newly stored |
| Publishing.BatchNoticesOnce | pkg/driver/server.go:41-77 | each of them once |
| Publishing.PreparedStatusPublished | pkg/driver/server.go:71-118 | when the update for a claim of the batch succeeds the API server shows its stored devices beside the others' untouched entries |
| NumaTable.OvsClient.Handle | pkg/ovs/client.go:337-350 | an event changes the table and notifies as the step relation says |
| NumaTable.OvsClient.HandleInterfaceDelete | pkg/ovs/client.go:354-379 | in any map order the interface leaves one bridge that has it, empty inner maps go, and that bridge is notified |
| NumaTable.OvsClient.BridgeNumaNodes | pkg/ovs/client.go:386-404 | the nodes of the bridge's interfaces, each once |
| NumaTable.AgreesUnique | pkg/ovs/client.go:93-95 | the flat relation determines the nested table |
| NumaTable.StepAgrees | pkg/ovs/client.go:337-379 | one event does to the table what its replay does to the relation, and touches and notifies the bridge concerned |
| NumaTable.TableReplaysEvents | pkg/ovs/client.go:294-379 | after any events without an unremoved move the table is the replayed relation, one bridge per interface and no empty inner map |
| NumaTable.OneBridgeExactly | pkg/ovs/client.go:337-343 | adding an interface keeps one bridge per interface if and only if it was not under another bridge |
| Topology.BuiltTopology | pkg/deviceplugin/manager.go:100-118 | the topology maps exactly the listed bridges to their resources, and fails exactly when a bridge is listed with two |
| Topology.ReconciledServes | pkg/deviceplugin/manager.go:123-141 | after a full update a resource is served as specified exactly when no start it needed failed, and then it has no server at all |
| Topology.RefreshKeepsServed | pkg/deviceplugin/manager.go:146-167 | after an interface change on one bridge its resource is served as specified unless the start failed, and then not at all; the others as before |
| Topology.IncrementalEqualsFull | pkg/deviceplugin/manager.go:146-167 | an incremental refresh and a full update reach the same map of resources to nodes |
| Topology.StepKeepsFaithful | pkg/deviceplugin/manager.go:95-167 | every operation keeps this: without a missed change a resource is served as specified exactly when it is not down, never on a node that is not wanted, and not at all while down |
| Topology.FaithfulInAnyRun | pkg/deviceplugin/manager.go:57-65 | the same in every state of every run |
| Topology.UndisturbedRunMatches | pkg/deviceplugin/manager.go:57-65 | a run without failed starts, StopAll and bridge deletions matches the specification in every state |
| Topology.SocketsApartInAnyRun | pkg/deviceplugin/deviceplugin_server.go:75-81 | in every state of every run over slash-free suffixes no two served resources share a socket |
| Topology.UpdateHeals | pkg/deviceplugin/manager.go:93-142 | a full update without failed starts matches the specification whatever the history |
| DevicePluginManager.Manager.GetConsistentNuma | pkg/deviceplugin/manager.go:212-241 | the node all bridges of the group share, or -1 when there is none |
| DevicePluginManager.Manager.EnsureServer | pkg/deviceplugin/manager.go:172-207 | the resource is served on the shared node, or has no server when there is none or the start failed; others untouched, an unchanged server kept |
| DevicePluginManager.Manager.OnInterfaceChange | pkg/deviceplugin/manager.go:146-167 | exactly the resource of the bridge is re-evaluated, lifecycle invariant kept |
| DevicePluginManager.Manager.StopAll | pkg/deviceplugin/manager.go:244-253 | no server is left running or recorded |
| DevicePluginManager.Manager.GroupBridges | pkg/deviceplugin/manager.go:100-118 | the topology and the bridges of each resource, or a conflict |
| DevicePluginManager.Manager.UpdateResources | pkg/deviceplugin/manager.go:95-142 | in any map order the servers are reconciled with the new topology, a conflict changes nothing, unchanged servers are kept |
| DevicePluginManager.Manager.HandleEvent | pkg/ovs/client.go:294-379 | an OVS event with its notification is one step of the system |
| DevicePluginManager.Manager.Drive | pkg/deviceplugin/manager.go:57-65 | every run keeps the lifecycle invariant, each of its states is faithful to the specification, and over slash-free suffixes the running servers never share a socket |
| DevicePluginManager.DistinctSockets | pkg/deviceplugin/deviceplugin_server.go:70-81 | running servers listen on different sockets for slash-free suffixes |
| PolicyReconciler.AcceptedListAgrees | pkg/controllers/controller_ovsdpdkresourcepolicy.go:129-139 | a list the device side accepts never conflicts on the plugin side and both describe the same bridges |
| PolicyReconciler.CandidatesExactly | pkg/controllers/controller_ovsdpdkresourcepolicy.go:106-115 | the candidates are exactly the bridges of the policies that apply to the node, in order |
| PolicyReconciler.ActiveExactly | pkg/controllers/controller_ovsdpdkresourcepolicy.go:115-126 | collecting fails exactly when a lookup does, and otherwise yields in order exactly the candidates found present |
| PolicyReconciler.AdvertisedExactly | pkg/controllers/controller_ovsdpdkresourcepolicy.go:103-132 | over an accepted list a bridge is advertised exactly when it exists and a policy that applies to the node lists it |
| PolicyReconciler.Reconciler.CollectBridges | pkg/controllers/controller_ovsdpdkresourcepolicy.go:103-127 | the present bridges of the matching policies in order, or a lookup error |
| PolicyReconciler.Reconciler.Reconcile | pkg/controllers/controller_ovsdpdkresourcepolicy.go:81-142 | exactly the present candidates are advertised, with their specs; advertised devices and topology agree after the final return, a bad list changes neither, and each error path is exact |

## Left out

- Naming.Join: the container root is taken to be a clean path other than "/", so cleaning of that configured text is not modelled.
- Kube.HexDigits: UIDs with fewer than eight characters besides dashes make the source panic and are excluded by the type `Uid`.
- Request names with '/' (subrequests) and names that path cleaning would change are excluded by the types `PathName` and `PathElement`; only `SocketFs` covers what the code does for a subrequest.
- Process crashes between calls, and OVSDB errors reported after a commit: the driver does not recover from them.
- Other actors that change OVS ports, directories or CDI specs while the driver is working; what exists at the start is covered as foreign.
- Configuration changes in the middle of a prepare: the container root and the allocatable devices are read once per claim.
- Events dropped because the interface channel is full, and the race between a bridge-delete notification and its table cleanup: only handled events are modelled.
- Interface resolution (PCI addresses, sysfs, OVSDB lookups): an added interface comes with its bridge and node, or unresolved.
- The kubelet watcher, re-registration, gRPC serving and the device list of a plugin server: easy members beside starting and stopping.
- The classification of API errors by isPermanentError: errors come classified as conflict, permanent or transient.
- JSON encoding, bbolt, logging, error texts, backoff delays, user lookup, ACLs and SELinux labels.
- Node affinity matching, command-line wiring, deployment files, mocks and generated code.
