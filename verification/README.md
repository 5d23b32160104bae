# A verified model of the BOSH LXD CPI

This Dafny project models the resource lifecycle of the BOSH LXD CPI: the calls that create and
delete VMs, disks, snapshots and stemcells, the nightly cleanup of configuration volumes, the
throttle in front of the executable, and the lock around instance creation. It proves what every
reachable state keeps, wherever a call fails, and what each call does when it goes through.
`dafny verify dfyconfig.toml` checks all of it.

## How it is built

**One world, single mutations.** `World.dfy` holds the instances with their devices, the volumes of
the pool (by name, then location), images and aliases, the local agent files and the UUIDs drawn.
An `Effect` is one mutation; `Enabled` is what the server refuses, `Apply` what it does. A failed
request changes nothing. The contract of the server is: UUIDs are fresh, names are free, an attached
volume is not deleted, every instance has a location, and a volume request that names no location
finds a volume only when it has exactly one copy.

**Calls are plans.** `Plans.dfy` gives for each call the mutations it asks for, in order, computed
from the state it starts in and from what it does not control (UUIDs, map iteration order, the place
the server picks). `Runs(w, plan, w', rest)` says that the plan was carried out from `w` up to
`rest`; every failure, refusal or crash is such a prefix, and a completed call is the one with
nothing left. The theorems about whole runs (`Safety`, `SystemRuns`, `Lifecycle`, `Agreement`,
`Teardown`, `Creation`, `Rollback`, `Cleanup`, `Colocation`, `Doubling`, `Repair`, `Stemcells`) are
about these plans. `Outcomes.dfy` spells out in full what the completed calls leave.

**The code is imperative.** `Adapter.dfy` (class `Cloud`), `AgentFiles.dfy` and `Cpi.dfy` (class
`CPI`) follow the Go functions statement by statement, with their loops over maps, early returns and
in-place changes of the world. Requests fail at will. Each method is proved to carry out a prefix of
its plan and to report success exactly when nothing is left (`Performs`), so every theorem about
plans is a theorem about the methods. `CPI.CreateVM`, `CPI.DeleteVM` and `CleanUp` also state the
resulting world outright.

**Protocols are state machines over interleaved steps.** `Etag.dfy` interleaves the two halves of
conditional updates, and `BlindWrites.dfy` puts a detach beside them; `Concurrent.dfy` interleaves
the requests of any number of calls, a detach being a read and a blind write; `Throttle.dfy` makes
each access to the token map atomic and keeps check and insert apart; `CreateLock.dfy` is the file
lock that lets a waiter through after its timeout. The classes `ThrottleServer` and `FileLock` hold the code of one handler or creator, with
whatever the others do in between, and are proved to perform steps of these machines (`Replay.dfy`).

## What the proofs found

- The `err` of the ephemeral block shadows the one the deferred rollback reads
  (`src/cpi/create_vm.go:163-181`). A failure there is possible exactly when an ephemeral disk is
  asked for (`Rollback.ShadowedWhen`). It leaves the instance behind, and, exactly when the
  attachment failed, an ephemeral volume (`Rollback.ShadowedFailure`, `Rollback.LeakWhen`, with an
  example in `Rollback.LeakExample`) that no later call and no cleanup ever removes
  (`Rollback.ShadowedLeakStays`).
- A retry of `DeleteVM` finishes the job exactly as far as the instance is still there or its volumes
  are already gone: once an attempt has deleted the instance, what is left of its two volumes stays
  (`Teardown.StrandedExactly`, `Teardown.StrandingWhen`). Stranded configuration volumes are left to
  the cleanup; stranded ephemeral ones stay for ever (`Lifecycle.StrandedLeakStays`).
- A detach sends no etag and undoes every attach whose write came between its read and its write,
  and only these (`BlindWrites.BlindWriteLosesAttach`, with a run in `BlindWrites.AttachIsLost`).
- A volume to be moved can end up with two copies (`Colocation.DoublingWhen`); one that is still
  attached elsewhere always does once it is copied (`Colocation.AttachedVolumeIsDoubled`). No later
  call can then use, delete or repair it (`Doubling.DoubledForGood`, `Doubling.DoubledIsStuck`).
- An `AttachDiskV2` that stops after it has added the device and before it has stored the hint blocks
  every further attach on that VM (`Repair.AttachCompletesWhen`, `Repair.BlockingStop`). After this
  stop and every other, a `DetachDisk` of the disk brings settings and devices back into agreement
  (`Repair.DetachRepairs`).
- A `CreateStemcell` can be repeated unless it stopped between image and alias
  (`Stemcells.LostAliasBlocksRetry`, `Stemcells.LosingStop`). If it stopped after the alias, the
  repetition succeeds without the predeployed VM (`Stemcells.PredeployIsSkipped`).
- A cleanup finds the new configuration volume of a settings write from its making to its attachment,
  and can delete it as long as the write is not done (`SweepRace.FoundExactly`,
  `SweepRace.DeletableExactly`, `SweepRace.SweepTakesNewVolume`). Without a cleanup, calls never
  attach a configuration or ephemeral volume that is missing (`Sources.OwnVolumesAreThere`).
- With two calls on one VM, the blind write of a detach can bring back a configuration or ephemeral
  disk that the other call has detached in the meantime, and its volume may even be gone
  (`Concurrent.ReattachedWhen`, `Races.ReattachingRun`, `Sources.DanglesExactly`). The volume never
  moves to another VM or device name (`Concurrent.OneOwnerForLife`).
- `DeleteStemcell` reports success without doing anything when it cannot look up the predeployed VM
  (`src/cpi/delete_stemcell.go:18-20`, contract of `CPI.DeleteStemcell`).
- The configured throttle `limit` is documented as the maximum number of concurrent processes
  (`docs/CONFIGURATION.md:89`). With K handlers between check and insert the code can hand out
  K - 1 more (`Throttle.LimitBoundIsReached`).
- `ThrottleClient.Unlock` reads the response before it looks at the error and crashes when there is
  none (`src/throttle/client.go:85-86`).
- Snapshot CIDs are refused with a message that speaks of `/`; the separator is `_`
  (`src/cpi/delete_snapshot.go:16-18`). The model follows the code.

## Model

| member | source | states |
|---|---|---|
| Lifecycle.EveryStateSound | src/cpi/utils_agent.go:30-60 | In every state of every run of all calls and the cleanup, each call stopping anywhere, every disk device names an existing volume and each `vol-c-`/`vol-e-` volume is behind at most one device of all instances |
| Safety.StepKeepsInv | src/cpi/utils_disk.go:7-16 | Each single mutation the CPI may ask for keeps the whole invariant: sources exist, single use, device names fit volume prefixes, no volume or file bears a UUID still to come, transient volumes have one copy |
| Safety.RunKeepsInv | src/cpi/delete_vm.go:30-48 | A plan of lawful mutations keeps the invariant wherever it stops |
| SystemRuns.OpLawful | src/cpi/attach_disk.go:44-49 | Every call asks only for lawful mutations in the states it reaches: it attaches a transient volume only when it has just made it, and makes only volumes with the UUID it drew |
| SystemRuns.PerformKeepsInv | src/cpi/create_vm.go:148-189 | Any call, stopped anywhere, leads from a sound state to a sound state |
| Lifecycle.OpIntroducesFresh | src/cpi/create_vm.go:163-178 | No call makes or attaches a transient volume whose UUID is already out, from any state it may pass |
| Lifecycle.OpTidy | src/cpi/utils_agent.go:30-63 | Within one call a volume is made at most once and a transient volume attached at most once |
| Lifecycle.SealedForGood | src/cpi/utils_agent.go:12-30 | Once a volume's UUID is out and nothing in flight will make (or attach) it, no later state of any run will |
| Lifecycle.NeverReattached | src/cpi/utils_agent.go:43-63 | In runs of one call at a time, a configuration or ephemeral volume that was attached and is detached is never attached again |
| Lifecycle.OneOwnerForLife | src/cpi/utils_agent.go:30-63 | In runs of one call at a time, the VMs that use a transient volume at two moments are the same |
| Lifecycle.NeverRecreated | src/cpi/delete_vm.go:40-48 | A deleted transient volume never comes back |
| Lifecycle.LeakIsPermanent | src/cpi/create_vm.go:170-178 | An ephemeral volume without a device, with no call in flight, stays unattached and undeleted in every later state |
| Lifecycle.OpDropsUsed | src/cpi/delete_vm.go:40-48 | No call deletes an ephemeral volume that no device uses |
| Concurrent.EveryStateSound | src/adapter/lxd/device.go:7-64 | With any number of calls in flight, each detach a read and a later blind write, and calls free to change their plans on what they read, each `vol-c-`/`vol-e-` volume is behind at most one device of all instances |
| Concurrent.ReattachedWhen | src/adapter/lxd/device.go:24-64 | With any number of calls in flight, a transient volume that was attached and no longer is comes into use again iff a detach writes back, under another name than its own, what it had read while the volume was attached |
| Concurrent.ReattachedExactly | src/adapter/lxd/device.go:24-64 | The same for every single step of every run |
| Concurrent.ReattachingTakesTwo | src/adapter/lxd/device.go:42-63 | While that detach holds what it has read, it is another call that detaches the volume |
| Races.ReattachingRun | src/cpi/detach_disk.go:14-30 | On every VM with a configuration disk and a data disk, a run of two detach calls in which the configuration volume is attached, detached, and attached again |
| Concurrent.OneOwnerForLife | src/cpi/utils_agent.go:30-63 | With any number of calls in flight, two moments at which a transient volume is in use have the same VM and the same device name |
| Discipline.OpGood | src/cpi/create_vm.go:163-178 | Every call draws the UUID of a transient volume before it attaches it, and attaches it once |
| Discipline.OpPrepared | src/cpi/utils_agent.go:30-63 | Between the two it makes the volume |
| Discipline.OpDropsUsed | src/cpi/utils_agent.go:43-58 | Every call but the cleanup deletes, of the transient volumes, only what was in use when it began |
| Sources.DanglesExactly | src/adapter/lxd/device.go:7-64 | With any number of calls in flight, a step leaves a disk device without its volume iff it attaches a missing volume or a detach writes back a device whose volume is missing by now |
| Sources.SourcesExistExactly | src/adapter/lxd/device.go:7-64 | So over every run: all sources exist in all states iff no step is of these two kinds |
| Sources.OwnVolumesAreThere | src/cpi/utils_agent.go:30-63 | In a run in which no cleanup is started, the volume a call attaches is never a missing `vol-c-`/`vol-e-` volume |
| SweepRace.FoundExactly | src/cmd/cleanup/main.go:44-59 | At a stop of a settings write the cleanup finds the new configuration volume iff the volume exists and the write is not done |
| SweepRace.DeletableExactly | src/cmd/cleanup/main.go:53-67 | Found at one stop, the volume can be deleted at a later one iff the write is still not done, that is, iff nobody uses the volume there |
| SweepRace.ArmedIsFound | src/adapter/lxd/volume.go:73-84 | With any number of calls in flight, a configuration volume that exists and that some call is still to attach is found |
| SweepRace.SweepTakesNewVolume | src/cmd/cleanup/main.go:53-69 | Such a stop is always possible: the volume is then deleted, and the rest of the write attaches it |
| Agreement.RunAgrees | src/cpi/attach_disk.go:32-57 | Over every run without half-done calls in which disks are attached only when unattached: `/dev/sdc` is hinted for D iff `persistent-1` has source D, `/dev/sdd` iff `persistent-2`, `/dev/sdb` iff `ephemeral` exists, and the attached configuration volume encodes the stored settings |
| Agreement.AttachAgrees | src/cpi/attach_disk.go:24-57 | A completed attach keeps the three views of every VM in agreement |
| Agreement.DetachAgrees | src/cpi/detach_disk.go:14-30 | A completed detach keeps them in agreement, whichever device the search picks |
| Agreement.DeleteAgrees | src/cpi/delete_vm.go:25-50 | A completed delete keeps the views of all other VMs in agreement |
| Agreement.CreateAgrees | src/cpi/create_vm.go:160-189 | A completed create adds a VM whose views agree and disturbs no other |
| Agreement.ThirdAttachRefused | src/cpi/attach_disk.go:32-42 | Where the views agree and both persistent devices exist, every further attach on that VM, of any disk, fails and changes nothing |
| Agreement.SlotsFullExactly | src/cpi/attach_disk.go:34-42 | Where the views agree and no other field mentions the paths, no slot is found exactly when both persistent devices exist |
| Outcomes.AttachBuilds | src/cpi/attach_disk.go:24-63 | A completed attach: the disk is in the slot the settings offer and hinted at its path, its one copy is complete and where the VM is (or untouched on shared storage), the settings are stored and in a new configuration volume, and nothing else has changed |
| Outcomes.DetachBuilds | src/cpi/detach_disk.go:14-30 | A completed detach: one device with the disk is gone if there was one, the disk's hint is gone, the settings are stored and in a new configuration volume, and no other volume has changed |
| Outcomes.SlotExactly | src/cpi/attach_disk.go:32-42 | The slot is `/dev/sdc` as `persistent-1` if that path occurs nowhere in the settings, else `/dev/sdd` as `persistent-2` if that one does not, else none |
| Creation.CreateBuilds | src/cpi/create_vm.go:134-189 | On success the new VM is running with exactly its given devices, `config`, and `ephemeral` iff a size was asked for; its volumes are where it is, the configuration volume encodes the stored settings; everything else is unchanged and the names were free |
| Creation.EphemeralHinted | src/cpi/create_vm.go:163-181 | `/dev/sdb` is hinted iff `ephemeral` is attached iff the size is positive, and the device names are exactly these |
| Outcomes.NewVolumesPlaced | src/cpi/create_vm.go:156-187 | Each new volume of a VM has one copy, at the VM's location, or at none in a shared pool: the settings as stored, and a blank disk of the size asked for |
| Creation.WriteBuilds | src/cpi/utils_agent.go:11-64 | A completed write leaves the new configuration volume attached and encoding the stored file; of the volumes it deletes at most the previous configuration volume |
| Outcomes.PreviousGoneExactly | src/cpi/utils_agent.go:30-64 | After a completed write the settings are stored and in the one copy of the new `vol-c-` volume, where the VM is; the previous configuration volume is gone when the status was Stopped or Stopping, and otherwise there as it was; no other volume has changed |
| Rollback.RollbackLeavesOnlyConfig | src/cpi/create_vm.go:148-189 | When a failure the rollback sees is followed by a `DeleteVM` that goes through, instance, ephemeral volume and agent file are gone, and the only possible difference to before, besides UUIDs, is one unattached configuration volume |
| Rollback.ResidueExactly | src/cpi/utils_agent.go:33-61 | That volume is left exactly when the last stage stopped with it made and not yet attached |
| Rollback.ShadowedFailure | src/cpi/create_vm.go:163-181 | A failure in the ephemeral block leaves the stopped instance as it was made and no agent file; beside it a blank unattached volume stays exactly when it was the attachment that failed |
| Rollback.ShadowedWhen | src/cpi/create_vm.go:163-181 | A failure the rollback does not see is possible iff the requested ephemeral size is positive |
| Rollback.LeakWhen | src/cpi/create_vm.go:164-178 | Such a failure can leave a new volume behind iff the size is positive and the volume's UUID is still to be drawn |
| Rollback.LeakExample | src/cpi/create_vm.go:170-178 | A concrete case on an empty server: instance and volume stay, no agent file exists |
| Rollback.RollbackTouchesOwn | src/cpi/create_vm.go:148-152 | Wherever the rollback itself stops, nothing differs from before but the new VM, its file, its own two volumes and the UUIDs |
| Rollback.ShadowedLeakStays | src/cpi/create_vm.go:170-178 | After a failed attachment in the block the volume stays, unattached, in every later state of every run |
| Rollback.StartCuts | src/cpi/create_vm.go:183-189 | Wherever writing and starting stop, the world is at one of six listed states |
| Teardown.DeleteRemovesExactly | src/cpi/delete_vm.go:25-50 | In every order of the disk loop a successful delete removes the instance, its file and the sources of its `config` and `ephemeral` devices, and nothing else |
| Teardown.DeleteErodes | src/cpi/delete_vm.go:16-50 | Wherever a delete stops it has touched nothing but this VM, its file and its two volumes |
| Teardown.RetriesConverge | src/cpi/delete_vm.go:16-50 | After any number of attempts that stopped anywhere, one that goes through ends with instance and file absent, and every other VM and every volume but the sources of the VM's `config` and `ephemeral` devices untouched |
| Teardown.StrandedExactly | src/cpi/delete_vm.go:17-48 | One of the VM's own two volumes survives the attempt that goes through iff it was still there and an earlier attempt had already deleted the instance |
| Teardown.StrandingWhen | src/cpi/delete_vm.go:35-48 | From a sound state, an attempt can delete the instance and leave a transient volume it used, now without any user, iff the volume is the source of the `config` or `ephemeral` device |
| Teardown.DeleteIsIdempotent | src/cpi/delete_vm.go:17-23 | A further delete of a deleted VM cannot be refused and changes nothing |
| Teardown.DeleteIsNotRefused | src/cpi/delete_vm.go:25-50 | In a sound state the server refuses no step of a delete: the instance is gone first and each volume has one copy and no other user |
| Outcomes.StoppedBeforeDeletion | src/cpi/delete_vm.go:25-38 | Whenever a delete comes to the instance itself, its status is Stopped or Stopping |
| Outcomes.VolumesGoneExactly | src/cpi/delete_vm.go:30-50 | A completed delete has removed the instance, its file, the volume behind `config` and the one behind `ephemeral`, and nothing else |
| Teardown.StrandedVolumesStay | src/cpi/delete_vm.go:17-23 | Once an attempt has deleted the instance, no later one deletes a volume or brings the instance back |
| Lifecycle.StrandedLeakStays | src/cpi/delete_vm.go:35-48 | An ephemeral volume stranded by attempts to delete its VM stays in every later state of every run, cleanups included |
| Cleanup.SweepLeavesConfigSources | src/cmd/cleanup/main.go:53-69 | After any run, failed calls included and none in flight, deleting what the sweep finds is never refused, leaves as `vol-c-` volumes exactly the sources of `config` devices, and touches no attached volume and no other prefix |
| Cleanup.SweepDrops | src/cmd/cleanup/main.go:59-67 | The deletions go through in every order and remove exactly the chosen volumes |
| Cleanup.InUseIsBehindConfig | src/adapter/lxd/volume.go:73-84 | In a sound state a configuration volume has a user iff it is behind a `config` device |
| Cleanup.CleanUp | src/cmd/cleanup/main.go:44-71 | The loop processes every orphan once; it counts each as removed or failed, touches nothing in a dry run or when the usage cannot be read, and without failures has removed all of them and nothing else |
| Colocation.ColocateNeverLoses | src/adapter/lxd/volume.go:86-119 | In every intermediate and failed state there is a copy, every copy is complete with its snapshots, and nothing else has changed |
| Colocation.ColocateMoves | src/adapter/lxd/volume.go:97-118 | Success leaves exactly one copy at the instance's location, or the untouched one when it was in place or on shared storage |
| Colocation.ColocateCompletesWhen | src/adapter/lxd/volume.go:97-118 | The move can go through iff the volume is unique and either there is nothing to move or no instance uses it |
| Colocation.DoublingWhen | src/adapter/lxd/volume.go:97-118 | A volume can end up with two copies iff it is to be moved at all |
| Colocation.AttachedVolumeIsDoubled | src/adapter/lxd/volume.go:113-118 | Moving a volume in use elsewhere stops before the copy with nothing changed, or after it with exactly two copies; it never completes |
| Doubling.DoubledForGood | src/adapter/lxd/volume.go:92-118 | A disk in two places, with no call in flight, keeps exactly these copies in every later state of every run |
| Doubling.DoubledIsStuck | src/adapter/lxd/volume.go:12-14 | No attach, deletion or snapshot of a disk in two places goes through |
| Repair.DetachRepairs | src/cpi/detach_disk.go:14-30 | From agreeing views and an unattached disk, after an attach that stopped anywhere, a detach of the disk that goes through makes the views of all VMs agree again |
| Repair.RepairIsPossible | src/cpi/detach_disk.go:14-30 | After every stop of the attach the server refuses no step of that detach |
| Repair.DetachCompletesWhen | src/cpi/detach_disk.go:14-30 | In a sound state the server lets a detach through iff the VM and its settings are there |
| Repair.AttachCompletesWhen | src/cpi/attach_disk.go:34-57 | In a sound state the server lets an attach through iff the slot the settings offer is free on the instance and the disk has one copy that is in place or in no use; an attach that stopped with its device added and its hint not stored thus blocks every further one |
| Repair.BlockingStop | src/cpi/attach_disk.go:49-57 | Where an attach is possible it can also stop so: the disk attached, the stored settings old, their slot taken |
| Repair.WriteIsNotRefused | src/cpi/utils_agent.go:11-64 | In a sound state the server refuses no step of a settings write |
| Placement.ReconcileNetworks | src/cpi/create_vm.go:56-105 | In every map order the loop succeeds iff the network is unmanaged or all targets asked for agree, yields that common target, and names the cards `eth0` to `eth(n-1)`, one for each network; a card has a fixed address iff the network is managed, is not dynamic and names an address; BOSH is told each network as it is, or, with DHCP on a managed network, a dynamic one with the planned address and all else the same |
| Placement.CardsAreABijection | src/cpi/create_vm.go:59-111 | There are as many cards as networks, each under its own name, none called `root` or like a disk device |
| Placement.EthNames | src/cpi/create_vm.go:60 | Card names are `eth` and a decimal number, distinct, and never collide with a disk device |
| Placement.ChooseConfig | src/cpi/create_vm.go:118-132 | The loop yields the value of the last matching key in its order, else the default, else the error |
| Placement.ChoicesExactly | src/cpi/create_vm.go:118-132 | Over all orders the outcomes are exactly the non-empty values of matching keys, plus the default (or the error when it is empty) if no key matches or some matching value is empty |
| Placement.OneMatchOneChoice | src/cpi/create_vm.go:120-126 | With at most one matching key the outcome does not depend on the order |
| Placement.ContainsMiddle | src/cpi/create_vm.go:120-126 | A key occurs in a description that has it in the middle |
| Placement.ContainsSplit | src/cpi/create_vm.go:120-126 | A key that occurs in a description stands in the middle of it, between a text before and one after |
| Etag.EveryRunIsSerial | src/adapter/lxd/device.go:7-22 | Every interleaving of the reads and conditional writes equals running the calls that succeeded one after the other, in the order of their writes |
| Etag.OrderIsRealTime | src/adapter/lxd/instance.go:44-53 | The serial order only grows: what has succeeded before another call begins precedes it |
| Etag.NoAttachIsLost | src/adapter/lxd/device.go:13-21 | Every attach that succeeded is in the device map, under a name that was free; no device from the beginning has changed |
| Etag.OneAttachPerName | src/adapter/lxd/device.go:13-17 | Of two attaches under one name at most one succeeds, in every interleaving |
| BlindWrites.BlindWriteLosesAttach | src/adapter/lxd/device.go:24-40 | In every interleaving of conditional calls with a detach: its write restores what it had read but for its device, and an attach that has succeeded under another name is missing afterwards iff its own write came after the detach's read |
| BlindWrites.AttachIsLost | src/adapter/lxd/device.go:42-63 | On every instance with a device to detach, a run in which an attach succeeds and its device is missing at the end |
| BlindWrites.SerialUntilWrite | src/adapter/lxd/device.go:7-22 | Until the detach writes, the conditional calls beside it are serialised |
| Adapter.UpdatePerforms | src/adapter/lxd/device.go:19-21 | The conditional update of the concurrent model is the mutation of the world model, with the same refusals |
| Throttle.WithinLimit | src/throttle/server.go:105-118 | With at most K handlers between check and insert, active transactions plus these handlers never exceed limit - 1 + K, in every interleaving with deletes and sweeps |
| Throttle.SerialisedWithinLimit | src/throttle/server.go:105-118 | With one handler at a time the limit is never exceeded |
| Throttle.LimitBoundIsReached | src/throttle/server.go:106-116 | For every limit and K some run holds limit - 1 + K transactions at once: the bound is exact |
| Throttle.EveryTransactionAccounted | src/throttle/server.go:60-87 | In every interleaving each issued transaction is active, released or expired, and only one of these; none expires before its hold is over |
| Throttle.LeavesOnce | src/throttle/server.go:60-87 | A transaction that left the table stays released, or stays expired |
| Throttle.ExpiresOnTime | src/throttle/server.go:60-70 | With ticks on time none is active beyond its hold and ten seconds, whether or not a client releases it |
| ThrottleService.ThrottleServer.HandlePost | src/throttle/server.go:105-120 | Beside any activity of other handlers, the sweep and the clock: refuses iff the table is full at the check, otherwise its own actions are that check and, after whatever the others did, one insertion of a fresh id with the time of the insertion, or none |
| ThrottleService.ThrottleServer.HandleDelete | src/throttle/server.go:74-87 | Beside any activity of others: the status is decided at the lookup; only a 204 changes anything, and afterwards the transaction is out of the table, released or expired |
| ThrottleService.ThrottleServer.ExpireTransactions | src/throttle/server.go:63-68 | One tick, in any map order and beside any activity of others, leaves none of the transactions overdue when it began; with no one beside it, exactly those within their hold |
| ThrottleService.LockAndWait | src/throttle/client.go:56-72 | Holds a transaction only by a 201 without an error, and fails only by an error that is no 429; every reply before is a 429 or neither an error nor a 201, and the time slept is ten seconds for each 429 and one for each other reply |
| ThrottleService.Unlock | src/throttle/client.go:74-95 | A late unlock gets 404, reports success and changes nothing; a timely one takes the transaction out; no response at all is a crash that changes nothing |
| ThrottleService.ServeUnderThrottle | src/cmd/cpi/main.go:41-69 | Polling, serving and unlocking beside any activity of others: after an early exit the transaction is in the table or expired and was never released; after a normal one it is out of the table |
| CreateLock.EveryStateSound | src/cpi/create_vm.go:192-210 | In every run of creators the lock is held by exactly the one that went in with it, and whoever timed out has waited for the whole timeout |
| CreateLock.AllButOneTimedOut | src/cpi/create_vm.go:192-210 | At most one creator is inside with the lock; of n guarded creators inside `CreateInstance` at least n - 1 timed out |
| CreateLock.OnlyTheOwnerReleases | src/cpi/create_vm.go:199-201 | The lock is given up only by its owner's own return or end, and never taken while held |
| CreateLock.ReturnedHoldsNothing | src/cpi/create_vm.go:199-209 | Whoever has returned, on whatever path, does not hold the lock, then or later |
| CreateLock.FreeInTheEnd | src/cpi/create_vm.go:199-209 | Once every creator has returned the lock is free |
| CreateLock.FileLock.TryLockContext | src/cpi/create_vm.go:194-205 | While other creators take and release the lock between the tries, polling ends with the lock, with the deadline after the whole timeout, or with an error; its only own action is that last one |
| Stemcells.RunKeepsOneAlias | src/cpi/create_stemcell.go:34-40 | Over sequential runs, failed calls included, each description has at most one aliased image |
| Stemcells.RepeatReturnsTheSame | src/cpi/create_stemcell.go:34-40 | Repeating a completed `CreateStemcell` finds the same alias and uploads nothing |
| Stemcells.CreateUploads | src/adapter/lxd/image.go:91-116 | A completed upload adds one image, its alias and at most the predeployed VM |
| Stemcells.CreateThenDeleteRestores | src/cpi/delete_stemcell.go:13-28 | Deleting a fresh stemcell, predeployed or not, restores images, aliases and instances |
| Stemcells.PredeployNameOf | src/cpi/create_stemcell.go:129-131 | The predeployed VM of `img-X` is `vm-X-predeploy` |
| Stemcells.ReplacesFirst | src/cpi/create_stemcell.go:129-131 | In any alias exactly the first occurrence of the prefix is replaced, and an alias without one stays as it is |
| Stemcells.LostAliasBlocksRetry | src/adapter/lxd/image.go:101-116 | A `CreateStemcell` for a stemcell that is not there, stopped anywhere, can be repeated for the same archive, whatever the search finds, iff it did not stop between the image and its alias |
| Stemcells.LosingStop | src/adapter/lxd/image.go:96-116 | That stop is always possible |
| Stemcells.PredeployIsSkipped | src/cpi/create_stemcell.go:38-40 | When the alias was made, a repetition returns it and makes no predeployed VM, whether or not the first call got that far |
| Stemcells.PredeployMissingExactly | src/cpi/create_stemcell.go:34-124 | After a repetition that goes through, the stemcell returned lacks its predeployed VM iff the first call stopped with the alias made and the VM missing |
| Stemcells.PredeployMissingStop | src/cpi/create_stemcell.go:92-118 | A call for a predeployed stemcell can stop with the alias made and the VM missing |
| SnapshotCid.RoundTripExactly | src/cpi/snapshot_disk.go:18-24 | A printed CID parses back to its volume and snapshot iff the disk CID is not empty and neither part contains `_`; otherwise it is refused |
| SnapshotCid.AcceptedExactly | src/cpi/delete_snapshot.go:16-26 | A CID is accepted iff it is the join of two non-empty parts without separator, and then of these only |
| SnapshotCid.PrintInjective | src/cpi/snapshot_disk.go:24 | Two parsable snapshots with one CID are the same |
| SnapshotCid.SplitSound | src/cpi/delete_snapshot.go:16 | Splitting yields separator-free parts that join to the text |
| Outcomes.SnapshotMade | src/cpi/snapshot_disk.go:18-24 | The CID of a completed `SnapshotDisk` parses to a snapshot that is new, is on the disk with its content, and can be deleted; deleting it gives the pool back as it was |
| Names.VolumeNames | src/cpi/utils_disk.go:7-16 | The prefixes exclude each other and every generated name gives its UUID back |
| Adapter.Cloud.AttachDevice | src/adapter/lxd/device.go:7-22 | Adds the device under a free name, or changes nothing |
| Adapter.Cloud.DetachDeviceByName | src/adapter/lxd/device.go:24-40 | Removes the device if it is there; a missing one is a success without effect |
| Adapter.Cloud.DetachDeviceBySource | src/adapter/lxd/device.go:42-64 | Removes one device with that source, in any map order, and nothing when there is none |
| Adapter.Cloud.CreateInstance | src/adapter/lxd/instance.go:9-30 | Makes the stopped instance with these devices from the image behind the alias, at the target if one is named |
| Adapter.Cloud.GetInstanceLocation | src/adapter/lxd/instance.go:36-42 | The location, with a missing instance told apart from a failed request |
| Adapter.Cloud.UpdateInstanceDescription | src/adapter/lxd/instance.go:44-53 | Changes the description only, or nothing |
| Adapter.Cloud.SetInstanceAction | src/adapter/lxd/instance.go:55-75 | Asks for nothing when a start finds it started, starting or running, or a stop finds it stopped or stopping; else changes the state or nothing |
| Adapter.Cloud.IsInstanceStopped | src/adapter/lxd/instance.go:77-98 | True exactly for stopped and stopping instances |
| Adapter.Cloud.CreateStoragePoolVolume | src/adapter/lxd/volume.go:33-50 | Makes an empty block volume at the target, or changes nothing |
| Adapter.Cloud.DeleteStoragePoolVolume | src/adapter/lxd/volume.go:12-14 | Deletes the volume, refused while attached |
| Adapter.Cloud.ColocateStoragePoolVolumeWithInstance | src/adapter/lxd/volume.go:86-119 | Carries out a prefix of the colocation plan and reports success only for all of it |
| Adapter.Cloud.GetStoragePoolVolumeUsage | src/adapter/lxd/volume.go:73-84 | Lists every volume; the count is zero exactly when no instance uses it |
| Adapter.Cloud.FindExistingImage | src/adapter/lxd/image.go:18-31 | Returns the alias of an image so described, and nothing only when no such image has one |
| Adapter.Cloud.GetStemcellDescription | src/adapter/lxd/image.go:33-47 | The description of the image behind the alias |
| Adapter.Cloud.CreateAndUploadImage | src/adapter/lxd/image.go:96-116 | First the image, then its alias, which then names that image; it may stop in between |
| Adapter.Cloud.DeleteImage | src/adapter/lxd/image.go:119-125 | Removes the image behind the alias with all its aliases, or nothing |
| AgentFiles.Write | src/agentmgr/agent_file_manager.go:67-77 | The local file is stored before the image is built, which may still fail |
| AgentFiles.Read | src/agentmgr/agent_file_manager.go:46-54 | The stored settings; none when the file is missing or unreadable |
| AgentFiles.Delete | src/agentmgr/agent_file_manager.go:57-64 | Removes the file; a missing one is a success |
| Cpi.CPI.FindDisksAttachedToVm | src/cpi/utils_disk.go:27-40 | In any map order, exactly the devices of type disk |
| Cpi.CPI.WriteAgentFileToVM | src/cpi/utils_agent.go:11-64 | Performs a prefix of the write plan; success iff nothing is left to do, and then the world after it outright: stored settings, new volume, and the previous one gone iff the VM was stopped or stopping |
| Cpi.CPI.DeleteDisks | src/cpi/delete_vm.go:40-48 | The loop deletes the sources of `config` and `ephemeral` in some order and ends at the first failure |
| Cpi.CPI.DeleteVM | src/cpi/delete_vm.go:10-51 | Success leaves exactly the world without the VM, its file and its two volumes; a failure anywhere has touched only these |
| Cpi.CPI.AttachDiskV2 | src/cpi/attach_disk.go:15-63 | Performs a prefix of the attach plan; a hint is returned iff all is done, and it is the free path of the settings read |
| Cpi.CPI.DetachDisk | src/cpi/detach_disk.go:8-32 | Performs a prefix of the detach plan for the device the search picked; success iff nothing is left to do |
| Cpi.CPI.CreateDisk | src/cpi/create_disk.go:8-32 | Performs a prefix of drawing an id and making a persistent volume at the VM's location; the CID is returned iff it was made, and then one blank volume of that size under it is all that is new |
| Outcomes.DiskCreated | src/cpi/create_disk.go:8-32 | A completed `CreateDisk` leaves one new blank volume of exactly the size asked for, named `vol-p-` plus the UUID, where the VM is (nowhere in particular in a shared pool), and nothing else |
| Cpi.CPI.DeleteDisk | src/cpi/delete_disk.go:8-20 | Deletes an unattached volume that has one copy, and nothing else, or changes nothing |
| Cpi.CPI.SnapshotDisk | src/cpi/snapshot_disk.go:7-25 | Performs a prefix of drawing an id and making the snapshot; on success the CID is the printed pair, and (without a `_` in disk CID or UUID) it names the snapshot just made on the disk, whose deletion restores the pool |
| Cpi.CPI.DeleteSnapshot | src/cpi/delete_snapshot.go:10-27 | A CID that does not parse changes nothing; otherwise the named snapshot is deleted, or nothing |
| Cpi.CPI.CreateVMWithLock | src/cpi/create_vm.go:192-210 | Beside any activity of other creators: the creator is guarded exactly when the configuration says so, on every path it ends without the lock, and the instance, from the image behind the alias, is made once or not at all; with nobody beside it the lock is as before |
| Cpi.CPI.Provision | src/cpi/create_vm.go:154-189 | For each stage that can fail, where the world then stands; the error the rollback sees is set iff the failed stage is outside the ephemeral block |
| Cpi.CPI.CreateVMV2 | src/cpi/create_vm.go:24-190 | Ends without an instance, complete, shadowed, or rolled back; each ending is a run of the plan, the last followed by a run of `DeleteVM`; the image is the stemcell's, its description chose the instance configuration, and the settings are a possible outcome of the two map loops |
| Cpi.CPI.CreateVM | src/cpi/create_vm.go:15-22 | The world after each ending: unchanged, the built VM, the stopped instance left behind (only with a positive ephemeral size), after a completed rollback at most one unattached configuration volume, after an unfinished one nothing but the VM's own things; the invariant holds in all of them; the VM is from the stemcell asked for, on the target and network asked for |
| Cpi.CPI.LaunchedAsAsked | src/cpi/create_vm.go:41-56 | A target or network in the cloud properties comes before that of the configuration, which is used otherwise: every card is on that network and the VM at that target if there is one |
| Cpi.CPI.CreateStemcell | src/cpi/create_stemcell.go:15-127 | Performs a prefix of the plan for what the search found; the CID is the existing alias or the new one; a VM is predeployed only with a new image: stopped, from that image, with a root disk only, at the configured target if there is one |
| Cpi.CPI.DeleteStemcell | src/cpi/delete_stemcell.go:7-29 | Success is reported iff all is done or the lookup of the predeployed VM failed, and in that case nothing is done |
| Cpi.CPI.HasVM | src/cpi/has_vm.go:8-20 | Whether the instance exists; a failed request is an error, a missing instance is not |
| World.RunsToTheEnd | src/cpi/delete_vm.go:25-50 | A call that leaves nothing to do has had every mutation accepted, and conversely; the final state is unique |

## Left out

- The LXD and Incus HTTP clients, TLS, projects and target connections, and the error text the LXD wait helper ignores ("LXD VM agent"): every request succeeds or fails at will under the server contract above.
- `src/adapter/incus`: a near copy of the LXD adapter.
- ISO9660 and FAT32 image building, temporary files and partition constants: a configuration volume's content is an abstract encoding of one agent environment. A partly written local file is not modelled.
- The JSON text of the agent settings: `Mentions` says which device paths occur in it, through disk hints or through other fields (`mentioned`).
- The tar and gzip search in `CreateStemcell` and the image metadata: the archive is readable or not.
- Parsing of cloud properties, configuration loading, exit codes 1 and 2 of the cleanup, ERB templates, scripts, logging and `CalculateVMCloudProperties`; routes and aliases of BOSH networks.
- `ResizeDisk`, `RebootVM`, `HasDisk`, `GetDisks`, disk metadata and volume descriptions: one request each. `SetVMMetadata` appears in runs with its effect on the instance only.
- Sockets, HTTP framing, the GET listing and other methods of the throttle, and real sleeping: an abstract clock and status codes.
- A nil `associatedVMCID` in `CreateDisk`, which the code dereferences: callers name a VM.
- Interference between two CPI processes inside one call, outside `Concurrent`, `Races`, `Sources`, `SweepRace`, `Etag`, `BlindWrites`, `Throttle` and `CreateLock`: the other theorems about runs interleave at the boundary of calls, and within a call at every point where it may stop.
- Concurrent.EveryStateSound: an attach and a description update, which send the etag, are one request each; `Etag.EveryRunIsSerial` is about their halves. Of a detach both halves are modelled.
- Sources.DanglesExactly: whether the server refuses a device whose volume is missing is not modelled.
- Etag.EveryRunIsSerial: does not cover the detach calls, because they send an empty etag; `BlindWrites.BlindWriteLosesAttach` says exactly what they undo.
- BlindWrites.BlindWriteLosesAttach: one detach beside any number of conditional calls.
- CreateLock.EveryStateSound: assumes one creator for each lock object, as one process serves one request; a second creator on the same object would be granted the lock again.
- Cpi.CPI.CreateVMV2: starts from states that satisfy the invariant every reachable state keeps.
- Adapter.Cloud.FindExistingImage: assumes that aliases are not empty and point at images, as the server keeps them.
- ThrottleService.ServeUnderThrottle: polls a bounded number of times, and otherwise still waits.
- ThrottleService.LockAndWait: takes the replies it will get as a finite sequence, because the loop itself may wait for ever.
