/** The disk and VM calls of the CPI, each carrying out its plan step by step. */
module Cpi {
  import opened Names
  import opened World
  import opened Plans
  import opened Safety
  import opened SystemRuns
  import opened Placement
  import opened SnapshotCid
  import opened Stemcells
  import opened Teardown
  import opened Creation
  import opened Rollback
  import opened CreateLock
  import opened Replay
  import opened Adapter
  import AgentFiles
  import opened Steps
  import opened Provisioning
  import opened Outcomes

  class CPI {
    const cloud: Cloud
    const pool: string
    const config: Config
    const lock: FileLock
    const me: Pid

    constructor (cloud: Cloud, pool: string, config: Config, lock: FileLock, me: Pid)
      ensures this.cloud == cloud && this.pool == pool && this.config == config && this.lock == lock && this.me == me
    {
      this.cloud, this.pool, this.config, this.lock, this.me := cloud, pool, config, lock, me;
    }

    // ---- utils_disk.go

    method AttachDiskDeviceToVM(vm: string, name: string, disk: string) returns (ok: bool)
      modifies cloud
      ensures AllOrNothing(old(cloud.w), AddDevice(vm, name, VolumeDisk(pool, disk)), cloud.w, ok)
    {
      ok := cloud.AttachDevice(vm, name, VolumeDisk(pool, disk));
    }

    method FindDisksAttachedToVm(vm: string) returns (disks: Option<map<string, Device>>)
      ensures disks.Some? ==> vm in cloud.w.instances && disks.value == DisksOf(cloud.w.instances[vm].devices)
      ensures disks.Some? ==> forall n :: n in disks.value <==>
        n in cloud.w.instances[vm].devices && !cloud.w.instances[vm].devices[n].Nic?
    {
      var devices := cloud.GetDevices(vm);
      if devices.None? { return None; }
      var order := RangeOrder(devices.value.Keys);
      var found: map<string, Device> := map[];
      for i := 0 to |order|
        invariant found.Keys == set n | n in order[..i] && n in devices.value && devices.value[n].IsDisk()
        invariant forall n :: n in found ==> n in devices.value && found[n] == devices.value[n]
      {
        assert order[i] in order && order[..i + 1] == order[..i] + [order[i]];
        if devices.value[order[i]].IsDisk() {
          found := found[order[i] := devices.value[order[i]]];
        }
      }
      assert order[..|order|] == order;
      return Some(found);
    }

    // ---- utils_agent.go

    /** The last part of a write: the old configuration device out, its volume deleted if the VM is
        stopped, the new device in. */
    method ReplaceConfigDevice(vm: string, volume: string) returns (ok: bool, ghost rest: Plan)
      requires vm in cloud.w.instances
      modifies cloud
      ensures Runs(old(cloud.w), ReplaceConfig(pool, vm, old(cloud.w).instances[vm], volume, Done), cloud.w, rest)
      ensures ok <==> rest == Done
    {
      ghost var w0 := cloud.w;
      ghost var plan := ReplaceConfig(pool, vm, w0.instances[vm], volume, Done);
      rest := plan;
      var disks := FindDisksAttachedToVm(vm);
      if disks.None? { return false, rest; }
      if DISK_DEVICE_CONFIG in disks.value {
        ok := cloud.DetachDeviceByName(vm, DISK_DEVICE_CONFIG);
        if !ok { return; }
        Carried(w0, plan, w0, rest, cloud.w, ok);
        rest := rest.rest;
        ghost var w1 := cloud.w;
        var stopped := cloud.IsInstanceStopped(vm);
        if stopped.None? { return false, rest; }
        if stopped.value {
          ok := cloud.DeleteStoragePoolVolume(disks.value[DISK_DEVICE_CONFIG].Source());
          Carried(w0, plan, w1, rest, cloud.w, ok);
          if !ok { return; }
          rest := rest.rest;
        }
      }
      ghost var w2 := cloud.w;
      ok := AttachDiskDeviceToVM(vm, DISK_DEVICE_CONFIG, volume);
      Carried(w0, plan, w2, rest, cloud.w, ok);
      if ok { rest := Done; }
    }

    method WriteAgentFileToVM(vm: string, env: AgentEnv) returns (ok: bool, ghost uuid: string, ghost rest: Plan)
      requires Located(cloud.w)
      modifies cloud
      ensures Runs(old(cloud.w), WritePlan(old(cloud.w), pool, vm, env, uuid, Done), cloud.w, rest)
      ensures ok <==> rest == Done
      ensures ok && Inv(old(cloud.w)) ==> WriteLeaves(old(cloud.w), cloud.w, pool, vm, env, uuid)
    {
      ghost var w0 := cloud.w;
      uuid, rest := "", WritePlan(w0, pool, vm, env, "", Done);
      var id := AgentFiles.Generate(cloud);
      if id.None? { return false, uuid, rest; }
      ghost var plan := WritePlan(w0, pool, vm, env, id.value, Done);
      uuid, rest := id.value, plan.rest;
      ghost var w1 := cloud.w;
      Carried(w0, plan, w0, plan, w1, true);

      ghost var stored;
      var image;
      image, stored := AgentFiles.Write(cloud, vm, env);
      ghost var w2 := cloud.w;
      Carried(w0, plan, w1, rest, w2, stored);
      if stored { rest := rest.rest; }
      if image.None? { return false, uuid, rest; }

      var target, _ := cloud.GetInstanceLocation(vm);
      if target.None? { return false, uuid, rest; }
      ghost var at;
      ok, at := cloud.CreateStoragePoolVolumeFromISO(target.value, ConfigName(id.value), image.value);
      ghost var w3 := cloud.w;
      Carried(w0, plan, w2, rest, w3, ok);
      if !ok { return; }

      ghost var todo := rest.rest;
      ok, rest := ReplaceConfigDevice(vm, ConfigName(id.value));
      Continue(w0, plan, w3, todo, cloud.w, rest);
      if ok && Inv(w0) { PreviousGoneExactly(w0, pool, vm, env, uuid, cloud.w); }
    }

    // ---- delete_vm.go

    method HasVM(vm: string) returns (found: Option<bool>)
      requires Located(cloud.w)
      ensures found.Some? ==> (found.value <==> vm in cloud.w.instances)
    {
      var connected := cloud.IsConnected();
      if !connected { return None; }
      var location, missing := cloud.GetInstanceLocation(vm);
      if location.None? {
        return if missing then Some(false) else None;
      }
      return Some(location.value != "");
    }

    /** The map of the disks is ranged over in any order; the first failure ends it. */
    method DeleteDisks(disks: map<string, Device>) returns (ok: bool, ghost order: seq<string>, ghost rest: Plan)
      modifies cloud
      ensures IsOrder(order, disks.Keys)
      ensures Runs(old(cloud.w), DropDisks(disks, order, Done), cloud.w, rest)
      ensures ok <==> rest == Done
    {
      var names := RangeOrder(disks.Keys);
      order := names;
      ghost var w0 := cloud.w;
      assert order[0..] == order;
      var i := 0;
      while i < |names|
        invariant 0 <= i <= |names|
        invariant Runs(w0, DropDisks(disks, order, Done), cloud.w, DropDisks(disks, order[i..], Done))
      {
        assert names[i] in names && order[i..][1..] == order[i + 1..];
        if names[i] == DISK_DEVICE_CONFIG || names[i] == DISK_DEVICE_EPHEMERAL {
          ghost var w1 := cloud.w;
          ok := cloud.DeleteStoragePoolVolume(disks[names[i]].Source());
          Carried(w0, DropDisks(disks, order, Done), w1, DropDisks(disks, order[i..], Done), cloud.w, ok);
          if !ok { return false, order, DropDisks(disks, order[i..], Done); }
        }
        i := i + 1;
      }
      return true, order, Done;
    }

    /** Success removes the VM with its file and its two volumes and nothing else; a failure anywhere
        has touched only these. */
    method DeleteVM(vm: string) returns (ok: bool, ghost order: seq<string>, ghost rest: Plan)
      requires Located(cloud.w)
      modifies cloud
      ensures Performs(pool, Op.DeleteVM(vm, order), old(cloud.w), cloud.w, rest)
      ensures ok <==> rest == Done
      ensures ok ==> cloud.w == Deleted(old(cloud.w), vm)
      ensures Eroded(old(cloud.w), cloud.w, vm, DisposableSources(old(cloud.w), vm))
    {
      ghost var w0 := cloud.w;
      order := SomeOrder(if vm in w0.instances then DisksOf(w0.instances[vm].devices).Keys else {});
      ok, rest := false, DeletePlan(w0, vm, order);
      var found := HasVM(vm);
      if found.Some? {
        if found.value {
          ok, order, rest := TearDown(vm);
        } else {
          ok := AgentFiles.Delete(cloud, vm);
          Carried(w0, rest, w0, rest, cloud.w, ok);
          if ok { rest := Done; }
        }
      }
      if ok { DeleteRemovesExactly(w0, vm, order, cloud.w); }
      DeleteErodes(w0, vm, order, cloud.w, rest, DisposableSources(w0, vm));
    }

    /** The part of `DeleteVM` for a VM that is there. */
    method TearDown(vm: string) returns (ok: bool, ghost order: seq<string>, ghost rest: Plan)
      requires vm in cloud.w.instances
      modifies cloud
      ensures IsOrder(order, DisksOf(old(cloud.w).instances[vm].devices).Keys)
      ensures Runs(old(cloud.w), DeletePlan(old(cloud.w), vm, order), cloud.w, rest)
      ensures ok <==> rest == Done
    {
      ghost var w0 := cloud.w;
      order := SomeOrder(DisksOf(w0.instances[vm].devices).Keys);
      ok := cloud.SetInstanceAction(vm, false);
      if !ok { return false, order, DeletePlan(w0, vm, order); }
      ghost var w1 := cloud.w;
      rest := AfterStop(w0, vm, order, w1);
      var disks := FindDisksAttachedToVm(vm);
      if disks.None? { return false, order, rest; }
      ok := cloud.DeleteInstance(vm);
      ghost var w2 := cloud.w;
      if !ok { return; }
      ok, order, rest := DeleteDisks(disks.value);
      ghost var todo := AfterStop(w0, vm, order, w1);
      Carried(w0, DeletePlan(w0, vm, order), w1, todo, w2, true);
      DropDisksAndThen(disks.value, order, Then(DropFile(vm), Done));
      RunsAndThen(w2, DropDisks(disks.value, order, Done), cloud.w, rest, Then(DropFile(vm), Done));
      rest := AndThen(rest, Then(DropFile(vm), Done));
      Continue(w0, DeletePlan(w0, vm, order), w2, todo.rest, cloud.w, rest);
      if !ok { return; }
      ghost var w3 := cloud.w;
      ok := AgentFiles.Delete(cloud, vm);
      Carried(w0, DeletePlan(w0, vm, order), w3, rest, cloud.w, ok);
      if ok { rest := Done; }
    }

    // ---- attach_disk.go

    /** The disk hint; none is an error. */
    method AttachDiskV2(vm: string, disk: string) returns (path: Option<DevicePath>, ghost uuid: string, ghost rest: Plan)
      requires Located(cloud.w) && ClassOf(disk) == PersistentVolume
      modifies cloud
      ensures Performs(pool, Op.AttachDisk(vm, disk, uuid), old(cloud.w), cloud.w, rest)
      ensures path.Some? <==> rest == Done
      ensures path.Some? ==> vm in old(cloud.w).files && SlotPath(old(cloud.w).files[vm]) == path
    {
      path, uuid, rest := None, "", AttachPlan(cloud.w, pool, vm, disk, "");
      AttachHasSteps(cloud.w, pool, vm, disk, "");
      var connected := cloud.IsConnected();
      if !connected { return; }
      var agentEnv := AgentFiles.Read(cloud, vm);
      if agentEnv.None? { return; }
      var free: DevicePath;
      var name: string;
      if !agentEnv.value.Mentions(SDC) {
        free, name := SDC, DISK_DEVICE_PERSISTENT1;
      } else if !agentEnv.value.Mentions(SDD) {
        free, name := SDD, DISK_DEVICE_PERSISTENT2;
      } else {
        return;
      }
      var ok;
      ok, uuid, rest := AttachAt(vm, disk, agentEnv.value, free, name);
      if ok { path := Some(free); }
    }

    /** The part of `AttachDiskV2` once the slot is chosen. */
    method AttachAt(vm: string, disk: string, env: AgentEnv, free: DevicePath, name: string) returns (ok: bool, ghost uuid: string, ghost rest: Plan)
      requires Located(cloud.w) && vm in cloud.w.files && cloud.w.files[vm] == env && FreeSlot(env) == Some((free, name))
      modifies cloud
      ensures Runs(old(cloud.w), AttachPlan(old(cloud.w), pool, vm, disk, uuid), cloud.w, rest)
      ensures ok <==> rest == Done
    {
      ghost var w0 := cloud.w;
      uuid := "";
      ghost var moved;
      ok, moved := cloud.ColocateStoragePoolVolumeWithInstance(vm, disk);
      ghost var w1 := cloud.w;
      rest := MovedRuns(w0, pool, vm, disk, w1, moved);
      if !ok { return; }
      ok := AttachDiskDeviceToVM(vm, name, disk);
      if !ok { return; }
      ok, uuid, rest := WriteAgentFileToVM(vm, env.(persistent := env.persistent[disk := free]));
      AttachRuns(w0, pool, vm, disk, uuid, w1, cloud.w, rest);
    }

    // ---- detach_disk.go

    method DetachDisk(vm: string, disk: string) returns (ok: bool, ghost pick: string, ghost uuid: string, ghost rest: Plan)
      requires Located(cloud.w) && ClassOf(disk) == PersistentVolume
      modifies cloud
      ensures Performs(pool, Op.DetachDisk(vm, disk, pick, uuid), old(cloud.w), cloud.w, rest)
      ensures ok <==> rest == Done
    {
      ghost var w0 := cloud.w;
      pick := if vm in w0.instances then SomePick(w0.instances[vm].devices, disk) else "";
      ok, uuid, rest := false, "", DetachPlan(w0, pool, vm, disk, pick, "");
      var connected := cloud.IsConnected();
      if !connected { return; }
      ok, pick := cloud.DetachDeviceBySource(vm, disk);
      rest := DetachPlan(w0, pool, vm, disk, pick, "");
      if !ok { return; }
      ghost var w1 := cloud.w;
      assert pick != "" ==> w0.HasDevice(vm, pick);
      if pick != "" { rest := rest.rest; }
      assert Runs(w1, rest, w1, rest);

      var agentEnv := AgentFiles.Read(cloud, vm);
      if agentEnv.None? { return false, pick, uuid, rest; }
      var env := agentEnv.value;
      ok, uuid, rest := WriteAgentFileToVM(vm, env.(persistent := env.persistent - {disk}));
    }

    // ---- create_disk.go, delete_disk.go

    method CreateDisk(size: int, vm: string) returns (cid: Option<string>, ghost uuid: string, ghost rest: Plan)
      requires Located(cloud.w)
      modifies cloud
      ensures Performs(pool, Op.CreateDisk(vm, size, uuid), old(cloud.w), cloud.w, rest)
      ensures cid == if rest == Done then Some("vol-p-" + uuid) else None
      ensures cid.Some? && Inv(old(cloud.w)) ==>
        vm in old(cloud.w).instances && DiskMade(old(cloud.w), cloud.w, cid.value, old(cloud.w).instances[vm].location, size, uuid)
    {
      ghost var w0 := cloud.w;
      cid, uuid, rest := None, "", CreateDiskPlan(w0, vm, size, "");
      var connected := cloud.IsConnected();
      if !connected { return; }
      var id := AgentFiles.Generate(cloud);
      if id.None? { return; }
      ghost var plan := CreateDiskPlan(w0, vm, size, id.value);
      ghost var w1 := cloud.w;
      uuid, rest := id.value, plan.rest;
      Carried(w0, plan, w0, plan, w1, true);
      var target, _ := cloud.GetInstanceLocation(vm);
      if target.None? { return; }
      ghost var at;
      var ok;
      ok, at := cloud.CreateStoragePoolVolume(target.value, PersistentName(id.value), size);
      Carried(w0, plan, w1, rest, cloud.w, ok);
      if ok { cid, rest := Some(PersistentName(id.value)), Done; }
      if ok && Inv(w0) { DiskCreated(w0, vm, size, uuid, cloud.w); }
    }

    method DeleteDisk(disk: string) returns (ok: bool, ghost rest: Plan)
      requires ClassOf(disk) == PersistentVolume
      modifies cloud
      ensures Performs(pool, Op.DeleteDisk(disk), old(cloud.w), cloud.w, rest)
      ensures ok <==> rest == Done
      ensures ok ==> |old(cloud.w).Copies(disk)| == 1 && !old(cloud.w).Attached(disk)
      ensures cloud.w == if ok then old(cloud.w).(volumes := old(cloud.w).volumes - {disk}) else old(cloud.w)
    {
      ghost var w0 := cloud.w;
      rest := Then(DropVolume(disk), Done);
      var connected := cloud.IsConnected();
      if !connected { return false, rest; }
      ok := cloud.DeleteStoragePoolVolume(disk);
      Carried(w0, rest, w0, rest, cloud.w, ok);
      if ok { rest := Done; }
    }

    // ---- snapshot_disk.go, delete_snapshot.go

    /** The CID is returned beside an error of the server, too. */
    method SnapshotDisk(disk: string) returns (cid: string, ok: bool, ghost uuid: string, ghost rest: Plan)
      modifies cloud
      ensures Performs(pool, Op.SnapshotDisk(disk, uuid), old(cloud.w), cloud.w, rest)
      ensures ok <==> rest == Done
      ensures ok ==> cid == Print(disk, uuid)
      ensures ok && disk != "" && Free(disk, '_') && Free(uuid, '_') ==> SnapshotThere(old(cloud.w), cloud.w, disk, cid)
    {
      ghost var w0 := cloud.w;
      cid, ok, uuid := "", false, "";
      rest := PlanOf(w0, pool, Op.SnapshotDisk(disk, uuid));
      var connected := cloud.IsConnected();
      if !connected { return; }
      var id := AgentFiles.Generate(cloud);
      if id.None? { return; }
      uuid := id.value;
      ghost var plan := PlanOf(w0, pool, Op.SnapshotDisk(disk, uuid));
      ghost var w1 := cloud.w;
      Carried(w0, plan, w0, plan, w1, true);
      rest := plan.rest;
      ok := cloud.CreateStoragePoolVolumeSnapshot(disk, "snap-" + id.value, disk);
      Carried(w0, plan, w1, rest, cloud.w, ok);
      if ok { rest := Done; }
      cid := Print(disk, id.value);
      if ok && disk != "" && Free(disk, '_') && Free(uuid, '_') { SnapshotMade(w0, disk, uuid, cloud.w); }
    }

    /** A CID that does not parse is refused before anything is asked of the server. */
    method DeleteSnapshot(cid: string) returns (ok: bool)
      modifies cloud
      ensures ok ==> Parse(cid).Some? && Enabled(old(cloud.w), DropSnapshot(Parse(cid).value.0, Parse(cid).value.1))
      ensures cloud.w == if ok then Apply(old(cloud.w), DropSnapshot(Parse(cid).value.0, Parse(cid).value.1)) else old(cloud.w)
    {
      var connected := cloud.IsConnected();
      if !connected { return false; }
      var parts := Split(cid, '_');
      if |parts| != 2 { return false; }
      var volumeName, snapshotName := parts[0], parts[1];
      if volumeName == "" || snapshotName == "" { return false; }
      ok := cloud.DeleteStoragePoolVolumeSnapshot(volumeName, snapshotName);
    }

    // ---- create_vm.go

    /** Whatever happens, and whatever the other creators do in between, the creator ends without the
        lock; only a broken lock keeps the instance from being asked for. */
    method CreateVMWithLock(vm: string, alias: string, target: string, devices: map<string, Device>, settings: Settings, busy: bool)
      returns (ok: bool, ghost instance: Instance, ghost actions: seq<Action>)
      requires lock.Valid() && me !in lock.state.creators
      modifies cloud, lock
      ensures lock.Valid() && Replays(Creators(lock.timeout), old(lock.state), actions, lock.state)
      ensures InPhase(lock.state, me, Returned) && lock.state.owner != Some(me)
      ensures [Call(me, config.lockEnabled)] <= actions && (ok ==> Return(me) in actions)
      ensures !busy ==> lock.state.owner == old(lock.state.owner)
      ensures AllOrNothing(old(cloud.w), MakeInstance(vm, instance), cloud.w, ok)
      ensures ok ==> alias in old(cloud.w).aliases && instance.image == old(cloud.w).aliases[alias]
      ensures instance.location != "" && (target != "" ==> instance.location == target)
      ensures instance.status == Stopped && instance.devices == devices && instance.config == settings
    {
      ghost var before := lock.state;
      actions := lock.Act(Call(me, config.lockEnabled), before, []);
      if config.lockEnabled {
        var r;
        r, actions := lock.TryLockContext(me, busy, before, actions);
        if r.Broken? {
          return false, Instance(if target == "" then "none" else target, Stopped, devices, "", "", settings), actions;
        }
      }
      ok, instance := cloud.CreateInstance(vm, alias, target, devices, settings);
      actions := lock.Others(me, busy, before, actions);
      assert Fair(lock.timeout, lock.state, me);
      actions := lock.Act(Return(me), before, actions);
      assert Fair(lock.timeout, lock.state, me);
    }

    /** The block with the ephemeral disk, from the drawing of its id to its attachment. */
    method AddEphemeral(vm: string, target: string, size: int, ghost launch: Launch) returns (ok: bool, ghost uuid: string, ghost rest: Plan)
      requires target != "" && launch.Vm() == vm && launch.instance.location == target && launch.ephemeralMB == size > 0
      modifies cloud
      ensures Runs(old(cloud.w), EphemeralPlan(old(cloud.w), pool, launch.(ephemeralUuid := uuid), Done), cloud.w, rest)
      ensures ok <==> rest == Done
    {
      ghost var w0 := cloud.w;
      ok, uuid, rest := false, "", EphemeralPlan(w0, pool, launch.(ephemeralUuid := ""), Done);
      var id := AgentFiles.Generate(cloud);
      if id.None? { return; }
      uuid := id.value;
      ghost var plan := EphemeralPlan(w0, pool, launch.(ephemeralUuid := uuid), Done);
      ghost var w1 := cloud.w;
      Carried(w0, plan, w0, plan, w1, true);
      rest := plan.rest;
      var disk := EphemeralName(id.value);
      ghost var at;
      ok, at := cloud.CreateStoragePoolVolume(target, disk, size);
      ghost var w2 := cloud.w;
      Carried(w0, plan, w1, rest, w2, ok);
      if !ok { return; }
      rest := rest.rest;
      ok := AttachDiskDeviceToVM(vm, DISK_DEVICE_EPHEMERAL, disk);
      Carried(w0, plan, w2, rest, cloud.w, ok);
      if ok { rest := Done; }
    }

    method WriteAndStart(vm: string, env: AgentEnv) returns (ok: bool, ghost uuid: string, ghost rest: Plan)
      requires Located(cloud.w) && vm in cloud.w.instances && cloud.w.instances[vm].status == Stopped
      modifies cloud
      ensures Runs(old(cloud.w), WritePlan(old(cloud.w), pool, vm, env, uuid, Then(SetStatus(vm, Running), Done)), cloud.w, rest)
      ensures ok <==> rest == Done
    {
      ghost var w0 := cloud.w;
      ghost var next := Then(SetStatus(vm, Running), Done);
      ok, uuid, rest := WriteAgentFileToVM(vm, env);
      ghost var w1 := cloud.w;
      WriteQuiet(w0, pool, vm, env, uuid);
      QuietRun(w0, WritePlan(w0, pool, vm, env, uuid, Done), w1, rest);
      WriteAndThen(w0, pool, vm, env, uuid, next);
      RunsAndThen(w0, WritePlan(w0, pool, vm, env, uuid, Done), w1, rest, next);
      rest := AndThen(rest, next);
      if !ok { return; }
      ok := cloud.SetInstanceAction(vm, true);
      Carried(w0, WritePlan(w0, pool, vm, env, uuid, next), w1, next, cloud.w, ok);
      if ok { rest := Done; }
    }

    /** What follows the creation of the instance. `err` is what the deferred rollback sees: the
        errors of the ephemeral block are held in another variable of the same name. */
    method Provision(vm: string, size: int, env: AgentEnv, ghost w0: World, ghost launch0: Launch)
      returns (ok: bool, err: bool, ghost stage: Stage, ghost launch: Launch, ghost rest: Plan)
      requires Inv(w0) && InstanceMade(w0, launch0) && FreshInstance(launch0.instance) && cloud.w == AfterInstance(w0, launch0)
      requires vm == launch0.Vm() && size == launch0.ephemeralMB && env == launch0.env
      modifies cloud
      ensures SameLaunch(launch0, launch)
      ensures Runs(AfterInstance(w0, launch), ProvisionPlan(w0, pool, launch), cloud.w, rest)
      ensures (ok <==> rest == Done) && (ok <==> stage == Finished)
      ensures err <==> SeenByRollback(stage)
      ensures stage == LocationUnread ==> cloud.w == AfterInstance(w0, launch)
      ensures stage == BlockUnfinished ==> Unseen(w0, pool, launch, cloud.w)
      ensures stage == StartUnfinished ==> Completes(AfterInstance(w0, launch), EphemeralPlan(w0, pool, launch, Done))
      ensures stage == StartUnfinished ==> Runs(AfterEphemeral(w0, pool, launch), StartPlan(w0, pool, launch), cloud.w, rest)
      ensures err ==> RollbackPoint(w0, pool, launch, cloud.w)
    {
      ok, err, launch, rest := false, false, launch0, ProvisionPlan(w0, pool, launch0);
      stage := LocationUnread;
      ProvisionHasSteps(w0, pool, launch0);
      var target, _ := cloud.GetInstanceLocation(vm);
      if target.None? {
        err := true;
        return;
      }
      var agentEnv := env;
      if size > 0 {
        ghost var uuid, restE;
        stage := BlockUnfinished;
        ok, uuid, restE := AddEphemeral(vm, target.value, size, launch0);
        launch := launch0.(ephemeralUuid := uuid);
        rest := EphemeralRuns(w0, pool, launch, cloud.w, restE);
        if !ok { return; }
        agentEnv := agentEnv.(ephemeral := Some(SDB));
      }
      assert launch.WantsEphemeral() <==> size > 0;
      assert agentEnv == launch.FinalEnv();
      EphemeralReached(w0, pool, launch, cloud.w);
      ghost var uuidC;
      ok, uuidC, rest := WriteAndStart(vm, agentEnv);
      launch := launch.(configUuid := uuidC);
      StartRuns(w0, pool, launch, cloud.w, rest);
      err := !ok;
      stage := if ok then Finished else StartUnfinished;
    }

    /** The two loops over maps, and the stemcell's description between them. */
    method Settle(stemcell: string, networks: map<string, Network>, initial: string, parent: string)
      returns (r: Option<(NetworkPlan, Settings)>, ghost c: Circumstances)
      ensures r.Some? ==> Settles(config, networks, initial, parent, c, r.value.0, r.value.1) && Describes(cloud.w, stemcell, c.description)
    {
      c := Circumstances(false, "", []);
      var managed := cloud.IsManagedNetwork(parent);
      if managed.None? { return None, c; }
      var plan, order := ReconcileNetworks(networks, managed.value, config.assignment, parent, initial);
      if plan.None? { return None, c; }
      var description := cloud.GetStemcellDescription(stemcell);
      if description.None? { return None, c; }
      var settings, keys := ChooseConfig(config.instanceConfig, description.value);
      if settings.None? { return None, c; }
      ChoicesExactly(config.instanceConfig, description.value, settings);
      c := Circumstances(managed.value, description.value, order);
      return Some((plan.value, settings.value)), c;
    }

    /** The part of `CreateVMV2` before the instance is asked for: an id is drawn and the settings are
        worked out. The properties may turn out unreadable. */
    method Prepare(stemcell: string, networks: map<string, Network>, initial: string, parent: string)
      returns (r: Option<(string, NetworkPlan, Settings)>, ghost uuid: Option<string>, ghost c: Circumstances)
      modifies cloud
      ensures if uuid.Some? then AllOrNothing(old(cloud.w), TakeUuid(uuid.value), cloud.w, true) else cloud.w == old(cloud.w)
      ensures r.Some? ==> uuid == Some(r.value.0) && Describes(cloud.w, stemcell, c.description)
      ensures r.Some? ==> Settles(config, networks, initial, parent, c, r.value.1, r.value.2)
    {
      r, uuid, c := None, None, Circumstances(false, "", []);
      var connected := cloud.IsConnected();
      if !connected { return; }
      var id := AgentFiles.Generate(cloud);
      uuid := id;
      if id.None? { return; }
      var parsed: bool := *;
      if !parsed { return; }
      var settled;
      settled, c := Settle(stemcell, networks, initial, parent);
      if settled.Some? { r := Some((id.value, settled.value.0, settled.value.1)); }
    }

    method CreateVMV2(agentId: string, stemcell: string, props: VMProps, networks: map<string, Network>, mentioned: set<DevicePath>)
      returns (r: Option<(string, map<string, Network>)>, ghost ending: Ending, ghost launch: Launch, ghost c: Circumstances,
               ghost w1: World, ghost rest: Plan, ghost order: seq<string>, ghost undone: Plan)
      requires Inv(cloud.w) && lock.Valid() && me !in lock.state.creators
      modifies cloud, lock
      ensures Performs(pool, Op.CreateVM(launch), old(cloud.w), w1, rest)
      ensures ending == Complete <==> r.Some?
      ensures ending == Complete <==> rest == Done
      ensures ending == NoInstance ==> cloud.w == w1 == old(cloud.w).(used := w1.used)
      ensures ending == Complete ==> cloud.w == w1 && r.value.0 == launch.Vm() && r.value.1 == launch.env.settings.networks
      ensures ending == Shadowed ==> cloud.w == w1 && Unseen(old(cloud.w), pool, launch, w1) && props.ephemeralMB > 0
      ensures ending == RolledBack ==> RollbackPoint(old(cloud.w), pool, launch, w1)
      ensures ending == RolledBack ==> Performs(pool, Op.DeleteVM(launch.Vm(), order), w1, cloud.w, undone)
      ensures ending != NoInstance ==> Launches(launch, agentId, props, networks, mentioned, c)
      ensures ending != NoInstance ==> FromStemcell(old(cloud.w), stemcell, launch, c)
      ensures lock.Valid() && lock.state.owner != Some(me)
    {
      assert Fair(lock.timeout, lock.state, me);
      ghost var w0 := cloud.w;
      r, ending, launch, c, w1, order, undone := None, NoInstance, Unlaunched(""), Circumstances(false, "", []), w0, [], Done;
      var initial, parent := InitialTarget(props), ParentOf(props);
      var prepared;
      ghost var drawn;
      prepared, drawn, c := Prepare(stemcell, networks, initial, parent);
      w1, launch := cloud.w, Unlaunched(if drawn.Some? then drawn.value else "");
      rest := NothingLaunched(w0, pool, drawn, w1);
      if prepared.None? { return; }
      var (id, plan, settings) := prepared.value;
      var vm := VmName(id);
      var devices := plan.devices[DEVICE_ROOT := RootDisk(pool)];
      ghost var instance, actions;
      var ok;
      ok, instance, actions := CreateVMWithLock(vm, stemcell, plan.target, devices, settings, true);
      if !ok { return; }
      SettledIsFresh(pool, config, networks, initial, parent, c, plan, settings, instance);
      var env := AgentEnv(AgentSettings(agentId, vm, plan.networks, mentioned), Some(SDA), None, map[]);
      launch := Launch(id, instance, props.ephemeralMB, env, "", "");
      ok, ending, launch, w1, rest, order, undone := ProvisionOrRollBack(vm, props.ephemeralMB, env, w0, launch);
      if ok { r := Some((vm, plan.networks)); }
    }

    /** The rest of the call under the deferred rollback. */
    method ProvisionOrRollBack(vm: string, size: int, env: AgentEnv, ghost w0: World, ghost launch0: Launch)
      returns (ok: bool, ghost ending: Ending, ghost launch: Launch, ghost w1: World, ghost rest: Plan, ghost order: seq<string>, ghost undone: Plan)
      requires Inv(w0) && InstanceMade(w0, launch0) && FreshInstance(launch0.instance) && FreshEnv(launch0.env)
      requires cloud.w == AfterInstance(w0, launch0) && vm == launch0.Vm() && size == launch0.ephemeralMB && env == launch0.env
      modifies cloud
      ensures SameLaunch(launch0, launch) && Performs(pool, Op.CreateVM(launch), w0, w1, rest)
      ensures (ok <==> ending == Complete) && (ok <==> rest == Done) && ending != NoInstance
      ensures ending == Complete || ending == Shadowed ==> cloud.w == w1
      ensures ending == Shadowed ==> Unseen(w0, pool, launch, w1)
      ensures ending == RolledBack ==> RollbackPoint(w0, pool, launch, w1)
      ensures ending == RolledBack ==> Performs(pool, Op.DeleteVM(launch.Vm(), order), w1, cloud.w, undone)
    {
      order, undone := [], Done;
      var err;
      ghost var stage;
      ok, err, stage, launch, rest := Provision(vm, size, env, w0, launch0);
      InstanceLaunched(w0, pool, launch, cloud.w, rest);
      PerformKeepsInv(pool, Op.CreateVM(launch), w0, cloud.w, rest);
      w1 := cloud.w;
      ending := if stage == Finished then Complete else if SeenByRollback(stage) then RolledBack else Shadowed;
      if err {
        var deleted;
        deleted, order, undone := DeleteVM(vm);
      }
    }

    /** The same call, seen from outside: what the pool, the instances and the agent files look like
        afterwards, however it ended. */
    method CreateVM(agentId: string, stemcell: string, props: VMProps, networks: map<string, Network>, mentioned: set<DevicePath>)
      returns (vm: Option<string>, ghost ending: Ending, ghost launch: Launch, ghost c: Circumstances, ghost undone: Plan)
      requires Inv(cloud.w) && lock.Valid() && me !in lock.state.creators
      modifies cloud, lock
      ensures Inv(cloud.w)
      ensures vm == if ending == Complete then Some("vm-" + launch.vmUuid) else None
      ensures ending == NoInstance ==> cloud.w == old(cloud.w).(used := cloud.w.used)
      ensures ending != NoInstance ==> Launches(launch, agentId, props, networks, mentioned, c)
      ensures ending != NoInstance ==> FromStemcell(old(cloud.w), stemcell, launch, c) && AskedFor(launch, props)
      ensures ending == Complete ==> Built(old(cloud.w), pool, launch, cloud.w)
      ensures ending == Shadowed ==> InstanceLeft(old(cloud.w), launch, cloud.w) && props.ephemeralMB > 0
      ensures ending == RolledBack && undone == Done ==> OnlyConfigLeft(old(cloud.w), launch, cloud.w)
      ensures ending == RolledBack ==> OnlyItsOwn(old(cloud.w), launch, cloud.w)
    {
      ghost var w0 := cloud.w;
      var r;
      ghost var w1, rest, order;
      r, ending, launch, c, w1, rest, order, undone := CreateVMV2(agentId, stemcell, props, networks, mentioned);
      PerformKeepsInv(pool, Op.CreateVM(launch), w0, w1, rest);
      if ending != NoInstance { LaunchedAsAsked(launch, agentId, props, networks, mentioned, c); }
      if ending == Complete {
        CreateBuilds(w0, pool, launch, cloud.w);
      } else if ending == Shadowed {
        UnseenLeaves(w0, pool, launch, w1);
      } else if ending == RolledBack {
        PerformKeepsInv(pool, Op.DeleteVM(launch.Vm(), order), w1, cloud.w, undone);
        InstanceAtRollback(w0, pool, launch, w1);
        RollbackTouchesOwn(w0, pool, launch, w1, order, cloud.w, undone);
        if undone == Done { RollbackLeavesOnlyConfig(w0, pool, launch, w1, order, cloud.w); }
      }
      vm := if r.Some? then Some(r.value.0) else None;
    }

    function InitialTarget(props: VMProps): string { if props.target.Some? then props.target.value else config.target }

    function ParentOf(props: VMProps): string { if props.network.Some? then props.network.value else config.network }

    /** The image is the one behind the stemcell's alias, and its description chose the settings. */
    predicate FromStemcell(w: World, stemcell: string, launch: Launch, c: Circumstances) {
      && stemcell in w.aliases && launch.instance.image == w.aliases[stemcell]
      && Describes(w, stemcell, c.description)
    }

    /** A target and a network in the properties come before those of the configuration: the cards are
        on that network, and the VM is at that target if there is one. */
    predicate AskedFor(launch: Launch, props: VMProps) {
      var target := if props.target.Some? then props.target.value else config.target;
      var network := if props.network.Some? then props.network.value else config.network;
      && (target != "" ==> launch.instance.location == target)
      && (forall n :: n in launch.instance.devices && launch.instance.devices[n].Nic? ==> launch.instance.devices[n].parent == network)
    }

    lemma LaunchedAsAsked(launch: Launch, agentId: string, props: VMProps, networks: map<string, Network>, mentioned: set<DevicePath>, c: Circumstances)
      requires Launches(launch, agentId, props, networks, mentioned, c)
      ensures AskedFor(launch, props)
    {
      var plan, settings :| && Settles(config, networks, InitialTarget(props), ParentOf(props), c, plan, settings)
        && launch.instance.devices == plan.devices[DEVICE_ROOT := RootDisk(pool)] && launch.instance.config == settings
        && (plan.target != "" ==> launch.instance.location == plan.target)
        && launch.env == AgentEnv(AgentSettings(agentId, launch.Vm(), plan.networks, mentioned), Some(SDA), None, map[]);
      if c.managed && InitialTarget(props) != "" { assert InitialTarget(props) in Targets(InitialTarget(props), networks); }
      forall n | n in launch.instance.devices && launch.instance.devices[n].Nic?
        ensures launch.instance.devices[n].parent == ParentOf(props)
      {
        assert n in plan.devices;
        var i := CardNamed(|c.order|, n);
      }
    }

    /** The instance and the settings that were asked for. */
    ghost predicate Launches(launch: Launch, agentId: string, props: VMProps, networks: map<string, Network>, mentioned: set<DevicePath>, c: Circumstances) {
      && FreshInstance(launch.instance) && launch.ephemeralMB == props.ephemeralMB
      && (exists plan, settings ::
          && Settles(config, networks, InitialTarget(props), ParentOf(props), c, plan, settings)
          && launch.instance.devices == plan.devices[DEVICE_ROOT := RootDisk(pool)] && launch.instance.config == settings
          && (plan.target != "" ==> launch.instance.location == plan.target)
          && launch.env == AgentEnv(AgentSettings(agentId, launch.Vm(), plan.networks, mentioned), Some(SDA), None, map[]))
    }

    // ---- create_stemcell.go, delete_stemcell.go

    /** `text` is the name and version of the stemcell. The archive may turn out unreadable. */
    method CreateStemcell(text: string) returns (cid: Option<string>, ghost uuid: string, ghost existing: string, ghost fingerprint: string,
                                                 ghost predeploy: Option<(string, Instance)>, ghost rest: Plan)
      requires AliasesTarget(cloud.w)
      modifies cloud
      ensures Found(old(cloud.w), text, existing)
      ensures Performs(pool, Op.CreateStemcell(uuid, existing, fingerprint, text, predeploy), old(cloud.w), cloud.w, rest)
      ensures cid.Some? ==> rest == Done && cid.value == if existing != "" then existing else "img-" + uuid
      ensures cid.None? ==> rest.Then? || existing != ""
      ensures cid.Some? && existing == "" ==> (predeploy.Some? <==> config.predeploy)
      ensures predeploy.Some? ==> predeploy.value.0 == PredeployName("img-" + uuid)
      ensures cid.Some? && predeploy.Some? ==> Predeployed(predeploy.value.1, fingerprint)
    {
      ghost var w0 := cloud.w;
      cid, uuid, existing, fingerprint, predeploy := None, "", SomeFound(w0, text), "", None;
      rest := CreateStemcellPlan(uuid, existing, fingerprint, text, predeploy);
      var connected := cloud.IsConnected();
      if !connected { return; }
      var id := AgentFiles.Generate(cloud);
      if id.None? { return; }
      uuid := id.value;
      UuidTaken(w0, uuid, existing, fingerprint, text, predeploy, cloud.w);
      rest := CreateStemcellPlan(uuid, existing, fingerprint, text, predeploy).rest;
      ImagesKept(w0, cloud.w);
      var found := cloud.FindExistingImage(text);
      if found.None? { return; }
      existing := found.value;
      UuidTaken(w0, uuid, existing, fingerprint, text, predeploy, cloud.w);
      if found.value != "" {
        cid, rest := found, Done;
        return;
      }
      rest := UploadPlan("img-" + uuid, fingerprint, text, predeploy);
      var readable: bool := *;
      if !readable { return; }
      var ok;
      ok, fingerprint, predeploy, rest := Upload("img-" + id.value, text, w0, uuid);
      if ok { cid := Some("img-" + id.value); }
    }

    /** The predeployed VM: stopped, from the new image, with a root disk only, at the configured target
        if there is one. */
    predicate Predeployed(instance: Instance, fingerprint: string) {
      && instance.image == fingerprint && instance.status == Stopped && instance.config == map[]
      && instance.devices == map["root" := RootDisk(pool)] && (config.target != "" ==> instance.location == config.target)
    }

    /** The image, its alias and, if the configuration says so, the predeployed VM. */
    method Upload(alias: string, text: string, ghost w0: World, ghost uuid: string)
      returns (ok: bool, ghost fingerprint: string, ghost predeploy: Option<(string, Instance)>, ghost rest: Plan)
      requires AllOrNothing(w0, TakeUuid(uuid), cloud.w, true) && alias == "img-" + uuid
      modifies cloud
      ensures Runs(w0, CreateStemcellPlan(uuid, "", fingerprint, text, predeploy), cloud.w, rest)
      ensures ok <==> rest == Done
      ensures ok ==> (predeploy.Some? <==> config.predeploy)
      ensures predeploy.Some? ==> predeploy.value.0 == PredeployName(alias) && FreshInstance(predeploy.value.1)
      ensures ok && predeploy.Some? ==> Predeployed(predeploy.value.1, fingerprint)
    {
      ghost var w1 := cloud.w;
      ok, fingerprint, rest := cloud.CreateAndUploadImage(alias, text);
      predeploy := None;
      ghost var w2 := cloud.w;
      if ok && config.predeploy {
        var vm := PredeployName(alias);
        DeviceNamesDistinct();
        ghost var instance;
        ok, instance := cloud.CreateInstance(vm, alias, config.target, map[DEVICE_ROOT := RootDisk(pool)], map[]);
        predeploy, rest := Some((vm, instance)), PredeployPlan(vm, instance, text);
        ghost var plan, w3 := rest, cloud.w;
        Carried(w2, plan, w2, rest, w3, ok);
        if ok {
          rest := rest.rest;
          ok := cloud.UpdateInstanceDescription(vm, "predeploy vm for " + text);
          Carried(w2, plan, w3, rest, cloud.w, ok);
          if ok { rest := Done; }
        }
        PredeployRuns(w1, alias, fingerprint, text, vm, instance, w2, cloud.w, rest);
      }
      UuidTaken(w0, uuid, "", fingerprint, text, predeploy, w1);
      Continue(w0, CreateStemcellPlan(uuid, "", fingerprint, text, predeploy), w1, UploadPlan(alias, fingerprint, text, predeploy), cloud.w, rest);
    }

    /** When the predeployed VM cannot be looked up, success is reported and nothing is done; after a
        lookup, success means that everything is. */
    method DeleteStemcell(alias: string) returns (ok: bool, ghost lookup: Lookup, ghost rest: Plan)
      requires Located(cloud.w)
      modifies cloud
      ensures Performs(pool, Op.DeleteStemcell(alias, PredeployName(alias)), old(cloud.w), cloud.w, rest)
      ensures ok <==> lookup == LookupFailed || rest == Done
      ensures lookup == LookupFailed ==> cloud.w == old(cloud.w) && rest != Done
      ensures lookup == NotLookedUp ==> cloud.w == old(cloud.w) && rest != Done
      ensures lookup == VMFound || lookup == NoVM ==> (lookup == VMFound <==> PredeployName(alias) in old(cloud.w).instances)
    {
      ghost var w0 := cloud.w;
      ghost var plan := DeleteStemcellPlan(w0, alias, PredeployName(alias));
      lookup, rest := NotLookedUp, plan;
      var connected := cloud.IsConnected();
      if !connected { return false, lookup, rest; }
      var vm := PredeployName(alias);
      var found := HasVM(vm);
      lookup := if found.None? then LookupFailed else if found.value then VMFound else NoVM;
      if found.None? { return true, lookup, rest; }
      if found.value {
        ok := cloud.DeleteInstance(vm);
        Carried(w0, plan, w0, rest, cloud.w, ok);
        if !ok { return; }
        rest := rest.rest;
      }
      ghost var w1 := cloud.w;
      ok := cloud.DeleteImage(alias);
      if ok {
        Carried(w0, plan, w1, rest, cloud.w, ok);
        rest := Done;
      }
    }
  }

  /** What `DeleteStemcell` has learnt about the predeployed VM. */
  datatype Lookup = NotLookedUp | LookupFailed | VMFound | NoVM
}
