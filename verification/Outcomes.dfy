/** What the calls leave behind once they have gone through, spelled out in full. */
module Outcomes {
  import opened Names
  import opened World
  import opened Plans
  import opened Teardown
  import opened Safety
  import opened SystemRuns
  import opened Creation
  import opened Colocation
  import opened Agreement
  import opened SnapshotCid

  /** Where a pool keeps what is made for a VM: at the VM's location, or, when it is shared, nowhere in
      particular. */
  predicate PlaceFor(place: string, w: World, location: string) {
    place == if w.remotePool then "" else location
  }

  /** One copy, without snapshots, at the place for the location. */
  ghost predicate OneCopy(copies: map<string, Volume>, w: World, location: string, content: Content) {
    exists place :: PlaceFor(place, w, location) && copies == map[place := Volume(content, map[])]
  }

  lemma HomeIsPlace(w: World, location: string, content: Content)
    ensures OneCopy(map[w.Home(location) := Volume(content, map[])], w, location, content)
  {
    assert PlaceFor(w.Home(location), w, location);
  }

  // ---- states of the VM

  /** The previous configuration volume is gone when the VM was stopped or stopping, and otherwise as it was. */
  predicate PreviousGone(w: World, w': World, vm: string) {
    w.HasDevice(vm, DISK_DEVICE_CONFIG) ==>
      var previous := w.instances[vm].devices[DISK_DEVICE_CONFIG].Source();
      if w.instances[vm].status == Stopped || w.instances[vm].status == Stopping then previous !in w'.volumes
      else previous in w'.volumes && w'.Copies(previous) == w.Copies(previous)
  }

  /** A completed write: the new settings are stored and in the new configuration volume, and the
      previous one is gone exactly when the VM was stopped or stopping. */
  ghost predicate WriteLeaves(w: World, w': World, pool: string, vm: string, env: AgentEnv, uuid: string) {
    && vm in w.instances && Settled(w, w', pool, vm, w.instances[vm].devices, env, uuid)
    && VolumesKept(w, w', PreviousConfig(w, vm) + {"vol-c-" + uuid})
    && PreviousGone(w, w', vm)
  }

  lemma PreviousGoneExactly(w: World, pool: string, vm: string, env: AgentEnv, uuid: string, w': World)
    requires Inv(w) && Runs(w, WritePlan(w, pool, vm, env, uuid, Done), w', Done)
    ensures WriteLeaves(w, w', pool, vm, env, uuid)
  {
    RunsToTheEnd(w, WritePlan(w, pool, vm, env, uuid, Done), w');
    WriteNeedsVm(w, pool, vm, env, uuid);
    WriteSettles(w, pool, vm, env, uuid, w');
    WriteBuilds(w, pool, vm, env, uuid, Done);
    WrittenPrevious(w, pool, vm, env, uuid);
  }

  lemma WriteNeedsVm(w: World, pool: string, vm: string, env: AgentEnv, uuid: string)
    requires Completes(w, WritePlan(w, pool, vm, env, uuid, Done))
    ensures vm in w.instances
  {
    var plan := WritePlan(w, pool, vm, env, uuid, Done);
    StepOff(w, plan);
    StepOff(Apply(w, TakeUuid(uuid)), plan.rest);
  }

  lemma WrittenPrevious(w: World, pool: string, vm: string, env: AgentEnv, uuid: string)
    requires Inv(w) && vm in w.instances && ConfigName(uuid) !in w.volumes
    ensures PreviousGone(w, Written(w, pool, vm, env, uuid), vm)
  {
    VolumeNames(uuid);
    if w.HasDevice(vm, DISK_DEVICE_CONFIG) { ConfigThere(w, vm); }
  }

  lemma ConfigThere(w: World, vm: string)
    requires Inv(w) && w.HasDevice(vm, DISK_DEVICE_CONFIG)
    ensures w.instances[vm].devices[DISK_DEVICE_CONFIG].Source() in w.volumes
  {
    DeviceNamesDistinct();
  }

  /** Whenever a delete comes to the instance itself, the VM is stopped or stopping. */
  lemma StoppedBeforeDeletion(w: World, vm: string, order: seq<string>, w1: World, rest: Plan)
    requires Runs(w, DeletePlan(w, vm, order), w1, rest) && rest.Then? && rest.effect == DropInstance(vm)
    ensures vm in w1.instances && (w1.instances[vm].status == Stopped || w1.instances[vm].status == Stopping)
  {
    if vm in w.instances {
      var loop := DropDisks(DisksOf(w.instances[vm].devices), order, Then(DropFile(vm), Done));
      NoInstanceDropped(DisksOf(w.instances[vm].devices), order, vm);
      if w.instances[vm].status == Stopped || w.instances[vm].status == Stopping {
        StopThere(w, vm, loop, w1, rest);
      } else {
        StopThere(Apply(w, SetStatus(vm, Stopped)), vm, loop, w1, rest);
      }
    }
  }

  predicate DropsNoInstance(plan: Plan, vm: string) {
    plan.Then? ==> plan.effect != DropInstance(vm) && DropsNoInstance(plan.rest, vm)
  }

  lemma {:induction false} NoInstanceDropped(devices: map<string, Device>, order: seq<string>, vm: string)
    ensures DropsNoInstance(DropDisks(devices, order, Then(DropFile(vm), Done)), vm)
    decreases order
  {
    if order == [] {
      assert DropsNoInstance(Done, vm);
    } else {
      NoInstanceDropped(devices, order[1..], vm);
    }
  }

  lemma {:induction false} NeverThere(w: World, plan: Plan, w1: World, rest: Plan, vm: string)
    requires DropsNoInstance(plan, vm) && Runs(w, plan, w1, rest)
    ensures DropsNoInstance(rest, vm)
    decreases plan
  {
    if !(w1 == w && rest == plan) { NeverThere(Apply(w, plan.effect), plan.rest, w1, rest, vm); }
  }

  lemma StopThere(w: World, vm: string, loop: Plan, w1: World, rest: Plan)
    requires DropsNoInstance(loop, vm) && Runs(w, Then(DropInstance(vm), loop), w1, rest) && rest.Then? && rest.effect == DropInstance(vm)
    ensures w1 == w
  {
    if !(w1 == w && rest == Then(DropInstance(vm), loop)) { NeverThere(Apply(w, DropInstance(vm)), loop, w1, rest, vm); }
  }

  /** What a completed delete has removed besides the instance and its file: the volume behind the
      `config` device and the one behind the `ephemeral` device. */
  lemma VolumesGoneExactly(w: World, vm: string, order: seq<string>, w': World)
    requires Inv(w) && vm in w.instances && IsOrder(order, DisksOf(w.instances[vm].devices).Keys)
    requires Runs(w, DeletePlan(w, vm, order), w', Done)
    ensures w' == w.(instances := w.instances - {vm}, files := w.files - {vm}, volumes := w.volumes - PreviousConfig(w, vm) - EphemeralOf(w, vm))
  {
    DeleteRemovesExactly(w, vm, order, w');
    DevicesOf(w, vm);
    SourcesOfTwo(w, vm);
    RemoveBoth(w.volumes, PreviousConfig(w, vm), EphemeralOf(w, vm));
  }

  lemma SourcesOfTwo(w: World, vm: string)
    requires vm in w.instances && forall d :: d in w.instances[vm].devices ==> NamedByUse(d, w.instances[vm].devices[d])
    ensures DisposableSources(w, vm) == PreviousConfig(w, vm) + EphemeralOf(w, vm)
  {
    DeviceNamesDistinct();
    var devices := w.instances[vm].devices;
    assert "config" in devices ==> devices["config"].IsDisk();
    assert "ephemeral" in devices ==> devices["ephemeral"].IsDisk();
  }

  function EphemeralOf(w: World, vm: string): set<string> {
    if w.HasDevice(vm, "ephemeral") then {w.instances[vm].devices["ephemeral"].Source()} else {}
  }

  // ---- disks

  /** One empty block volume more, at the place for the location, and one UUID drawn. */
  ghost predicate DiskMade(w: World, w': World, disk: string, location: string, size: int, uuid: string) {
    && disk !in w.volumes && OneCopy(w'.Copies(disk), w, location, Block(size, ""))
    && w' == w.(used := w.used + {uuid}, volumes := w.volumes[disk := w'.Copies(disk)])
  }

  /** A completed `CreateDisk` leaves one new block volume of the size asked for, under its CID, where the
      VM is, and nothing else. */
  lemma DiskCreated(w: World, vm: string, size: int, uuid: string, w': World)
    requires Inv(w) && Runs(w, CreateDiskPlan(w, vm, size, uuid), w', Done)
    ensures vm in w.instances
    ensures DiskMade(w, w', "vol-p-" + uuid, w.instances[vm].location, size, uuid)
  {
    VolumeNames(uuid);
    var plan := CreateDiskPlan(w, vm, size, uuid);
    RunsToTheEnd(w, plan, w');
    StepOff(w, plan);
    assert vm in w.instances;
    StepOff(Apply(w, plan.effect), plan.rest);
    assert "vol-p-" + uuid == PersistentName(uuid);
    HomeIsPlace(w, w.instances[vm].location, Block(size, ""));
    assert Apply(w, plan.effect).Copies(PersistentName(uuid)) == map[];
  }

  /** The new volumes of a VM have one copy each, where the VM is: the settings, and a blank disk of
      the size asked for. */
  lemma NewVolumesPlaced(w: World, pool: string, launch: Launch, w': World)
    requires Built(w, pool, launch, w')
    ensures OneCopy(w'.Copies("vol-c-" + launch.configUuid), w, launch.instance.location, ConfigImage(w'.files[launch.Vm()]))
    ensures launch.ephemeralMB > 0 ==>
      OneCopy(w'.Copies("vol-e-" + launch.ephemeralUuid), w, launch.instance.location, Block(launch.ephemeralMB, ""))
  {
    VolumeNames(launch.configUuid);
    VolumeNames(launch.ephemeralUuid);
    HomeIsPlace(w, launch.instance.location, ConfigImage(launch.FinalEnv()));
    HomeIsPlace(w, launch.instance.location, Block(launch.ephemeralMB, ""));
    var c, e := launch.Config(), launch.Ephemeral();
    assert w'.volumes == w.volumes + BuiltVolumes(w, launch);
    assert launch.WantsEphemeral() ==> e in w'.volumes && w'.volumes[e] == BuiltVolumes(w, launch)[e];
  }

  /** A completed write, attach or detach, from the devices and settings it was to establish. */
  ghost predicate Settled(w: World, w': World, pool: string, vm: string, devices: map<string, Device>, env: AgentEnv, uuid: string) {
    && vm in w.instances
    && w' == w.(used := w.used + {uuid}, files := w.files[vm := env], volumes := w'.volumes,
                instances := w.instances[vm := w.instances[vm].(devices := devices[DISK_DEVICE_CONFIG := VolumeDisk(pool, "vol-c-" + uuid)])])
    && OneCopy(w'.Copies("vol-c-" + uuid), w, w.instances[vm].location, ConfigImage(env))
  }

  /** The configuration volume in use, if there is one. */
  function PreviousConfig(w: World, vm: string): set<string> {
    if w.HasDevice(vm, "config") then {w.instances[vm].devices["config"].Source()} else {}
  }

  /** No other volume has changed. */
  ghost predicate VolumesKept(w: World, w': World, but: set<string>) {
    forall n :: n !in but ==> w'.Copies(n) == w.Copies(n)
  }

  lemma KeptTwice(w: World, w1: World, w2: World, w': World, disk: string, but: set<string>)
    requires VolumesKept(w, w1, {disk}) && w2.volumes == w1.volumes && VolumesKept(w2, w', but)
    ensures VolumesKept(w, w', but + {disk}) && (disk !in but ==> w'.Copies(disk) == w1.Copies(disk))
  {
    assert forall n :: w2.Copies(n) == w1.Copies(n);
  }

  lemma WriteSettles(w: World, pool: string, vm: string, env: AgentEnv, uuid: string, w': World)
    requires Inv(w) && vm in w.instances && Completes(w, WritePlan(w, pool, vm, env, uuid, Done))
    requires w' == Final(w, WritePlan(w, pool, vm, env, uuid, Done))
    ensures Settled(w, w', pool, vm, w.instances[vm].devices, env, uuid)
    ensures VolumesKept(w, w', PreviousConfig(w, vm) + {"vol-c-" + uuid})
  {
    VolumeNames(uuid);
    WriteBuilds(w, pool, vm, env, uuid, Done);
    SupersededIsNot(w, vm, ConfigName(uuid));
    WrittenSettles(w, pool, vm, env, uuid);
    WrittenVolumes(w, pool, vm, env, uuid);
  }

  lemma WrittenSettles(w: World, pool: string, vm: string, env: AgentEnv, uuid: string)
    requires vm in w.instances && ConfigName(uuid) !in Superseded(w.instances[vm])
    ensures Settled(w, Written(w, pool, vm, env, uuid), pool, vm, w.instances[vm].devices, env, uuid)
  {
    HomeIsPlace(w, w.instances[vm].location, ConfigImage(env));
    assert Written(w, pool, vm, env, uuid).Copies(ConfigName(uuid)) == map[w.Home(w.instances[vm].location) := Volume(ConfigImage(env), map[])];
  }

  lemma WrittenVolumes(w: World, pool: string, vm: string, env: AgentEnv, uuid: string)
    requires vm in w.instances
    ensures VolumesKept(w, Written(w, pool, vm, env, uuid), PreviousConfig(w, vm) + {ConfigName(uuid)})
  {
  }

  /** A completed attach: the disk is in the slot whose path was nowhere mentioned and is hinted there,
      its one copy is where the VM is, with its data and snapshots; no other volume has changed but the
      configuration volumes. */
  lemma AttachBuilds(w: World, pool: string, vm: string, disk: string, uuid: string, w': World)
    requires Inv(w) && ClassOf(disk) == PersistentVolume && Runs(w, AttachPlan(w, pool, vm, disk, uuid), w', Done)
    ensures vm in w.files && vm in w.instances && FreeSlot(w.files[vm]).Some? && Movable(w, vm, disk)
    ensures var (path, name) := FreeSlot(w.files[vm]).value;
      && name !in w.instances[vm].devices
      && Settled(w, w', pool, vm, w.instances[vm].devices[name := VolumeDisk(pool, disk)],
                 w.files[vm].(persistent := w.files[vm].persistent[disk := path]), uuid)
    ensures w'.Copies(disk) == if InPlace(w, vm, disk) then w.Copies(disk) else map[w.instances[vm].location := TheCopy(w, disk)]
    ensures VolumesKept(w, w', PreviousConfig(w, vm) + {"vol-c-" + uuid} + {disk})
  {
    RunsToTheEnd(w, AttachPlan(w, pool, vm, disk, uuid), w');
    assert vm in w.files && FreeSlot(w.files[vm]).Some?;
    var (path, name) := FreeSlot(w.files[vm]).value;
    AttachMoves(w, pool, vm, disk, uuid, path, name);
    DiskMoved(w, vm, disk);
    SlotFilled(w, Colocated(w, vm, disk), pool, vm, disk, name, w.files[vm].(persistent := w.files[vm].persistent[disk := path]), uuid, w');
  }

  /** The part of an attach after the move. */
  ghost function SlotPlan(w: World, pool: string, vm: string, disk: string, name: string, env: AgentEnv, uuid: string): Plan {
    var attach := AddDevice(vm, name, VolumeDisk(pool, disk));
    Then(attach, WritePlan(Apply(w, attach), pool, vm, env, uuid, Done))
  }

  lemma AttachMoves(w: World, pool: string, vm: string, disk: string, uuid: string, path: DevicePath, name: string)
    requires Inv(w) && ClassOf(disk) == PersistentVolume && Completes(w, AttachPlan(w, pool, vm, disk, uuid))
    requires vm in w.files && FreeSlot(w.files[vm]) == Some((path, name))
    ensures Movable(w, vm, disk) && Inv(Colocated(w, vm, disk))
    ensures var tail := SlotPlan(w, pool, vm, disk, name, w.files[vm].(persistent := w.files[vm].persistent[disk := path]), uuid);
      Completes(Colocated(w, vm, disk), tail) && Final(w, AttachPlan(w, pool, vm, disk, uuid)) == Final(Colocated(w, vm, disk), tail)
  {
    var tail := SlotPlan(w, pool, vm, disk, name, w.files[vm].(persistent := w.files[vm].persistent[disk := path]), uuid);
    assert AttachPlan(w, pool, vm, disk, uuid) == ColocatePlan(w, vm, disk, tail);
    ColocateMoves(w, vm, disk, tail);
    ColocateCompletesWhen(w, vm, disk);
    ColocatedInv(w, vm, disk);
  }

  lemma DiskMoved(w: World, vm: string, disk: string)
    requires Movable(w, vm, disk)
    ensures var w1 := Colocated(w, vm, disk);
      && w1 == w.(volumes := w1.volumes) && disk in w1.volumes && VolumesKept(w, w1, {disk})
      && w1.Copies(disk) == if InPlace(w, vm, disk) then w.Copies(disk) else map[w.instances[vm].location := TheCopy(w, disk)]
  {
  }

  lemma SlotFilled(w: World, w1: World, pool: string, vm: string, disk: string, name: string, env: AgentEnv, uuid: string, w': World)
    requires Inv(w1) && w1 == w.(volumes := w1.volumes) && disk in w1.volumes && ClassOf(disk) == PersistentVolume && SlotName(name)
    requires vm in w.instances && VolumesKept(w, w1, {disk})
    requires Completes(w1, SlotPlan(w, pool, vm, disk, name, env, uuid)) && w' == Final(w1, SlotPlan(w, pool, vm, disk, name, env, uuid))
    ensures name !in w.instances[vm].devices
    ensures Settled(w, w', pool, vm, w.instances[vm].devices[name := VolumeDisk(pool, disk)], env, uuid)
    ensures w'.Copies(disk) == w1.Copies(disk) && VolumesKept(w, w', PreviousConfig(w, vm) + {"vol-c-" + uuid} + {disk})
  {
    var w2 := Apply(w1, AddDevice(vm, name, VolumeDisk(pool, disk)));
    SlotTaken(w, w1, pool, vm, disk, name, env, uuid);
    WriteSettles(w2, pool, vm, env, uuid, w');
    WithSlot(w, w2, w', pool, vm, disk, name, env, uuid);
    KeptTwice(w, w1, w2, w', disk, PreviousConfig(w, vm) + {"vol-c-" + uuid});
  }

  lemma SlotTaken(w: World, w1: World, pool: string, vm: string, disk: string, name: string, env: AgentEnv, uuid: string)
    requires Inv(w1) && w1 == w.(volumes := w1.volumes) && disk in w1.volumes && ClassOf(disk) == PersistentVolume && SlotName(name)
    requires vm in w.instances && Completes(w1, SlotPlan(w, pool, vm, disk, name, env, uuid))
    ensures var w2 := Apply(w1, AddDevice(vm, name, VolumeDisk(pool, disk)));
      && Inv(w2) && name !in w.instances[vm].devices
      && w2 == WithDevices(w, vm, w.instances[vm].devices[name := VolumeDisk(pool, disk)]).(volumes := w1.volumes)
      && Completes(w2, WritePlan(w2, pool, vm, env, uuid, Done))
      && Final(w1, SlotPlan(w, pool, vm, disk, name, env, uuid)) == Final(w2, WritePlan(w2, pool, vm, env, uuid, Done))
  {
    var attach := AddDevice(vm, name, VolumeDisk(pool, disk));
    StepOff(w1, SlotPlan(w, pool, vm, disk, name, env, uuid));
    SlotKeepsInv(w1, pool, vm, disk, name);
    SlotIsNotConfig(w, w1, pool, vm, disk, name);
    SamePlan(Apply(w, attach), Apply(w1, attach), pool, vm, env, uuid, Done);
  }

  lemma WithSlot(w: World, w2: World, w': World, pool: string, vm: string, disk: string, name: string, env: AgentEnv, uuid: string)
    requires vm in w.instances && SlotName(name) && ClassOf(disk) == PersistentVolume
    requires w2 == WithDevices(w, vm, w.instances[vm].devices[name := VolumeDisk(pool, disk)]).(volumes := w2.volumes)
    requires Settled(w2, w', pool, vm, w2.instances[vm].devices, env, uuid) && Inv(w2)
    ensures Settled(w, w', pool, vm, w.instances[vm].devices[name := VolumeDisk(pool, disk)], env, uuid)
    ensures PreviousConfig(w2, vm) == PreviousConfig(w, vm) && disk !in PreviousConfig(w2, vm) && disk != "vol-c-" + uuid
  {
    DeviceNamesDistinct();
    VolumeNames(uuid);
    assert "vol-c-" + uuid == ConfigName(uuid);
    Overwrite(w.instances, vm, w2.instances[vm], w'.instances[vm]);
    if w2.HasDevice(vm, DISK_DEVICE_CONFIG) { assert NamedByUse(DISK_DEVICE_CONFIG, w2.instances[vm].devices[DISK_DEVICE_CONFIG]); }
  }

  /** A completed detach: one device with the disk is gone, if there was one, and the disk's hint is; no
      volume has changed but the configuration volumes. */
  lemma DetachBuilds(w: World, pool: string, vm: string, disk: string, pick: string, uuid: string, w': World)
    requires Inv(w) && ClassOf(disk) == PersistentVolume && Runs(w, DetachPlan(w, pool, vm, disk, pick, uuid), w', Done)
    requires vm in w.instances ==> PickedBy(w.instances[vm].devices, disk, pick)
    ensures vm in w.files && vm in w.instances
    ensures Settled(w, w', pool, vm, if pick == "" then w.instances[vm].devices else w.instances[vm].devices - {pick},
                    w.files[vm].(persistent := w.files[vm].persistent - {disk}), uuid)
    ensures VolumesKept(w, w', PreviousConfig(w, vm) + {"vol-c-" + uuid})
  {
    var plan := DetachPlan(w, pool, vm, disk, pick, uuid);
    RunsToTheEnd(w, plan, w');
    FilesRead(w, pool, vm, disk, pick, uuid);
    var env := w.files[vm].(persistent := w.files[vm].persistent - {disk});
    if pick == "" {
      WriteSettles(w, pool, vm, env, uuid, w');
    } else {
      PickTaken(w, pool, vm, disk, pick, env, uuid);
      var w1 := Apply(w, RemoveDevice(vm, pick));
      WriteSettles(w1, pool, vm, env, uuid, w');
      WithoutPick(w, w1, w', pool, vm, disk, pick, env, uuid);
      KeptAfter(w, w1, w', PreviousConfig(w, vm) + {"vol-c-" + uuid});
    }
  }

  lemma FilesRead(w: World, pool: string, vm: string, disk: string, pick: string, uuid: string)
    requires Completes(w, DetachPlan(w, pool, vm, disk, pick, uuid))
    ensures vm in w.instances && vm in w.files
  {
  }

  lemma KeptAfter(w: World, w1: World, w': World, but: set<string>)
    requires w1.volumes == w.volumes && VolumesKept(w1, w', but)
    ensures VolumesKept(w, w', but)
  {
  }

  lemma PickTaken(w: World, pool: string, vm: string, disk: string, pick: string, env: AgentEnv, uuid: string)
    requires Inv(w) && pick != "" && Completes(w, DetachPlan(w, pool, vm, disk, pick, uuid))
    requires vm in w.instances && vm in w.files && env == w.files[vm].(persistent := w.files[vm].persistent - {disk})
    ensures w.HasDevice(vm, pick)
    ensures var w1 := Apply(w, RemoveDevice(vm, pick));
      && Inv(w1) && w1 == WithDevices(w, vm, w.instances[vm].devices - {pick})
      && Completes(w1, WritePlan(w1, pool, vm, env, uuid, Done))
      && Final(w, DetachPlan(w, pool, vm, disk, pick, uuid)) == Final(w1, WritePlan(w1, pool, vm, env, uuid, Done))
  {
    StepOff(w, DetachPlan(w, pool, vm, disk, pick, uuid));
    StepKeepsInv(w, RemoveDevice(vm, pick));
  }

  lemma WithoutPick(w: World, w1: World, w': World, pool: string, vm: string, disk: string, pick: string, env: AgentEnv, uuid: string)
    requires Inv(w) && w.HasDevice(vm, pick) && w.instances[vm].devices[pick].Source() == disk && ClassOf(disk) == PersistentVolume
    requires w1 == WithDevices(w, vm, w.instances[vm].devices - {pick})
    requires Settled(w1, w', pool, vm, w1.instances[vm].devices, env, uuid)
    ensures Settled(w, w', pool, vm, w.instances[vm].devices - {pick}, env, uuid)
    ensures PreviousConfig(w1, vm) == PreviousConfig(w, vm)
  {
    DeviceNamesDistinct();
    assert NamedByUse(pick, w.instances[vm].devices[pick]);
    Overwrite(w.instances, vm, w1.instances[vm], w'.instances[vm]);
  }

  /** The slot is that of the first path that occurs nowhere in the settings. */
  lemma SlotExactly(env: AgentEnv)
    ensures FreeSlot(env) ==
      if !Occurs(env, SDC) then Some((SDC, "persistent-1")) else if !Occurs(env, SDD) then Some((SDD, "persistent-2")) else None
  {
  }

  predicate Occurs(env: AgentEnv, path: DevicePath) {
    || path in env.settings.mentioned || (env.system.Some? && env.system.value == path)
    || (env.ephemeral.Some? && env.ephemeral.value == path) || exists disk :: disk in env.persistent && env.persistent[disk] == path
  }

  // ---- snapshots

  /** The snapshot a CID names is on the disk: with the disk's content, new, and deletable; deleting it
      gives the pool back as it was. */
  ghost predicate SnapshotThere(w: World, w': World, disk: string, cid: string) {
    && Parse(cid).Some? && Parse(cid).value.0 == disk
    && var snapshot := Parse(cid).value.1;
       && w'.Copies(disk).Keys == w.Copies(disk).Keys && w.Unique(disk)
       && (forall l :: l in w.Copies(disk) ==>
            && snapshot !in w.Copies(disk)[l].snapshots && snapshot in w'.Copies(disk)[l].snapshots
            && w'.Copies(disk)[l].snapshots[snapshot].content == w.Copies(disk)[l].content)
       && Enabled(w', DropSnapshot(disk, snapshot)) && Apply(w', DropSnapshot(disk, snapshot)) == w.(used := w'.used)
  }

  lemma SnapshotMade(w: World, disk: string, uuid: string, w': World)
    requires Runs(w, Then(TakeUuid(uuid), Then(AddSnapshot(disk, SNAPSHOT_PREFIX + uuid, disk), Done)), w', Done)
    requires disk != "" && Free(disk, '_') && Free(uuid, '_')
    ensures SnapshotThere(w, w', disk, Print(disk, uuid))
  {
    var plan := Then(TakeUuid(uuid), Then(AddSnapshot(disk, SNAPSHOT_PREFIX + uuid, disk), Done));
    RunsToTheEnd(w, plan, w');
    StepOff(w, plan);
    var w1 := Apply(w, TakeUuid(uuid));
    StepOff(w1, plan.rest);
    RoundTripExactly(disk, uuid);
    AddThenDrop(w1, disk, SNAPSHOT_PREFIX + uuid, disk);
    assert w1.Copies(disk) == w.Copies(disk);
  }

  lemma AddThenDrop(w: World, disk: string, snapshot: string, text: string)
    requires Enabled(w, AddSnapshot(disk, snapshot, text))
    ensures var w' := Apply(w, AddSnapshot(disk, snapshot, text));
      && Enabled(w', DropSnapshot(disk, snapshot)) && Apply(w', DropSnapshot(disk, snapshot)) == w
      && w'.Copies(disk).Keys == w.Copies(disk).Keys
      && forall l :: l in w.Copies(disk) ==> (snapshot in w'.Copies(disk)[l].snapshots
           && w'.Copies(disk)[l].snapshots[snapshot].content == w.Copies(disk)[l].content)
  {
    var w' := Apply(w, AddSnapshot(disk, snapshot, text));
    assert |w.Copies(disk)| == |w.Copies(disk).Keys| && w'.Copies(disk).Keys == w.Copies(disk).Keys;
    assert |w'.Copies(disk)| == |w'.Copies(disk).Keys|;
    var w2 := Apply(w', DropSnapshot(disk, snapshot));
    forall l | l in w.Copies(disk) ensures l in w2.Copies(disk) && w2.Copies(disk)[l] == w.Copies(disk)[l] {
      var v := w.Copies(disk)[l];
      assert v.snapshots[snapshot := Snapshot(v.content, text)] - {snapshot} == v.snapshots;
    }
    assert w2.Copies(disk) == w.Copies(disk);
    assert w2.volumes == w.volumes;
  }
}
