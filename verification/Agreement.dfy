/** The three views of a VM's disks: LXD devices, the stored agent settings, and the settings
    encoded in the configuration volume. */
module Agreement {
  import opened Names
  import opened World
  import opened Plans
  import opened Safety
  import opened SystemRuns
  import opened Teardown
  import opened Creation
  import opened Colocation

  predicate Hinted(env: AgentEnv, disk: string, path: DevicePath) {
    disk in env.persistent && env.persistent[disk] == path
  }

  predicate InSlot(devices: map<string, Device>, name: string, disk: string) {
    name in devices && devices[name].VolumeDisk? && devices[name].volume == disk
  }

  /** The hints are those of the devices: `/dev/sdc` for `persistent-1`, `/dev/sdd` for
      `persistent-2`, `/dev/sdb` for `ephemeral`. */
  ghost predicate HintsAgree(devices: map<string, Device>, env: AgentEnv) {
    && (forall disk :: Hinted(env, disk, SDC) <==> InSlot(devices, DISK_DEVICE_PERSISTENT1, disk))
    && (forall disk :: Hinted(env, disk, SDD) <==> InSlot(devices, DISK_DEVICE_PERSISTENT2, disk))
    && (forall disk :: disk in env.persistent ==> env.persistent[disk] == SDC || env.persistent[disk] == SDD)
    && (env.ephemeral == Some(SDB) <==> DISK_DEVICE_EPHEMERAL in devices)
    && (env.ephemeral == Some(SDB) || env.ephemeral == None) && env.system == Some(SDA)
  }

  /** The attached configuration volume encodes exactly these settings. */
  ghost predicate ConfigHolds(w: World, devices: map<string, Device>, env: AgentEnv) {
    && DISK_DEVICE_CONFIG in devices && devices[DISK_DEVICE_CONFIG].VolumeDisk?
    && forall l :: l in w.Copies(devices[DISK_DEVICE_CONFIG].volume) ==>
      w.Copies(devices[DISK_DEVICE_CONFIG].volume)[l].content == ConfigImage(env)
  }

  ghost predicate AgreesOn(w: World, vm: string)
    requires vm in w.instances
  {
    var devices := w.instances[vm].devices;
    if vm in w.files then HintsAgree(devices, w.files[vm]) && ConfigHolds(w, devices, w.files[vm])
    else DISK_DEVICE_PERSISTENT1 !in devices && DISK_DEVICE_PERSISTENT2 !in devices
  }

  ghost predicate Agree(w: World) {
    forall vm :: vm in w.instances ==> AgreesOn(w, vm)
  }

  ghost predicate AgreeApart(w: World, vm0: string) {
    forall vm :: vm in w.instances && vm != vm0 ==> AgreesOn(w, vm)
  }

  /** What a VM's agreement depends on is the same in both states. */
  ghost predicate SameView(w: World, w': World, vm: string)
    requires vm in w.instances && vm in w'.instances
  {
    var devices := w.instances[vm].devices;
    && w'.instances[vm].devices == devices
    && (vm in w'.files <==> vm in w.files) && (vm in w.files ==> w'.files[vm] == w.files[vm])
    && (InUse(devices) ==> w'.Copies(devices[DISK_DEVICE_CONFIG].volume) == w.Copies(devices[DISK_DEVICE_CONFIG].volume))
  }

  predicate InUse(devices: map<string, Device>) {
    DISK_DEVICE_CONFIG in devices && devices[DISK_DEVICE_CONFIG].VolumeDisk?
  }

  lemma StillAgrees(w: World, w': World, vm: string)
    requires vm in w.instances && vm in w'.instances && AgreesOn(w, vm) && SameView(w, w', vm)
    ensures AgreesOn(w', vm)
  {
  }

  /** Rewriting the settings of one VM: if the new settings fit its devices, everything agrees. */
  lemma WriteAgrees(w: World, pool: string, vm: string, env: AgentEnv, uuid: string)
    requires Inv(w) && vm in w.instances && AgreeApart(w, vm) && HintsAgree(w.instances[vm].devices, env)
    requires uuid !in w.used
    ensures Agree(Written(w, pool, vm, env, uuid))
  {
    var w' := Written(w, pool, vm, env, uuid);
    forall v | v in w'.instances ensures AgreesOn(w', v) {
      if v == vm {
        WriterAgrees(w, pool, vm, env, uuid);
      } else {
        OtherAgrees(w, pool, vm, env, uuid, v);
      }
    }
  }

  lemma WriterAgrees(w: World, pool: string, vm: string, env: AgentEnv, uuid: string)
    requires Inv(w) && vm in w.instances && HintsAgree(w.instances[vm].devices, env) && uuid !in w.used
    ensures AgreesOn(Written(w, pool, vm, env, uuid), vm)
  {
    VolumeNames(uuid);
    var w' := Written(w, pool, vm, env, uuid);
    var c := ConfigName(uuid);
    SupersededIsNot(w, vm, c);
    assert w'.Copies(c) == map[w.Home(w.instances[vm].location) := Volume(ConfigImage(env), map[])];
    HintsStill(w.instances[vm].devices, env, VolumeDisk(pool, c));
  }

  lemma OtherAgrees(w: World, pool: string, vm: string, env: AgentEnv, uuid: string, v: string)
    requires Inv(w) && vm in w.instances && AgreeApart(w, vm) && uuid !in w.used && v in w.instances && v != vm
    ensures AgreesOn(Written(w, pool, vm, env, uuid), v)
  {
    WrittenElsewhere(w, pool, vm, env, uuid, v);
    if InUse(w.instances[v].devices) { OtherConfigStays(w, pool, vm, env, uuid, v); }
    StillAgrees(w, Written(w, pool, vm, env, uuid), v);
  }

  lemma WrittenElsewhere(w: World, pool: string, vm: string, env: AgentEnv, uuid: string, v: string)
    requires vm in w.instances && v in w.instances && v != vm
    ensures var w' := Written(w, pool, vm, env, uuid);
      && v in w'.instances && w'.instances[v].devices == w.instances[v].devices
      && (v in w'.files <==> v in w.files) && (v in w.files ==> w'.files[v] == w.files[v])
  {
  }

  lemma OtherConfigStays(w: World, pool: string, vm: string, env: AgentEnv, uuid: string, v: string)
    requires Inv(w) && vm in w.instances && uuid !in w.used && v in w.instances && v != vm && InUse(w.instances[v].devices)
    ensures var n := w.instances[v].devices[DISK_DEVICE_CONFIG].volume; Written(w, pool, vm, env, uuid).Copies(n) == w.Copies(n)
  {
    VolumeNames(uuid);
    ConfigUntouched(w, vm, v, ConfigName(uuid), Written(w, pool, vm, env, uuid));
  }

  lemma HintsStill(devices: map<string, Device>, env: AgentEnv, device: Device)
    requires HintsAgree(devices, env)
    ensures HintsAgree(devices[DISK_DEVICE_CONFIG := device], env)
  {
    DeviceNamesDistinct();
    var devices' := devices[DISK_DEVICE_CONFIG := device];
    assert forall disk :: InSlot(devices', DISK_DEVICE_PERSISTENT1, disk) <==> InSlot(devices, DISK_DEVICE_PERSISTENT1, disk);
    assert forall disk :: InSlot(devices', DISK_DEVICE_PERSISTENT2, disk) <==> InSlot(devices, DISK_DEVICE_PERSISTENT2, disk);
  }

  lemma SupersededIsNot(w: World, vm: string, c: string)
    requires Inv(w) && vm in w.instances && c !in w.volumes && ClassOf(c) == ConfigVolume
    ensures c !in Superseded(w.instances[vm])
  {
    if w.HasDevice(vm, DISK_DEVICE_CONFIG) {
      DeviceNamesDistinct();
      assert w.instances[vm].devices[DISK_DEVICE_CONFIG].VolumeDisk?;
    }
  }

  /** A write on one VM leaves the configuration volume of every other VM alone. */
  lemma ConfigUntouched(w: World, vm: string, v: string, c: string, w': World)
    requires Inv(w) && vm in w.instances && v in w.instances && v != vm && c !in w.volumes && ClassOf(c) == ConfigVolume
    requires forall n :: n != c && n !in Superseded(w.instances[vm]) ==> w'.Copies(n) == w.Copies(n)
    requires InUse(w.instances[v].devices)
    ensures w'.Copies(w.instances[v].devices[DISK_DEVICE_CONFIG].volume) == w.Copies(w.instances[v].devices[DISK_DEVICE_CONFIG].volume)
  {
    assert w.HasDevice(v, DISK_DEVICE_CONFIG);
    OtherConfigDiffers(w, vm, v);
  }

  lemma OtherConfigDiffers(w: World, vm: string, v: string)
    requires Inv(w) && vm in w.instances && v in w.instances && v != vm && InUse(w.instances[v].devices)
    ensures w.instances[v].devices[DISK_DEVICE_CONFIG].volume !in Superseded(w.instances[vm])
  {
    DeviceNamesDistinct();
    assert w.HasDevice(v, DISK_DEVICE_CONFIG);
    if w.HasDevice(vm, DISK_DEVICE_CONFIG) {
      assert w.instances[vm].devices[DISK_DEVICE_CONFIG].VolumeDisk?;
    }
  }

  // ---- the operations

  /** The states differ in the devices of one VM and in the copies of one disk. */
  ghost predicate Apart(w: World, w': World, vm: string, disk: string) {
    && w'.files == w.files && w'.instances.Keys == w.instances.Keys
    && (forall v :: v in w.instances && v != vm ==> w'.instances[v] == w.instances[v])
    && (forall n :: n != disk ==> w'.Copies(n) == w.Copies(n))
  }

  lemma ApartAfterMove(w: World, vm: string, disk: string)
    requires Movable(w, vm, disk)
    ensures Apart(w, Colocated(w, vm, disk), vm, disk)
  {
  }

  lemma ApartWithDevices(w: World, w1: World, vm: string, disk: string, devices: map<string, Device>)
    requires Apart(w, w1, vm, disk) && vm in w1.instances
    ensures Apart(w, WithDevices(w1, vm, devices), vm, disk)
  {
    var w2 := WithDevices(w1, vm, devices);
    forall n | n != disk ensures w2.Copies(n) == w.Copies(n) { assert w1.Copies(n) == w.Copies(n); }
  }

  /** Only the volume of a persistent disk has changed: no configuration volume has. */
  lemma ApartFromDisk(w: World, w': World, vm: string, disk: string)
    requires Inv(w) && AgreeApart(w, vm) && ClassOf(disk) == PersistentVolume && vm in w.instances && Apart(w, w', vm, disk)
    ensures AgreeApart(w', vm)
  {
    DeviceNamesDistinct();
    forall v | v in w'.instances && v != vm ensures AgreesOn(w', v) {
      if InUse(w.instances[v].devices) { assert w.HasDevice(v, DISK_DEVICE_CONFIG); }
      StillAgrees(w, w', v);
    }
  }

  lemma AttachHints(devices: map<string, Device>, env: AgentEnv, pool: string, disk: string)
    requires HintsAgree(devices, env) && FreeSlot(env).Some?
    requires forall d :: d in devices ==> devices[d].Source() != disk
    requires DISK_DEVICE_PERSISTENT1 in devices ==> devices[DISK_DEVICE_PERSISTENT1].VolumeDisk?
    requires DISK_DEVICE_PERSISTENT2 in devices ==> devices[DISK_DEVICE_PERSISTENT2].VolumeDisk?
    ensures var (path, name) := FreeSlot(env).value;
      && name !in devices
      && HintsAgree(devices[name := VolumeDisk(pool, disk)], env.(persistent := env.persistent[disk := path]))
  {
    DeviceNamesDistinct();
    var (path, name) := FreeSlot(env).value;
    if name in devices {
      assert InSlot(devices, name, devices[name].volume);
      assert Hinted(env, devices[name].volume, path);
      assert env.Mentions(path);
    }
    var devices' := devices[name := VolumeDisk(pool, disk)];
    var env' := env.(persistent := env.persistent[disk := path]);
    forall d ensures Hinted(env', d, SDC) <==> InSlot(devices', DISK_DEVICE_PERSISTENT1, d) {
      assert Hinted(env, d, SDC) <==> InSlot(devices, DISK_DEVICE_PERSISTENT1, d);
      assert path == SDC && Hinted(env, d, SDC) ==> SDC in env.persistent.Values;
    }
    forall d ensures Hinted(env', d, SDD) <==> InSlot(devices', DISK_DEVICE_PERSISTENT2, d) {
      assert Hinted(env, d, SDD) <==> InSlot(devices, DISK_DEVICE_PERSISTENT2, d);
      assert path == SDD && Hinted(env, d, SDD) ==> SDD in env.persistent.Values;
    }
  }

  lemma ColocatedInv(w: World, vm: string, disk: string)
    requires Inv(w) && ClassOf(disk) == PersistentVolume && Completes(w, ColocatePlan(w, vm, disk, Done))
    ensures Movable(w, vm, disk) && Inv(Colocated(w, vm, disk))
  {
    ColocateLawful(w, vm, disk, Done);
    ColocateMoves(w, vm, disk, Done);
    RunsToTheEnd(w, ColocatePlan(w, vm, disk, Done), Colocated(w, vm, disk));
    RunKeepsInv(w, ColocatePlan(w, vm, disk, Done), Colocated(w, vm, disk), Done);
  }

  /** A settings write that goes through, on a VM whose devices the new settings fit. */
  lemma FinishWrite(w0: World, w: World, pool: string, vm: string, env: AgentEnv, uuid: string, w': World)
    requires Inv(w) && vm in w.instances && AgreeApart(w, vm) && HintsAgree(w.instances[vm].devices, env)
    requires SameForWrite(w0, w, vm)
    requires Completes(w, WritePlan(w0, pool, vm, env, uuid, Done)) && w' == Final(w, WritePlan(w0, pool, vm, env, uuid, Done))
    ensures Agree(w')
  {
    SamePlan(w0, w, pool, vm, env, uuid, Done);
    WriteBuilds(w, pool, vm, env, uuid, Done);
    WriteAgrees(w, pool, vm, env, uuid);
  }

  lemma DevicesOf(w: World, vm: string)
    requires Inv(w) && vm in w.instances
    ensures forall d :: d in w.instances[vm].devices ==> NamedByUse(d, w.instances[vm].devices[d])
  {
    forall d | d in w.instances[vm].devices ensures NamedByUse(d, w.instances[vm].devices[d]) { assert w.HasDevice(vm, d); }
  }

  lemma NotASource(w: World, vm: string, disk: string)
    requires vm in w.instances && !w.Attached(disk)
    ensures forall d :: d in w.instances[vm].devices ==> w.instances[vm].devices[d].Source() != disk
  {
    forall d | d in w.instances[vm].devices ensures w.instances[vm].devices[d].Source() != disk {
      if w.instances[vm].devices[d].Source() == disk { AttachedBy(w, vm, d); }
    }
  }

  predicate SlotName(name: string) { name == DISK_DEVICE_PERSISTENT1 || name == DISK_DEVICE_PERSISTENT2 }

  /** Attaching an unattached persistent disk in the slot the settings offer. */
  lemma SlotAgrees(w: World, pool: string, vm: string, disk: string, path: DevicePath, name: string)
    requires Inv(w) && Agree(w) && !w.Attached(disk)
    requires vm in w.files && vm in w.instances && FreeSlot(w.files[vm]) == Some((path, name))
    ensures name !in w.instances[vm].devices && SlotName(name)
    ensures HintsAgree(w.instances[vm].devices[name := VolumeDisk(pool, disk)], w.files[vm].(persistent := w.files[vm].persistent[disk := path]))
  {
    DeviceNamesDistinct();
    DevicesOf(w, vm);
    NotASource(w, vm, disk);
    assert AgreesOn(w, vm);
    AttachHints(w.instances[vm].devices, w.files[vm], pool, disk);
  }

  lemma SlotKeepsInv(w: World, pool: string, vm: string, disk: string, name: string)
    requires Inv(w) && vm in w.instances && SlotName(name) && ClassOf(disk) == PersistentVolume && disk in w.volumes
    ensures Inv(Apply(w, AddDevice(vm, name, VolumeDisk(pool, disk))))
  {
    DeviceNamesDistinct();
    var attach := AddDevice(vm, name, VolumeDisk(pool, disk));
    if Enabled(w, attach) { StepKeepsInv(w, attach); }
  }

  lemma AttachAgrees(w: World, pool: string, vm: string, disk: string, uuid: string, w': World)
    requires Inv(w) && Agree(w) && ClassOf(disk) == PersistentVolume && !w.Attached(disk)
    requires Runs(w, AttachPlan(w, pool, vm, disk, uuid), w', Done)
    ensures Agree(w')
  {
    RunsToTheEnd(w, AttachPlan(w, pool, vm, disk, uuid), w');
    var (path, name) := FreeSlot(w.files[vm]).value;
    var env := w.files[vm].(persistent := w.files[vm].persistent[disk := path]);
    var attach := AddDevice(vm, name, VolumeDisk(pool, disk));
    var tail := Then(attach, WritePlan(Apply(w, attach), pool, vm, env, uuid, Done));
    ColocateMoves(w, vm, disk, tail);
    ColocateCompletesWhen(w, vm, disk);
    ColocatedInv(w, vm, disk);
    SlotAgrees(w, pool, vm, disk, path, name);
    ApartAfterMove(w, vm, disk);
    AttachSettled(w, Colocated(w, vm, disk), pool, vm, disk, name, env, uuid, w');
  }

  /** The rest of `AttachDiskV2` once the volume is in place. */
  lemma AttachSettled(w: World, w1: World, pool: string, vm: string, disk: string, name: string, env: AgentEnv, uuid: string, w': World)
    requires Inv(w) && Agree(w) && ClassOf(disk) == PersistentVolume && Inv(w1)
    requires w1 == w.(volumes := w1.volumes) && disk in w1.volumes && Apart(w, w1, vm, disk)
    requires vm in w.instances && SlotName(name) && name !in w.instances[vm].devices
    requires HintsAgree(w.instances[vm].devices[name := VolumeDisk(pool, disk)], env)
    requires var attach := AddDevice(vm, name, VolumeDisk(pool, disk));
      var tail := Then(attach, WritePlan(Apply(w, attach), pool, vm, env, uuid, Done));
      Completes(w1, tail) && w' == Final(w1, tail)
    ensures Agree(w')
  {
    var attach := AddDevice(vm, name, VolumeDisk(pool, disk));
    StepOff(w1, Then(attach, WritePlan(Apply(w, attach), pool, vm, env, uuid, Done)));
    SlotKeepsInv(w1, pool, vm, disk, name);
    ApartWithDevices(w, w1, vm, disk, w1.instances[vm].devices[name := VolumeDisk(pool, disk)]);
    ApartFromDisk(w, Apply(w1, attach), vm, disk);
    SlotIsNotConfig(w, w1, pool, vm, disk, name);
    FinishWrite(Apply(w, attach), Apply(w1, attach), pool, vm, env, uuid, w');
  }

  lemma SlotIsNotConfig(w: World, w1: World, pool: string, vm: string, disk: string, name: string)
    requires w1 == w.(volumes := w1.volumes) && vm in w.instances
    requires name == DISK_DEVICE_PERSISTENT1 || name == DISK_DEVICE_PERSISTENT2
    ensures SameForWrite(Apply(w, AddDevice(vm, name, VolumeDisk(pool, disk))), Apply(w1, AddDevice(vm, name, VolumeDisk(pool, disk))), vm)
  {
  }

  lemma DetachHints(devices: map<string, Device>, env: AgentEnv, disk: string, pick: string)
    requires HintsAgree(devices, env) && PickedBy(devices, disk, pick) && disk != ""
    requires forall d :: d in devices ==> NamedByUse(d, devices[d])
    requires ClassOf(disk) == PersistentVolume
    ensures HintsAgree(if pick == "" then devices else devices - {pick}, env.(persistent := env.persistent - {disk}))
    ensures pick != DISK_DEVICE_CONFIG
  {
    DeviceNamesDistinct();
    var devices' := if pick == "" then devices else devices - {pick};
    var env' := env.(persistent := env.persistent - {disk});
    assert "" !in devices || devices[""].Source() == "";
    forall d ensures Hinted(env', d, SDC) <==> InSlot(devices', DISK_DEVICE_PERSISTENT1, d) {
      assert Hinted(env, d, SDC) <==> InSlot(devices, DISK_DEVICE_PERSISTENT1, d);
      assert Hinted(env, d, SDD) <==> InSlot(devices, DISK_DEVICE_PERSISTENT2, d);
    }
    forall d ensures Hinted(env', d, SDD) <==> InSlot(devices', DISK_DEVICE_PERSISTENT2, d) {
      assert Hinted(env, d, SDC) <==> InSlot(devices, DISK_DEVICE_PERSISTENT1, d);
      assert Hinted(env, d, SDD) <==> InSlot(devices, DISK_DEVICE_PERSISTENT2, d);
    }
  }

  lemma DetachAgrees(w: World, pool: string, vm: string, disk: string, pick: string, uuid: string, w': World)
    requires Inv(w) && Agree(w) && ClassOf(disk) == PersistentVolume
    requires vm in w.instances ==> PickedBy(w.instances[vm].devices, disk, pick)
    requires Runs(w, DetachPlan(w, pool, vm, disk, pick, uuid), w', Done)
    ensures Agree(w')
  {
    var plan := DetachPlan(w, pool, vm, disk, pick, uuid);
    RunsToTheEnd(w, plan, w');
    assert AgreesOn(w, vm);
    DevicesOf(w, vm);
    DetachHints(w.instances[vm].devices, w.files[vm], disk, pick);
    if pick != "" { StepOff(w, plan); }
    DetachSettled(w, pool, vm, disk, pick, uuid, w');
  }

  lemma DetachSettled(w: World, pool: string, vm: string, disk: string, pick: string, uuid: string, w': World)
    requires Inv(w) && AgreeApart(w, vm) && ClassOf(disk) == PersistentVolume && vm in w.instances && vm in w.files
    requires pick != "" ==> w.HasDevice(vm, pick)
    requires var w1 := if pick == "" then w else Apply(w, RemoveDevice(vm, pick));
      var devices := w.instances[vm].devices;
      var env := w.files[vm].(persistent := w.files[vm].persistent - {disk});
      var write := WritePlan(w1, pool, vm, env, uuid, Done);
      HintsAgree(if pick == "" then devices else devices - {pick}, env) && Completes(w1, write) && w' == Final(w1, write)
    ensures Agree(w')
  {
    var w1 := if pick == "" then w else Apply(w, RemoveDevice(vm, pick));
    if pick != "" { StepKeepsInv(w, RemoveDevice(vm, pick)); }
    ApartWithDevices(w, w, vm, disk, w.instances[vm].devices - {pick});
    ApartFromDisk(w, w1, vm, disk);
    FinishWrite(w1, w1, pool, vm, w.files[vm].(persistent := w.files[vm].persistent - {disk}), uuid, w');
  }

  lemma DeleteAgrees(w: World, vm: string, order: seq<string>, w': World)
    requires Inv(w) && Agree(w) && (vm in w.instances ==> IsOrder(order, DisksOf(w.instances[vm].devices).Keys))
    requires Runs(w, DeletePlan(w, vm, order), w', Done)
    ensures Agree(w')
  {
    DeleteRemovesExactly(w, vm, order, w');
    forall v | v in w'.instances ensures AgreesOn(w', v) {
      SurvivorAgrees(w, vm, v);
    }
  }

  lemma SurvivorAgrees(w: World, vm: string, v: string)
    requires Inv(w) && v in w.instances && v != vm && AgreesOn(w, v)
    ensures AgreesOn(Deleted(w, vm), v)
  {
    if InUse(w.instances[v].devices) { SurvivorConfig(w, vm, v); }
    StillAgrees(w, Deleted(w, vm), v);
  }

  lemma SurvivorConfig(w: World, vm: string, v: string)
    requires Inv(w) && v in w.instances && v != vm && InUse(w.instances[v].devices)
    ensures var n := w.instances[v].devices[DISK_DEVICE_CONFIG].volume; Deleted(w, vm).Copies(n) == w.Copies(n)
  {
    NotDisposable(w, vm, v);
  }

  lemma NotDisposable(w: World, vm: string, v: string)
    requires Inv(w) && v in w.instances && v != vm && InUse(w.instances[v].devices)
    ensures w.instances[v].devices[DISK_DEVICE_CONFIG].volume !in DisposableSources(w, vm)
  {
    DeviceNamesDistinct();
    var n := w.instances[v].devices[DISK_DEVICE_CONFIG].volume;
    assert w.HasDevice(v, DISK_DEVICE_CONFIG);
    forall d | vm in w.instances && d in w.instances[vm].devices ensures w.instances[vm].devices[d].Source() != n {
      assert w.HasDevice(vm, d);
    }
  }

  lemma CreateAgrees(w: World, pool: string, launch: Launch, w': World)
    requires Inv(w) && Agree(w) && FreshInstance(launch.instance) && FreshEnv(launch.env)
    requires Runs(w, CreatePlan(w, pool, launch), w', Done)
    ensures Agree(w')
  {
    CreateBuilds(w, pool, launch, w');
    forall v | v in w'.instances ensures AgreesOn(w', v) {
      if v == launch.Vm() {
        NewAgrees(w, pool, launch, w');
      } else {
        if InUse(w.instances[v].devices) { OldConfigStays(w, pool, launch, w', v); }
        StillAgrees(w, w', v);
      }
    }
  }

  lemma OldConfigStays(w: World, pool: string, launch: Launch, w': World, v: string)
    requires SourcesExist(w) && Built(w, pool, launch, w') && launch.Config() !in w.volumes
    requires launch.WantsEphemeral() ==> launch.Ephemeral() !in w.volumes
    requires v in w.instances && InUse(w.instances[v].devices)
    ensures var n := w.instances[v].devices[DISK_DEVICE_CONFIG].volume; w'.Copies(n) == w.Copies(n)
  {
    assert w.HasDevice(v, DISK_DEVICE_CONFIG);
    OldVolumesStay(w, launch, w.instances[v].devices[DISK_DEVICE_CONFIG].volume);
  }

  lemma OldVolumesStay(w: World, launch: Launch, n: string)
    requires n != launch.Config() && (launch.WantsEphemeral() ==> n != launch.Ephemeral())
    ensures n in w.volumes + BuiltVolumes(w, launch) <==> n in w.volumes
    ensures n in w.volumes ==> (w.volumes + BuiltVolumes(w, launch))[n] == w.volumes[n]
  {
  }

  lemma NewAgrees(w: World, pool: string, launch: Launch, w': World)
    requires FreshInstance(launch.instance) && FreshEnv(launch.env) && Built(w, pool, launch, w')
    ensures AgreesOn(w', launch.Vm())
  {
    DeviceNamesDistinct();
    var devices := w'.instances[launch.Vm()].devices;
    assert DISK_DEVICE_PERSISTENT1 !in devices && DISK_DEVICE_PERSISTENT2 !in devices;
    assert DISK_DEVICE_EPHEMERAL in devices <==> launch.WantsEphemeral();
    assert w'.Copies(launch.Config()) == map[w.Home(launch.instance.location) := Volume(ConfigImage(launch.FinalEnv()), map[])];
  }

  // ---- calls that touch no agent file and no device

  predicate Neutral(e: Effect, files: set<string>) {
    && !e.PutFile? && !e.DropFile? && !e.AddDevice? && !e.RemoveDevice? && !e.CopyVolume? && !e.DropCopy?
    && (e.MakeInstance? ==> e.vm !in files)
  }

  predicate NeutralPlan(plan: Plan, files: set<string>) {
    plan.Then? ==> Neutral(plan.effect, files) && NeutralPlan(plan.rest, files)
  }

  ghost predicate SameContents(w: World, w': World, n: string) {
    && w'.Copies(n).Keys == w.Copies(n).Keys
    && forall l :: l in w.Copies(n) ==> w'.Copies(n)[l].content == w.Copies(n)[l].content
  }

  lemma ConfigCopiesStay(w: World, e: Effect, v: string)
    requires Inv(w) && Enabled(w, e) && Lawful(w, e) && Neutral(e, w.files.Keys)
    requires v in w.instances && InUse(w.instances[v].devices)
    ensures SameContents(w, Apply(w, e), w.instances[v].devices[DISK_DEVICE_CONFIG].volume)
  {
    assert w.HasDevice(v, DISK_DEVICE_CONFIG);
    AttachedBy(w, v, DISK_DEVICE_CONFIG);
    ContentsStay(w, e, w.instances[v].devices[DISK_DEVICE_CONFIG].volume);
  }

  lemma ContentsStay(w: World, e: Effect, n: string)
    requires Enabled(w, e) && Lawful(w, e) && Neutral(e, w.files.Keys) && w.Attached(n) && n in w.volumes
    ensures SameContents(w, Apply(w, e), n)
  {
    match e
    case MakeVolume(_, _, _) =>
    case DropVolume(_) =>
    case AddSnapshot(_, _, _) =>
    case DropSnapshot(_, _) =>
    case _ =>
  }

  lemma NeutralAgrees(w: World, e: Effect)
    requires Inv(w) && Agree(w) && Enabled(w, e) && Lawful(w, e) && Neutral(e, w.files.Keys)
    ensures Agree(Apply(w, e))
  {
    var w' := Apply(w, e);
    DeviceNamesDistinct();
    forall v | v in w'.instances ensures AgreesOn(w', v) {
      if !(e.MakeInstance? && v == e.vm) {
        assert v in w.instances && w'.instances[v].devices == w.instances[v].devices;
        assert AgreesOn(w, v);
        if InUse(w.instances[v].devices) { ConfigCopiesStay(w, e, v); }
      }
    }
  }

  lemma {:induction false} NeutralRun(w: World, plan: Plan, w': World, rest: Plan)
    requires Inv(w) && Agree(w) && AllLawful(w, plan) && NeutralPlan(plan, w.files.Keys) && Runs(w, plan, w', rest)
    ensures Agree(w')
    decreases plan
  {
    if !(w' == w && rest == plan) {
      NeutralAgrees(w, plan.effect);
      StepKeepsInv(w, plan.effect);
      NeutralRun(Apply(w, plan.effect), plan.rest, w', rest);
    }
  }

  lemma {:induction false} SweepNeutral(chosen: seq<string>, files: set<string>)
    ensures NeutralPlan(SweepPlan(chosen), files)
    decreases chosen
  {
    if chosen != [] { SweepNeutral(chosen[1..], files); }
  }

  /** The calls that rewrite settings or change devices. */
  predicate Rewires(op: Op) {
    op.CreateVM? || op.DeleteVM? || op.AttachDisk? || op.DetachDisk?
  }

  lemma OthersNeutral(w: World, pool: string, op: Op)
    requires !Rewires(op) && GuardedOp(w, op)
    ensures NeutralPlan(PlanOf(w, pool, op), w.files.Keys)
  {
    match op
    case Sweep(chosen) => SweepNeutral(chosen, w.files.Keys);
    case CreateStemcell(uuid, existing, fingerprint, text, predeploy) =>
      var upload := UploadPlan("img-" + uuid, fingerprint, text, predeploy);
      assert NeutralPlan(upload.rest.rest, w.files.Keys);
      assert NeutralPlan(upload, w.files.Keys);
    case SnapshotDisk(disk, uuid) => assert NeutralPlan(PlanOf(w, pool, op).rest, w.files.Keys);
    case CreateDisk(vm, size, uuid) => assert NeutralPlan(CreateDiskPlan(w, vm, size, uuid).rest, w.files.Keys);
    case _ =>
  }

  // ---- runs

  /** A disk is attached only when no instance uses it, and a predeployed VM takes no other VM's name. */
  ghost predicate GuardedOp(w: World, op: Op) {
    && ValidOp(w, op)
    && (op.AttachDisk? ==> !w.Attached(op.disk))
    && (op.CreateStemcell? && op.predeploy.Some? ==> op.predeploy.value.0 !in w.files)
  }

  /** A call that goes through, or one that stops before it has changed anything. */
  ghost predicate GoesThrough(pool: string, w: World, w': World) {
    w' == w || exists op :: GuardedOp(w, op) && Runs(w, PlanOf(w, pool, op), w', Done)
  }

  lemma StepAgrees(pool: string, w: World, w': World)
    requires Inv(w) && Agree(w) && GoesThrough(pool, w, w')
    ensures Inv(w') && Agree(w')
  {
    if w' != w {
      var op :| GuardedOp(w, op) && Runs(w, PlanOf(w, pool, op), w', Done);
      OpLawful(w, pool, op);
      RunKeepsInv(w, PlanOf(w, pool, op), w', Done);
      match op
      case CreateVM(launch) => CreateAgrees(w, pool, launch, w');
      case DeleteVM(vm, order) => DeleteAgrees(w, vm, order, w');
      case AttachDisk(vm, disk, uuid) => AttachAgrees(w, pool, vm, disk, uuid, w');
      case DetachDisk(vm, disk, pick, uuid) => DetachAgrees(w, pool, vm, disk, pick, uuid, w');
      case _ =>
        OthersNeutral(w, pool, op);
        NeutralRun(w, PlanOf(w, pool, op), w', Done);
    }
  }

  /** Over every run without a half-done call, the three views of every VM agree in every state. */
  lemma {:induction false} RunAgrees(pool: string, worlds: seq<World>, i: nat)
    requires i < |worlds| && Inv(worlds[0]) && Agree(worlds[0])
    requires forall j :: 0 < j < |worlds| ==> GoesThrough(pool, worlds[j - 1], worlds[j])
    ensures Inv(worlds[i]) && Agree(worlds[i])
  {
    if i > 0 {
      RunAgrees(pool, worlds, i - 1);
      StepAgrees(pool, worlds[i - 1], worlds[i]);
    }
  }

  /** With two disks attached a further attach fails and changes nothing at all, whatever the disk. */
  lemma ThirdAttachRefused(w: World, pool: string, vm: string, disk: string, uuid: string, w': World, rest: Plan)
    requires Inv(w) && Agree(w) && w.HasDevice(vm, DISK_DEVICE_PERSISTENT1) && w.HasDevice(vm, DISK_DEVICE_PERSISTENT2)
    requires Runs(w, AttachPlan(w, pool, vm, disk, uuid), w', rest)
    ensures w' == w && rest != Done
  {
    assert AgreesOn(w, vm);
    if vm in w.files {
      DevicesOf(w, vm);
      DeviceNamesDistinct();
      PathTaken(w.instances[vm].devices, w.files[vm], SDC, DISK_DEVICE_PERSISTENT1);
      PathTaken(w.instances[vm].devices, w.files[vm], SDD, DISK_DEVICE_PERSISTENT2);
    }
    assert AttachPlan(w, pool, vm, disk, uuid) == Then(Refuse, Done);
  }

  /** Where settings and devices agree and nothing else mentions the paths, the attach is refused
      for want of a slot exactly when both persistent devices are there. */
  lemma SlotsFullExactly(w: World, vm: string)
    requires Inv(w) && Agree(w) && vm in w.instances && vm in w.files
    requires SDC !in w.files[vm].settings.mentioned && SDD !in w.files[vm].settings.mentioned
    ensures FreeSlot(w.files[vm]).None?
      <==> w.HasDevice(vm, DISK_DEVICE_PERSISTENT1) && w.HasDevice(vm, DISK_DEVICE_PERSISTENT2)
  {
    var env, devices := w.files[vm], w.instances[vm].devices;
    assert AgreesOn(w, vm);
    DevicesOf(w, vm);
    DeviceNamesDistinct();
    PathTaken(devices, env, SDC, DISK_DEVICE_PERSISTENT1);
    PathTaken(devices, env, SDD, DISK_DEVICE_PERSISTENT2);
  }

  lemma PathTaken(devices: map<string, Device>, env: AgentEnv, path: DevicePath, name: string)
    requires forall disk :: Hinted(env, disk, path) <==> InSlot(devices, name, disk)
    requires name in devices ==> devices[name].VolumeDisk?
    ensures path in env.persistent.Values <==> name in devices
  {
    if name in devices {
      assert InSlot(devices, name, devices[name].volume);
      assert Hinted(env, devices[name].volume, path);
    }
    if path in env.persistent.Values {
      var disk :| disk in env.persistent && env.persistent[disk] == path;
      assert Hinted(env, disk, path);
    }
  }
}
