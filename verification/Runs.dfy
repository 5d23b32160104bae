/** Runs of the whole system: any sequence of calls, each stopping anywhere. */
module SystemRuns {
  import opened Names
  import opened World
  import opened Plans
  import opened Safety

  /** Only existing volumes are in use. */
  lemma InUseExists(w: World, volume: string)
    requires Inv(w) && ClassOf(volume) != ForeignVolume
    ensures w.Attached(volume) ==> volume in w.volumes
  {
    if w.Attached(volume) {
      var vm :| vm in w.instances && w.UsedBy(vm, volume);
      var d :| d in w.instances[vm].devices && w.instances[vm].devices[d].Source() == volume;
      assert w.HasDevice(vm, d);
    }
  }

  /** Only `AddDevice` brings a volume into use. */
  lemma UserBefore(w: World, e: Effect, vm: string, volume: string)
    requires Lawful(w, e) && volume != "" && Apply(w, e).UsedBy(vm, volume)
    ensures w.UsedBy(vm, volume) || (e.AddDevice? && e.vm == vm && e.device.Source() == volume)
  {
    var w' := Apply(w, e);
    var d :| d in w'.instances[vm].devices && w'.instances[vm].devices[d].Source() == volume;
    assert w.HasDevice(vm, d) || e.AddDevice? || e.MakeInstance?;
  }

  lemma InUseBefore(w: World, e: Effect, volume: string)
    requires Lawful(w, e) && volume != ""
    ensures Apply(w, e).Attached(volume) ==> w.Attached(volume) || (e.AddDevice? && e.device.Source() == volume)
  {
    if Apply(w, e).Attached(volume) {
      var vm :| vm in Apply(w, e).instances && Apply(w, e).UsedBy(vm, volume);
      UserBefore(w, e, vm, volume);
    }
  }

  ghost predicate AlwaysLawful(plan: Plan) {
    forall w :: AllLawful(w, plan)
  }

  /** Once the new configuration volume exists unused, replacing the old one is lawful. */
  lemma ReplaceLawful(w: World, pool: string, vm: string, volume: string, next: Plan)
    requires vm in w.instances && volume in w.volumes && ClassOf(volume) == ConfigVolume
    requires !w.Attached(volume) && AlwaysLawful(next)
    ensures AllLawful(w, ReplaceConfig(pool, vm, w.instances[vm], volume, next))
  {
    var instance := w.instances[vm];
    var attach := Then(AddDevice(vm, DISK_DEVICE_CONFIG, VolumeDisk(pool, volume)), next);
    assert AllLawful(w, attach);
    if DISK_DEVICE_CONFIG in instance.devices && instance.devices[DISK_DEVICE_CONFIG].IsDisk() {
      var previous := instance.devices[DISK_DEVICE_CONFIG].Source();
      AttachedBy(w, vm, DISK_DEVICE_CONFIG);
      var w1 := Apply(w, RemoveDevice(vm, DISK_DEVICE_CONFIG));
      InUseBefore(w, RemoveDevice(vm, DISK_DEVICE_CONFIG), volume);
      assert AllLawful(w1, attach);
      var w2 := Apply(w1, DropVolume(previous));
      InUseBefore(w1, DropVolume(previous), volume);
      assert AllLawful(w2, attach);
      assert AllLawful(w1, Then(DropVolume(previous), attach));
    }
  }

  /** `w1` looks to a configuration write on `vm` as `w` did when it was planned. */
  ghost predicate SameForWrite(w: World, w1: World, vm: string) {
    && w1.remotePool == w.remotePool
    && (vm in w1.instances <==> vm in w.instances)
    && (vm in w.instances ==>
      var a := w.instances[vm]; var b := w1.instances[vm];
      && a.location == b.location && a.status == b.status
      && (DISK_DEVICE_CONFIG in a.devices <==> DISK_DEVICE_CONFIG in b.devices)
      && (DISK_DEVICE_CONFIG in a.devices ==> a.devices[DISK_DEVICE_CONFIG] == b.devices[DISK_DEVICE_CONFIG]))
  }

  lemma SamePlan(w: World, w1: World, pool: string, vm: string, env: AgentEnv, uuid: string, next: Plan)
    requires SameForWrite(w, w1, vm)
    ensures WritePlan(w, pool, vm, env, uuid, next) == WritePlan(w1, pool, vm, env, uuid, next)
  {
  }

  lemma WriteLawful(w: World, pool: string, vm: string, env: AgentEnv, uuid: string, next: Plan)
    requires Inv(w) && AlwaysLawful(next) && VmUuidOf(vm) in w.used
    ensures AllLawful(w, WritePlan(w, pool, vm, env, uuid, next))
  {
    if uuid !in w.used {
      VolumeNames(uuid);
      InUseExists(w, ConfigName(uuid));
      var w1 := Apply(w, TakeUuid(uuid));
      var w2 := Apply(w1, PutFile(vm, env));
      if vm in w.instances {
        MakeConfigLawful(w2, pool, vm, env, uuid, next);
      }
      var p2 := WritePlan(w, pool, vm, env, uuid, next).rest.rest;
      assert AllLawful(w2, p2);
      assert AllLawful(w1, Then(PutFile(vm, env), p2));
    }
  }

  lemma MakeConfigLawful(w: World, pool: string, vm: string, env: AgentEnv, uuid: string, next: Plan)
    requires vm in w.instances && uuid in w.used && ConfigName(uuid) !in w.volumes && !w.Attached(ConfigName(uuid))
    requires AlwaysLawful(next)
    ensures AllLawful(w, Then(MakeVolume(ConfigName(uuid), w.Home(w.instances[vm].location), ConfigImage(env)),
                              ReplaceConfig(pool, vm, w.instances[vm], ConfigName(uuid), next)))
  {
    VolumeNames(uuid);
    var make := MakeVolume(ConfigName(uuid), w.Home(w.instances[vm].location), ConfigImage(env));
    InUseBefore(w, make, ConfigName(uuid));
    ReplaceLawful(Apply(w, make), pool, vm, ConfigName(uuid), next);
  }

  lemma {:induction false} DropDisksLawful(w: World, devices: map<string, Device>, order: seq<string>, next: Plan)
    requires AlwaysLawful(next)
    ensures AllLawful(w, DropDisks(devices, order, next))
    decreases order
  {
    if order != [] {
      var plan := DropDisks(devices, order, next);
      if order[0] in devices && Disposable(order[0]) {
        DropDisksLawful(Apply(w, plan.effect), devices, order[1..], next);
      } else {
        DropDisksLawful(w, devices, order[1..], next);
      }
    }
  }

  lemma {:induction false} SweepLawful(w: World, chosen: seq<string>)
    ensures AllLawful(w, SweepPlan(chosen))
    decreases chosen
  {
    if chosen != [] { SweepLawful(Apply(w, DropVolume(chosen[0])), chosen[1..]); }
  }

  lemma DeleteLawful(w: World, vm: string, order: seq<string>)
    ensures AllLawful(w, DeletePlan(w, vm, order))
  {
    var dropFile := Then(DropFile(vm), Done);
    assert AlwaysLawful(dropFile);
    if vm in w.instances {
      var disks := DropDisks(DisksOf(w.instances[vm].devices), order, dropFile);
      forall w1 ensures AllLawful(w1, disks) { DropDisksLawful(w1, DisksOf(w.instances[vm].devices), order, dropFile); }
      var teardown := Then(DropInstance(vm), disks);
      assert AllLawful(w, teardown);
      assert AllLawful(Apply(w, SetStatus(vm, Stopped)), teardown);
    }
  }

  /** The states that differ from `w` in where the volumes are. */
  ghost predicate Relocated(w: World, w1: World, disk: string) {
    Inv(w1) && w1 == w.(volumes := w1.volumes) && disk in w1.volumes
  }

  lemma ColocateLawful(w: World, vm: string, disk: string, next: Plan)
    requires Inv(w) && ClassOf(disk) == PersistentVolume
    requires forall w1 :: Relocated(w, w1, disk) ==> AllLawful(w1, next)
    ensures AllLawful(w, ColocatePlan(w, vm, disk, next))
  {
    if vm in w.instances && w.Unique(disk) {
      var here, there := LocationOf(w, disk), w.instances[vm].location;
      assert Relocated(w, w, disk);
      if here != there && here != "" {
        var copy := CopyVolume(disk, here, there);
        if Enabled(w, copy) {
          StepKeepsInv(w, copy);
          DropCopyLawful(w, Apply(w, copy), disk, here, there, next);
        }
      }
    }
  }

  lemma DropCopyLawful(w: World, w1: World, disk: string, here: string, there: string, next: Plan)
    requires Relocated(w, w1, disk) && ClassOf(disk) == PersistentVolume
    requires here != there && there in w1.Copies(disk)
    requires forall w2 :: Relocated(w, w2, disk) ==> AllLawful(w2, next)
    ensures AllLawful(w1, Then(DropCopy(disk, here), next))
  {
    var drop := DropCopy(disk, here);
    if Enabled(w1, drop) {
      assert there in w1.Copies(disk) - {here};
      StepKeepsInv(w1, drop);
      assert Relocated(w, Apply(w1, drop), disk);
    }
  }

  lemma AttachLawful(w: World, pool: string, vm: string, disk: string, uuid: string)
    requires Inv(w) && ClassOf(disk) == PersistentVolume
    ensures AllLawful(w, AttachPlan(w, pool, vm, disk, uuid))
  {
    if vm in w.files && FreeSlot(w.files[vm]).Some? {
      var (path, name) := FreeSlot(w.files[vm]).value;
      var env := w.files[vm].(persistent := w.files[vm].persistent[disk := path]);
      var attach := AddDevice(vm, name, VolumeDisk(pool, disk));
      var tail := Then(attach, WritePlan(Apply(w, attach), pool, vm, env, uuid, Done));
      if vm in w.instances {
        forall w1 | Relocated(w, w1, disk) ensures AllLawful(w1, tail) {
          AttachTailLawful(w, w1, pool, vm, disk, name, env, uuid);
        }
        ColocateLawful(w, vm, disk, tail);
      }
    }
  }

  /** Attaching and rewriting the settings, from a state that differs from `w0` in volumes at most. */
  lemma AttachTailLawful(w0: World, w: World, pool: string, vm: string, disk: string, name: string, env: AgentEnv, uuid: string)
    requires Inv(w) && ClassOf(disk) == PersistentVolume && w == w0.(volumes := w.volumes)
    requires vm in w.files && vm in w.instances && disk in w.volumes
    requires name == DISK_DEVICE_PERSISTENT1 || name == DISK_DEVICE_PERSISTENT2
    ensures var attach := AddDevice(vm, name, VolumeDisk(pool, disk));
      AllLawful(w, Then(attach, WritePlan(Apply(w0, attach), pool, vm, env, uuid, Done)))
  {
    DeviceNamesDistinct();
    var attach := AddDevice(vm, name, VolumeDisk(pool, disk));
    if Enabled(w, attach) {
      StepKeepsInv(w, attach);
      WriteLawful(Apply(w, attach), pool, vm, env, uuid, Done);
      SamePlan(Apply(w0, attach), Apply(w, attach), pool, vm, env, uuid, Done);
    }
  }

  lemma DetachLawful(w: World, pool: string, vm: string, disk: string, pick: string, uuid: string)
    requires Inv(w)
    ensures AllLawful(w, DetachPlan(w, pool, vm, disk, pick, uuid))
  {
    if vm in w.instances {
      var detach := RemoveDevice(vm, pick);
      if pick != "" && Enabled(w, detach) { StepKeepsInv(w, detach); }
      if vm in w.files {
        var env := w.files[vm].(persistent := w.files[vm].persistent - {disk});
        WriteLawful(if pick == "" then w else Apply(w, detach), pool, vm, env, uuid, Done);
      }
    }
  }

  lemma StartLawful(w0: World, w: World, pool: string, launch: Launch)
    requires Inv(w) && launch.vmUuid in w.used && SameForWrite(WithInstance(w0, launch), w, launch.Vm())
    ensures AllLawful(w, StartPlan(w0, pool, launch))
  {
    VolumeNames(launch.vmUuid);
    var next := if IsStarted(launch.instance.status) then Done else Then(SetStatus(launch.Vm(), Running), Done);
    WriteLawful(w, pool, launch.Vm(), launch.FinalEnv(), launch.configUuid, next);
    SamePlan(WithInstance(w0, launch), w, pool, launch.Vm(), launch.FinalEnv(), launch.configUuid, next);
  }

  lemma EphemeralLawful(w0: World, w: World, pool: string, launch: Launch)
    requires Inv(w) && launch.vmUuid in w.used && FreshInstance(launch.instance)
    requires w == WithInstance(w0, launch).(used := w.used)
    ensures AllLawful(w, EphemeralPlan(w0, pool, launch, StartPlan(w0, pool, launch)))
  {
    DeviceNamesDistinct();
    if !launch.WantsEphemeral() {
      StartLawful(w0, w, pool, launch);
    } else if launch.ephemeralUuid !in w.used {
      VolumeNames(launch.ephemeralUuid);
      InUseExists(w, launch.Ephemeral());
      StepKeepsInv(w, TakeUuid(launch.ephemeralUuid));
      MakeEphemeralLawful(w0, Apply(w, TakeUuid(launch.ephemeralUuid)), pool, launch);
    }
  }

  lemma MakeEphemeralLawful(w0: World, w: World, pool: string, launch: Launch)
    requires Inv(w) && launch.vmUuid in w.used && launch.ephemeralUuid in w.used && FreshInstance(launch.instance)
    requires launch.Ephemeral() !in w.volumes && !w.Attached(launch.Ephemeral())
    requires w == WithInstance(w0, launch).(used := w.used) && launch.WantsEphemeral()
    ensures AllLawful(w, EphemeralPlan(w0, pool, launch, StartPlan(w0, pool, launch)).rest)
  {
    VolumeNames(launch.ephemeralUuid);
    var make := MakeVolume(launch.Ephemeral(), w0.Home(launch.instance.location), Block(launch.ephemeralMB, ""));
    var w1 := Apply(w, make);
    StepKeepsInv(w, make);
    InUseBefore(w, make, launch.Ephemeral());
    var attach := AddDevice(launch.Vm(), DISK_DEVICE_EPHEMERAL, VolumeDisk(pool, launch.Ephemeral()));
    AttachEphemeralLawful(w0, w1, pool, launch);
    assert AllLawful(w1, Then(attach, StartPlan(w0, pool, launch)));
  }

  lemma AttachEphemeralLawful(w0: World, w: World, pool: string, launch: Launch)
    requires Inv(w) && launch.vmUuid in w.used && FreshInstance(launch.instance)
    requires launch.Ephemeral() in w.volumes && !w.Attached(launch.Ephemeral())
    requires w == WithInstance(w0, launch).(used := w.used, volumes := w.volumes)
    ensures AllLawful(w, Then(AddDevice(launch.Vm(), DISK_DEVICE_EPHEMERAL, VolumeDisk(pool, launch.Ephemeral())),
                              StartPlan(w0, pool, launch)))
  {
    VolumeNames(launch.ephemeralUuid);
    DeviceNamesDistinct();
    var attach := AddDevice(launch.Vm(), DISK_DEVICE_EPHEMERAL, VolumeDisk(pool, launch.Ephemeral()));
    if Enabled(w, attach) {
      StepKeepsInv(w, attach);
      StartLawful(w0, Apply(w, attach), pool, launch);
    }
  }

  lemma CreateLawful(w: World, pool: string, launch: Launch)
    requires Inv(w) && FreshInstance(launch.instance)
    ensures AllLawful(w, CreatePlan(w, pool, launch))
  {
    var take, make := TakeUuid(launch.vmUuid), MakeInstance(launch.Vm(), launch.instance);
    if Enabled(w, take) {
      var w1 := Apply(w, take);
      StepKeepsInv(w, take);
      if Enabled(w1, make) {
        StepKeepsInv(w1, make);
        EphemeralLawful(w, Apply(w1, make), pool, launch);
      }
      assert AllLawful(w1, CreatePlan(w, pool, launch).rest);
    }
  }

  /** The CPI never asks for an unlawful mutation, whatever the call. */
  lemma OpLawful(w: World, pool: string, op: Op)
    requires Inv(w) && ValidOp(w, op)
    ensures AllLawful(w, PlanOf(w, pool, op))
  {
    match op
    case CreateVM(launch) => CreateLawful(w, pool, launch);
    case DeleteVM(vm, order) => DeleteLawful(w, vm, order);
    case AttachDisk(vm, disk, uuid) => AttachLawful(w, pool, vm, disk, uuid);
    case DetachDisk(vm, disk, pick, uuid) => DetachLawful(w, pool, vm, disk, pick, uuid);
    case CreateDisk(vm, size, uuid) => CreateDiskLawful(w, vm, size, uuid);
    case Sweep(chosen) => SweepLawful(w, chosen);
    case CreateStemcell(uuid, existing, fingerprint, text, predeploy) =>
      UploadLawful(Apply(w, TakeUuid(uuid)), "img-" + uuid, fingerprint, text, predeploy);
    case _ =>
  }

  lemma CreateDiskLawful(w: World, vm: string, size: int, uuid: string)
    requires Inv(w)
    ensures AllLawful(w, CreateDiskPlan(w, vm, size, uuid))
  {
    VolumeNames(uuid);
    if uuid !in w.used {
      assert AllLawful(Apply(w, TakeUuid(uuid)), CreateDiskPlan(w, vm, size, uuid).rest);
    }
  }

  lemma UploadLawful(w: World, alias: string, fingerprint: string, text: string, predeploy: Option<(string, Instance)>)
    requires predeploy.Some? ==> FreshInstance(predeploy.value.1)
    ensures AllLawful(w, UploadPlan(alias, fingerprint, text, predeploy))
  {
    var tail := UploadPlan(alias, fingerprint, text, predeploy).rest.rest;
    if predeploy.Some? {
      assert AlwaysLawful(tail.rest);
      forall w1 ensures AllLawful(w1, tail) {
        assert AllLawful(Apply(w1, tail.effect), tail.rest);
      }
    }
    assert AlwaysLawful(tail);
    assert AlwaysLawful(Then(MakeAlias(alias, fingerprint), tail));
  }

  /** One call, carried out up to `rest`. */
  ghost predicate Performs(pool: string, op: Op, w: World, w': World, rest: Plan) {
    ValidOp(w, op) && Runs(w, PlanOf(w, pool, op), w', rest)
  }

  /** A call keeps the invariant wherever it stops. */
  lemma PerformKeepsInv(pool: string, op: Op, w: World, w': World, rest: Plan)
    requires Inv(w) && Performs(pool, op, w, w', rest)
    ensures Inv(w')
  {
    OpLawful(w, pool, op);
    RunKeepsInv(w, PlanOf(w, pool, op), w', rest);
  }
}
