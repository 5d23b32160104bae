/** `CreateVMV2` after its settings are known: what success builds, what the rollback leaves, and
    what the failures it does not see leave. */
module Creation {
  import opened Names
  import opened World
  import opened Plans
  import opened Safety
  import opened SystemRuns

  /** The configuration volume a write deletes: the previous one, when the VM is stopped. */
  function Superseded(instance: Instance): set<string> {
    if DISK_DEVICE_CONFIG in instance.devices && IsStopped(instance.status)
    then {instance.devices[DISK_DEVICE_CONFIG].Source()} else {}
  }

  function WithDevice(w: World, vm: string, name: string, device: Device): World
    requires vm in w.instances
  {
    WithDevices(w, vm, w.instances[vm].devices[name := device])
  }

  /** The state after a completed `writeAgentFileToVM`. */
  function Written(w: World, pool: string, vm: string, env: AgentEnv, uuid: string): World
    requires vm in w.instances
  {
    var instance := w.instances[vm];
    var made := w.volumes[ConfigName(uuid) := map[w.Home(instance.location) := Volume(ConfigImage(env), map[])]];
    WithDevice(w, vm, DISK_DEVICE_CONFIG, VolumeDisk(pool, ConfigName(uuid)))
      .(used := w.used + {uuid}, files := w.files[vm := env], volumes := made - Superseded(instance))
  }

  /** Replacing the configuration volume: the new one is attached, and the old one is deleted
      exactly when the VM is stopped. */
  lemma WriteBuilds(w: World, pool: string, vm: string, env: AgentEnv, uuid: string, next: Plan)
    requires Inv(w) && vm in w.instances && Completes(w, WritePlan(w, pool, vm, env, uuid, next))
    ensures Completes(Written(w, pool, vm, env, uuid), next)
    ensures Final(w, WritePlan(w, pool, vm, env, uuid, next)) == Final(Written(w, pool, vm, env, uuid), next)
  {
    VolumeNames(uuid);
    var plan := WritePlan(w, pool, vm, env, uuid, next);
    var w1 := Apply(w, TakeUuid(uuid));
    var w2 := Apply(w1, PutFile(vm, env));
    var w3 := Apply(w2, plan.rest.rest.effect);
    assert ConfigName(uuid) !in w.volumes;
    assert Completes(w2, plan.rest.rest) && Final(w, plan) == Final(w2, plan.rest.rest);
    ReplaceBuilds(w3, pool, vm, ConfigName(uuid), next);
  }

  lemma ReplaceBuilds(w: World, pool: string, vm: string, c: string, next: Plan)
    requires vm in w.instances && Completes(w, ReplaceConfig(pool, vm, w.instances[vm], c, next))
    requires w.HasDevice(vm, DISK_DEVICE_CONFIG) ==> w.instances[vm].devices[DISK_DEVICE_CONFIG].IsDisk()
    ensures var w' := WithDevice(w, vm, DISK_DEVICE_CONFIG, VolumeDisk(pool, c)).(volumes := w.volumes - Superseded(w.instances[vm]));
      Completes(w', next) && Final(w, ReplaceConfig(pool, vm, w.instances[vm], c, next)) == Final(w', next)
  {
    var plan := ReplaceConfig(pool, vm, w.instances[vm], c, next);
    assert w.volumes - {} == w.volumes;
    StepOff(w, plan);
    if w.HasDevice(vm, DISK_DEVICE_CONFIG) {
      var w1 := Apply(w, plan.effect);
      StepOff(w1, plan.rest);
      Reattached(w, w1, vm, DISK_DEVICE_CONFIG, VolumeDisk(pool, c));
      if IsStopped(w.instances[vm].status) {
        var w2 := Apply(w1, plan.rest.effect);
        StepOff(w2, plan.rest.rest);
        Reattached(w, w2, vm, DISK_DEVICE_CONFIG, VolumeDisk(pool, c));
      }
    }
  }

  /** Taking a device out and putting another in its place is replacing it. */
  lemma Reattached(w: World, w1: World, vm: string, name: string, device: Device)
    requires vm in w.instances
    requires w1 == WithDevices(w, vm, w.instances[vm].devices - {name}).(volumes := w1.volumes)
    ensures Apply(w1, AddDevice(vm, name, device)) == WithDevice(w, vm, name, device).(volumes := w1.volumes)
  {
    var devices := w.instances[vm].devices;
    assert (devices - {name})[name := device] == devices[name := device];
    assert w1.instances[vm := w.instances[vm].(devices := devices[name := device])]
        == w.instances[vm := w.instances[vm].(devices := devices[name := device])];
  }

  /** The state once the instance is there. */
  function AfterInstance(w: World, launch: Launch): World {
    WithInstance(w, launch).(used := w.used + {launch.vmUuid})
  }

  /** The state once the ephemeral disk, if any is wanted, is attached. */
  function AfterEphemeral(w: World, pool: string, launch: Launch): World {
    if !launch.WantsEphemeral() then AfterInstance(w, launch)
    else
      var device := VolumeDisk(pool, launch.Ephemeral());
      w.(used := w.used + {launch.vmUuid} + {launch.ephemeralUuid},
         volumes := w.volumes[launch.Ephemeral() := map[w.Home(launch.instance.location) := Volume(Block(launch.ephemeralMB, ""), map[])]],
         instances := w.instances[launch.Vm() := launch.instance.(devices := launch.instance.devices[DISK_DEVICE_EPHEMERAL := device])])
  }

  /** The instance was created: its UUID was fresh, the name free, and a location was chosen. */
  predicate InstanceMade(w: World, launch: Launch) {
    && Enabled(w, TakeUuid(launch.vmUuid))
    && Enabled(Apply(w, TakeUuid(launch.vmUuid)), MakeInstance(launch.Vm(), launch.instance))
  }

  lemma EphemeralBuilds(w: World, pool: string, launch: Launch, next: Plan)
    requires Inv(w) && InstanceMade(w, launch)
    requires Completes(AfterInstance(w, launch), EphemeralPlan(w, pool, launch, next))
    ensures Completes(AfterEphemeral(w, pool, launch), next)
    ensures Final(AfterInstance(w, launch), EphemeralPlan(w, pool, launch, next)) == Final(AfterEphemeral(w, pool, launch), next)
    ensures launch.WantsEphemeral() ==> launch.Ephemeral() !in w.volumes
  {
    if launch.WantsEphemeral() {
      VolumeNames(launch.ephemeralUuid);
      var w0 := AfterInstance(w, launch);
      var plan := EphemeralPlan(w, pool, launch, next);
      StepOff(w0, plan);
      assert launch.Ephemeral() !in w.volumes;
      var w1 := Apply(w0, plan.effect);
      StepOff(w1, plan.rest);
      var w2 := Apply(w1, plan.rest.effect);
      StepOff(w2, plan.rest.rest);
      AttachedEphemeral(w, w2, pool, launch);
    }
  }

  lemma AttachedEphemeral(w: World, w2: World, pool: string, launch: Launch)
    requires launch.WantsEphemeral() && launch.Ephemeral() !in w.volumes && DISK_DEVICE_EPHEMERAL !in launch.instance.devices
    requires w2 == AfterInstance(w, launch).(used := w.used + {launch.vmUuid} + {launch.ephemeralUuid},
      volumes := w.volumes[launch.Ephemeral() := map[w.Home(launch.instance.location) := Volume(Block(launch.ephemeralMB, ""), map[])]])
    ensures Apply(w2, AddDevice(launch.Vm(), DISK_DEVICE_EPHEMERAL, VolumeDisk(pool, launch.Ephemeral()))) == AfterEphemeral(w, pool, launch)
  {
    var device := VolumeDisk(pool, launch.Ephemeral());
    assert w2.instances[launch.Vm() := launch.instance.(devices := launch.instance.devices[DISK_DEVICE_EPHEMERAL := device])]
        == w.instances[launch.Vm() := launch.instance.(devices := launch.instance.devices[DISK_DEVICE_EPHEMERAL := device])];
  }

  /** The running instance with its own devices, the configuration disk and the ephemeral disk. */
  function BuiltInstance(pool: string, launch: Launch): Instance {
    var ephemeral := if launch.WantsEphemeral() then map[DISK_DEVICE_EPHEMERAL := VolumeDisk(pool, launch.Ephemeral())] else map[];
    launch.instance.(status := Running,
      devices := launch.instance.devices + ephemeral + map[DISK_DEVICE_CONFIG := VolumeDisk(pool, launch.Config())])
  }

  /** One copy of each new volume, at the instance's location. */
  function BuiltVolumes(w: World, launch: Launch): map<string, map<string, Volume>> {
    var home := w.Home(launch.instance.location);
    (if launch.WantsEphemeral() then map[launch.Ephemeral() := map[home := Volume(Block(launch.ephemeralMB, ""), map[])]] else map[])
      + map[launch.Config() := map[home := Volume(ConfigImage(launch.FinalEnv()), map[])]]
  }

  /** What a successful `CreateVMV2` has built, relative to the state before it. */
  predicate Built(w: World, pool: string, launch: Launch, w': World) {
    w' == w.(instances := w.instances[launch.Vm() := BuiltInstance(pool, launch)],
             volumes := w.volumes + BuiltVolumes(w, launch),
             files := w.files[launch.Vm() := launch.FinalEnv()],
             used := w'.used)
  }

  /** Success leaves a started instance with its own devices, the configuration disk and the
      ephemeral disk if one was asked for; both volumes are new, at the instance's location, the
      configuration volume encodes the stored settings, and nothing else has changed. */
  lemma CreateBuilds(w: World, pool: string, launch: Launch, w': World)
    requires Inv(w) && FreshInstance(launch.instance)
    requires Runs(w, CreatePlan(w, pool, launch), w', Done)
    ensures Built(w, pool, launch, w')
    ensures launch.Vm() !in w.instances && launch.Vm() !in w.files && launch.Config() !in w.volumes
    ensures launch.WantsEphemeral() ==> launch.Ephemeral() !in w.volumes
  {
    var plan := CreatePlan(w, pool, launch);
    RunsToTheEnd(w, plan, w');
    VolumeNames(launch.vmUuid);
    StepOff(w, plan);
    StepOff(Apply(w, plan.effect), plan.rest);
    EphemeralBuilds(w, pool, launch, StartPlan(w, pool, launch));
    CompletesFirst(w, pool, launch);
    StartBuilds(w, pool, launch);
  }

  lemma CompletesFirst(w: World, pool: string, launch: Launch)
    requires Completes(AfterInstance(w, launch), EphemeralPlan(w, pool, launch, StartPlan(w, pool, launch)))
    ensures Completes(AfterInstance(w, launch), EphemeralPlan(w, pool, launch, Done))
  {
    if launch.WantsEphemeral() {
      var w0, plan := AfterInstance(w, launch), EphemeralPlan(w, pool, launch, StartPlan(w, pool, launch));
      var done := EphemeralPlan(w, pool, launch, Done);
      StepOff(w0, plan);
      var w1 := Apply(w0, plan.effect);
      StepOff(w1, plan.rest);
      var w2 := Apply(w1, plan.rest.effect);
      StepOff(w2, plan.rest.rest);
      assert Completes(w2, done.rest.rest);
      assert Completes(w1, done.rest);
    }
  }

  /** The settings hint at `/dev/sdb` exactly when the VM has an ephemeral disk. */
  lemma EphemeralHinted(w: World, pool: string, launch: Launch, w': World)
    requires FreshInstance(launch.instance) && FreshEnv(launch.env) && Built(w, pool, launch, w')
    ensures DISK_DEVICE_EPHEMERAL in w'.instances[launch.Vm()].devices <==> w'.files[launch.Vm()].ephemeral == Some(SDB)
    ensures DISK_DEVICE_EPHEMERAL in w'.instances[launch.Vm()].devices <==> launch.ephemeralMB > 0
    ensures w'.instances[launch.Vm()].devices.Keys == launch.instance.devices.Keys + {DISK_DEVICE_CONFIG}
      + (if launch.ephemeralMB > 0 then {DISK_DEVICE_EPHEMERAL} else {})
  {
    DeviceNamesDistinct();
  }

  lemma AfterEphemeralInv(w: World, pool: string, launch: Launch)
    requires Inv(w) && FreshInstance(launch.instance) && InstanceMade(w, launch)
    requires Completes(AfterInstance(w, launch), EphemeralPlan(w, pool, launch, Done))
    ensures Inv(AfterInstance(w, launch)) && Inv(AfterEphemeral(w, pool, launch))
  {
    var w1 := Apply(w, TakeUuid(launch.vmUuid));
    StepKeepsInv(w, TakeUuid(launch.vmUuid));
    StepKeepsInv(w1, MakeInstance(launch.Vm(), launch.instance));
    if launch.WantsEphemeral() {
      var w2 := AfterInstance(w, launch);
      var plan := EphemeralPlan(w, pool, launch, Done);
      EphemeralDoneLawful(w, pool, launch);
      EphemeralBuilds(w, pool, launch, Done);
      RunsToTheEnd(w2, plan, Final(w2, plan));
      RunKeepsInv(w2, plan, AfterEphemeral(w, pool, launch), Done);
    }
  }

  lemma EphemeralDoneLawful(w: World, pool: string, launch: Launch)
    requires Inv(AfterInstance(w, launch)) && launch.WantsEphemeral()
    ensures AllLawful(AfterInstance(w, launch), EphemeralPlan(w, pool, launch, Done))
  {
    VolumeNames(launch.ephemeralUuid);
    var w1, plan := AfterInstance(w, launch), EphemeralPlan(w, pool, launch, Done);
    if Enabled(w1, plan.effect) {
      InUseExists(w1, launch.Ephemeral());
      var w2 := Apply(w1, plan.effect);
      InUseBefore(w1, plan.effect, launch.Ephemeral());
      var w3 := Apply(w2, plan.rest.effect);
      InUseBefore(w2, plan.rest.effect, launch.Ephemeral());
      assert AllLawful(w3, plan.rest.rest);
      assert AllLawful(w2, plan.rest);
    }
  }

  lemma StartBuilds(w: World, pool: string, launch: Launch)
    requires Inv(w) && FreshInstance(launch.instance) && InstanceMade(w, launch)
    requires Completes(AfterInstance(w, launch), EphemeralPlan(w, pool, launch, Done))
    requires Completes(AfterEphemeral(w, pool, launch), StartPlan(w, pool, launch))
    ensures Built(w, pool, launch, Final(AfterEphemeral(w, pool, launch), StartPlan(w, pool, launch)))
    ensures launch.Config() !in w.volumes
  {
    var vm := launch.Vm();
    var w1 := AfterEphemeral(w, pool, launch);
    var next := Then(SetStatus(vm, Running), Done);
    AfterEphemeralInv(w, pool, launch);
    VolumeNames(launch.configUuid);
    DeviceNamesDistinct();
    SamePlan(WithInstance(w, launch), w1, pool, vm, launch.FinalEnv(), launch.configUuid, next);
    WriteBuilds(w1, pool, vm, launch.FinalEnv(), launch.configUuid, next);
    var w2 := Written(w1, pool, vm, launch.FinalEnv(), launch.configUuid);
    StepOff(w2, next);
    DevicesInTheEnd(w, pool, launch);
    WrittenFirst(w1, pool, vm, launch.FinalEnv(), launch.configUuid);
    BuiltInTheEnd(w, pool, launch);
  }

  /** The state after the first write of the settings of a VM, and its start. */
  function Launched(w: World, pool: string, vm: string, env: AgentEnv, uuid: string): World
    requires vm in w.instances
  {
    var instance := w.instances[vm];
    w.(instances := w.instances[vm := instance.(status := Running,
         devices := instance.devices[DISK_DEVICE_CONFIG := VolumeDisk(pool, ConfigName(uuid))])],
       volumes := w.volumes[ConfigName(uuid) := map[w.Home(instance.location) := Volume(ConfigImage(env), map[])]],
       files := w.files[vm := env], used := w.used + {uuid})
  }

  /** The first write of the settings deletes nothing. */
  lemma WrittenFirst(w: World, pool: string, vm: string, env: AgentEnv, uuid: string)
    requires vm in w.instances && DISK_DEVICE_CONFIG !in w.instances[vm].devices
    ensures Apply(Written(w, pool, vm, env, uuid), SetStatus(vm, Running)) == Launched(w, pool, vm, env, uuid)
  {
    var made := w.volumes[ConfigName(uuid) := map[w.Home(w.instances[vm].location) := Volume(ConfigImage(env), map[])]];
    assert made - {} == made;
  }

  lemma BuiltInTheEnd(w: World, pool: string, launch: Launch)
    requires FreshInstance(launch.instance)
    ensures Built(w, pool, launch, Launched(AfterEphemeral(w, pool, launch), pool, launch.Vm(), launch.FinalEnv(), launch.configUuid))
  {
    InstancesInTheEnd(w, pool, launch);
    VolumesInTheEnd(w, launch);
  }

  lemma InstancesInTheEnd(w: World, pool: string, launch: Launch)
    requires FreshInstance(launch.instance)
    ensures Launched(AfterEphemeral(w, pool, launch), pool, launch.Vm(), launch.FinalEnv(), launch.configUuid).instances
         == w.instances[launch.Vm() := BuiltInstance(pool, launch)]
  {
    DevicesInTheEnd(w, pool, launch);
    Overwrite(w.instances, launch.Vm(), AfterEphemeral(w, pool, launch).instances[launch.Vm()], BuiltInstance(pool, launch));
  }

  lemma VolumesInTheEnd(w: World, launch: Launch)
    ensures var home := w.Home(launch.instance.location);
      var config := map[home := Volume(ConfigImage(launch.FinalEnv()), map[])];
      var blank := map[home := Volume(Block(launch.ephemeralMB, ""), map[])];
      w.volumes + BuiltVolumes(w, launch) ==
        (if launch.WantsEphemeral() then w.volumes[launch.Ephemeral() := blank] else w.volumes)[launch.Config() := config]
  {
  }

  lemma DevicesInTheEnd(w: World, pool: string, launch: Launch)
    requires FreshInstance(launch.instance)
    ensures DISK_DEVICE_CONFIG !in AfterEphemeral(w, pool, launch).instances[launch.Vm()].devices
    ensures AfterEphemeral(w, pool, launch).instances[launch.Vm()].devices[DISK_DEVICE_CONFIG := VolumeDisk(pool, launch.Config())]
         == BuiltInstance(pool, launch).devices
  {
    DeviceNamesDistinct();
    AddedOneByOne(launch.instance.devices, DISK_DEVICE_EPHEMERAL, VolumeDisk(pool, launch.Ephemeral()),
                  DISK_DEVICE_CONFIG, VolumeDisk(pool, launch.Config()));
  }

  lemma AddedOneByOne<T>(m: map<string, T>, k1: string, v1: T, k2: string, v2: T)
    ensures m[k1 := v1] == m + map[k1 := v1]
    ensures m[k2 := v2] == m + map[] + map[k2 := v2]
    ensures m[k1 := v1][k2 := v2] == m + map[k1 := v1] + map[k2 := v2]
  {
  }
}
