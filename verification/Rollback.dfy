/** Failures of `CreateVMV2` once the instance exists: those the deferred rollback handles, and
    those of the ephemeral block, which it does not see. */
module Rollback {
  import opened Names
  import opened World
  import opened Plans
  import opened Safety
  import opened SystemRuns
  import opened Teardown
  import opened Creation
  import opened Lifecycle

  /** The states of the last stage, from `w` on: UUID drawn, settings stored, configuration volume
      made, attached, VM started. */
  function StartState(w: World, pool: string, launch: Launch, k: nat): World
    requires launch.Vm() in w.instances
  {
    var vm := launch.Vm();
    var instance := w.instances[vm];
    var attached := instance.devices[DISK_DEVICE_CONFIG := VolumeDisk(pool, launch.Config())];
    w.(used := if k >= 1 then w.used + {launch.configUuid} else w.used,
       files := if k >= 2 then w.files[vm := launch.FinalEnv()] else w.files,
       volumes := if k >= 3 then w.volumes[launch.Config() := map[w.Home(instance.location) := Volume(ConfigImage(launch.FinalEnv()), map[])]] else w.volumes,
       instances := if k >= 4 then w.instances[vm := instance.(devices := attached, status := if k >= 5 then Running else instance.status)] else w.instances)
  }

  /** What is left to do after `k` mutations of the last stage. */
  function StartRest(w: World, pool: string, launch: Launch, k: nat): Plan
    requires launch.Vm() in w.instances
    decreases if k < 5 then 5 - k else 0
  {
    var vm := launch.Vm();
    if k == 0 then Then(TakeUuid(launch.configUuid), StartRest(w, pool, launch, 1))
    else if k == 1 then Then(PutFile(vm, launch.FinalEnv()), StartRest(w, pool, launch, 2))
    else if k == 2 then
      Then(MakeVolume(launch.Config(), w.Home(w.instances[vm].location), ConfigImage(launch.FinalEnv())), StartRest(w, pool, launch, 3))
    else if k == 3 then Then(AddDevice(vm, DISK_DEVICE_CONFIG, VolumeDisk(pool, launch.Config())), StartRest(w, pool, launch, 4))
    else if k == 4 then Then(SetStatus(vm, Running), Done)
    else Done
  }

  lemma StartRestIsPlan(w0: World, w: World, pool: string, launch: Launch)
    requires launch.Vm() in w.instances && DISK_DEVICE_CONFIG !in w.instances[launch.Vm()].devices
    requires SameForWrite(WithInstance(w0, launch), w, launch.Vm()) && launch.instance.status == Stopped
    ensures StartPlan(w0, pool, launch) == StartRest(w, pool, launch, 0)
  {
    SamePlan(WithInstance(w0, launch), w, pool, launch.Vm(), launch.FinalEnv(), launch.configUuid, StartRest(w, pool, launch, 4));
    assert StartRest(w, pool, launch, 2).rest == StartRest(w, pool, launch, 3);
    assert StartRest(w, pool, launch, 1).rest == StartRest(w, pool, launch, 2);
    assert ReplaceConfig(pool, launch.Vm(), w.instances[launch.Vm()], launch.Config(), StartRest(w, pool, launch, 4)) == StartRest(w, pool, launch, 3);
  }

  lemma StartStep(w: World, pool: string, launch: Launch, k: nat)
    requires Inv(w) && launch.Vm() in w.instances && k < 5
    requires Enabled(StartState(w, pool, launch, k), StartRest(w, pool, launch, k).effect)
    requires launch.Config() !in w.volumes
    ensures Apply(StartState(w, pool, launch, k), StartRest(w, pool, launch, k).effect) == StartState(w, pool, launch, k + 1)
  {
    if k == 2 { assert StartState(w, pool, launch, 2).Copies(launch.Config()) == map[]; }
    if k == 4 {
      Overwrite(w.instances, launch.Vm(), StartState(w, pool, launch, 4).instances[launch.Vm()], StartState(w, pool, launch, 5).instances[launch.Vm()]);
    }
  }

  /** Wherever the last stage stops, it is at one of its six states. */
  lemma {:induction false} StartCuts(w: World, pool: string, launch: Launch, k: nat, w': World, rest: Plan) returns (m: nat)
    requires Inv(w) && launch.Vm() in w.instances && k <= 5 && launch.Config() !in w.volumes
    requires Runs(StartState(w, pool, launch, k), StartRest(w, pool, launch, k), w', rest)
    ensures k <= m <= 5 && w' == StartState(w, pool, launch, m)
    decreases 5 - k
  {
    var here, plan := StartState(w, pool, launch, k), StartRest(w, pool, launch, k);
    if w' == here {
      m := k;
    } else {
      RunsOn(here, plan, w', rest);
      assert k < 5;
      StartStep(w, pool, launch, k);
      RestOfRest(w, pool, launch, k);
      m := StartCuts(w, pool, launch, k + 1, w', rest);
    }
  }

  lemma RunsOn(w: World, plan: Plan, w': World, rest: Plan)
    requires Runs(w, plan, w', rest) && w' != w
    ensures plan.Then? && Enabled(w, plan.effect) && Runs(Apply(w, plan.effect), plan.rest, w', rest)
  {
  }

  lemma RestOfRest(w: World, pool: string, launch: Launch, k: nat)
    requires launch.Vm() in w.instances && k < 5
    ensures StartRest(w, pool, launch, k).rest == StartRest(w, pool, launch, k + 1)
  {
  }

  /** The states from which the deferred rollback starts: the location could not be read, or the
      settings could not be written, or the VM could not be started. */
  ghost predicate RollbackPoint(w: World, pool: string, launch: Launch, w1: World) {
    && InstanceMade(w, launch)
    && (w1 == AfterInstance(w, launch)
        || (Completes(AfterInstance(w, launch), EphemeralPlan(w, pool, launch, Done))
            && exists rest :: Runs(AfterEphemeral(w, pool, launch), StartPlan(w, pool, launch), w1, rest)))
  }

  /** The state after `CreateVMV2` failed and rolled back, compared with the state before it. */
  ghost predicate OnlyConfigLeft(w: World, launch: Launch, w2: World) {
    && w2 == w.(volumes := w2.volumes, used := w2.used)
    && w.used <= w2.used <= w.used + {launch.vmUuid, launch.ephemeralUuid, launch.configUuid}
    && (w2.volumes == w.volumes
        || (launch.Config() !in w.volumes && !w2.Attached(launch.Config())
            && w2.volumes == w.volumes[launch.Config() := map[w.Home(launch.instance.location) := Volume(ConfigImage(launch.FinalEnv()), map[])]]))
  }

  lemma RolledBackEarly(w: World, launch: Launch)
    requires Inv(w) && FreshInstance(launch.instance) && InstanceMade(w, launch)
    ensures Deleted(AfterInstance(w, launch), launch.Vm()) == w.(used := w.used + {launch.vmUuid})
  {
    VolumeNames(launch.vmUuid);
    var w1 := AfterInstance(w, launch);
    assert DisposableSources(w1, launch.Vm()) == {};
    assert w1.instances - {launch.Vm()} == w.instances;
    assert w.files - {launch.Vm()} == w.files;
    assert w.volumes - {} == w.volumes;
  }

  /** The volumes the rollback deletes at each state of the last stage. */
  lemma RollbackDeletes(w: World, pool: string, launch: Launch, k: nat)
    requires FreshInstance(launch.instance) && k <= 5
    ensures var wE := AfterEphemeral(w, pool, launch);
      DisposableSources(StartState(wE, pool, launch, k), launch.Vm())
        == (if launch.WantsEphemeral() then {launch.Ephemeral()} else {}) + (if k >= 4 then {launch.Config()} else {})
  {
    RollbackDevices(w, pool, launch, k);
    DisposableOf(StartState(AfterEphemeral(w, pool, launch), pool, launch, k).instances[launch.Vm()].devices);
  }

  lemma RollbackDevices(w: World, pool: string, launch: Launch, k: nat)
    requires FreshInstance(launch.instance) && k <= 5
    ensures launch.Vm() in StartState(AfterEphemeral(w, pool, launch), pool, launch, k).instances
    ensures var devices := StartState(AfterEphemeral(w, pool, launch), pool, launch, k).instances[launch.Vm()].devices;
      && (if launch.WantsEphemeral() then DISK_DEVICE_EPHEMERAL in devices && devices[DISK_DEVICE_EPHEMERAL] == VolumeDisk(pool, launch.Ephemeral())
          else DISK_DEVICE_EPHEMERAL !in devices)
      && (if k >= 4 then DISK_DEVICE_CONFIG in devices && devices[DISK_DEVICE_CONFIG] == VolumeDisk(pool, launch.Config())
          else DISK_DEVICE_CONFIG !in devices)
  {
    DeviceNamesDistinct();
  }

  lemma DisposableOf(devices: map<string, Device>)
    ensures (set d | d in devices && Disposable(d) && devices[d].IsDisk() :: devices[d].Source())
         == (if DISK_DEVICE_EPHEMERAL in devices && devices[DISK_DEVICE_EPHEMERAL].IsDisk() then {devices[DISK_DEVICE_EPHEMERAL].Source()} else {})
          + (if DISK_DEVICE_CONFIG in devices && devices[DISK_DEVICE_CONFIG].IsDisk() then {devices[DISK_DEVICE_CONFIG].Source()} else {})
  {
  }

  lemma RolledBackVolumes(w: World, pool: string, launch: Launch, k: nat)
    requires FreshInstance(launch.instance) && k <= 5
    requires (k > 0 ==> launch.Config() !in w.volumes) && (launch.WantsEphemeral() ==> launch.Ephemeral() !in w.volumes)
    ensures Deleted(StartState(AfterEphemeral(w, pool, launch), pool, launch, k), launch.Vm()).volumes
      == if k == 3 then w.volumes[launch.Config() := map[w.Home(launch.instance.location) := Volume(ConfigImage(launch.FinalEnv()), map[])]]
         else w.volumes
  {
    VolumeNames(launch.ephemeralUuid);
    VolumeNames(launch.configUuid);
    RollbackDeletes(w, pool, launch, k);
    var home := w.Home(launch.instance.location);
    var config := map[home := Volume(ConfigImage(launch.FinalEnv()), map[])];
    var wE := AfterEphemeral(w, pool, launch);
    assert StartState(wE, pool, launch, k).volumes == if k >= 3 then wE.volumes[launch.Config() := config] else wE.volumes;
    WithoutBoth(w.volumes, launch.WantsEphemeral(), launch.Ephemeral(), map[home := Volume(Block(launch.ephemeralMB, ""), map[])],
                launch.Config(), config, k);
  }

  lemma WithoutBoth<T>(m: map<string, T>, wanted: bool, e: string, ve: T, c: string, vc: T, k: nat)
    requires (k > 0 ==> c !in m) && (wanted ==> e !in m) && e != c
    ensures var m1 := if wanted then m[e := ve] else m;
      var m2 := if k >= 3 then m1[c := vc] else m1;
      m2 - ((if wanted then {e} else {}) + (if k >= 4 then {c} else {})) == if k == 3 then m[c := vc] else m
  {
  }

  lemma RolledBackRest(w: World, pool: string, launch: Launch, k: nat)
    requires launch.Vm() !in w.instances && launch.Vm() !in w.files
    ensures var w2 := Deleted(StartState(AfterEphemeral(w, pool, launch), pool, launch, k), launch.Vm());
      w2 == w.(volumes := w2.volumes, used := w2.used)
  {
    OwnInstance(w, pool, launch, k);
  }

  lemma Unset<T>(m: map<string, T>, k: string, v: T)
    requires k !in m
    ensures m[k := v] - {k} == m
  {
  }

  lemma VmIsNew(w: World, launch: Launch)
    requires Inv(w) && InstanceMade(w, launch)
    ensures launch.Vm() !in w.instances && launch.Vm() !in w.files
  {
    VolumeNames(launch.vmUuid);
  }

  /** How far the last stage had come when the rollback started. */
  lemma StageAtRollback(w: World, pool: string, launch: Launch, w1: World) returns (k: nat)
    requires Inv(w) && FreshInstance(launch.instance) && RollbackPoint(w, pool, launch, w1) && w1 != AfterInstance(w, launch)
    ensures k <= 5 && w1 == StartState(AfterEphemeral(w, pool, launch), pool, launch, k)
    ensures (k > 0 ==> launch.Config() !in w.volumes) && (launch.WantsEphemeral() ==> launch.Ephemeral() !in w.volumes)
  {
    var rest :| Runs(AfterEphemeral(w, pool, launch), StartPlan(w, pool, launch), w1, rest);
    var wE := AfterEphemeral(w, pool, launch);
    AfterEphemeralInv(w, pool, launch);
    EphemeralBuilds(w, pool, launch, Done);
    if w1 == wE {
      k := 0;
    } else {
      DeviceNamesDistinct();
      VolumeNames(launch.configUuid);
      StartRestIsPlan(w, wE, pool, launch);
      RunsOn(wE, StartPlan(w, pool, launch), w1, rest);
      assert launch.Config() !in wE.volumes;
      k := StartCuts(wE, pool, launch, 0, w1, rest);
    }
  }

  /** A rollback that goes through leaves nothing but, at worst, one unattached configuration
      volume. */
  lemma RollbackLeavesOnlyConfig(w: World, pool: string, launch: Launch, w1: World, order: seq<string>, w2: World)
    requires Inv(w) && FreshInstance(launch.instance) && RollbackPoint(w, pool, launch, w1)
    requires launch.Vm() in w1.instances && IsOrder(order, DisksOf(w1.instances[launch.Vm()].devices).Keys)
    requires Runs(w1, DeletePlan(w1, launch.Vm(), order), w2, Done)
    ensures launch.Vm() !in w2.instances && launch.Vm() !in w2.files
    ensures OnlyConfigLeft(w, launch, w2)
  {
    DeleteRemovesExactly(w1, launch.Vm(), order, w2);
    VmIsNew(w, launch);
    if w1 == AfterInstance(w, launch) {
      RolledBackEarly(w, launch);
    } else {
      RolledBackLate(w, pool, launch, w1);
    }
  }

  lemma RolledBackLate(w: World, pool: string, launch: Launch, w1: World)
    requires Inv(w) && FreshInstance(launch.instance) && RollbackPoint(w, pool, launch, w1) && w1 != AfterInstance(w, launch)
    requires launch.Vm() !in w.instances && launch.Vm() !in w.files
    ensures launch.Vm() in w1.instances && OnlyConfigLeft(w, launch, Deleted(w1, launch.Vm()))
  {
    var k := StageAtRollback(w, pool, launch, w1);
    RolledBackRest(w, pool, launch, k);
    RolledBackVolumes(w, pool, launch, k);
    ResidueUnattached(w, launch, Deleted(w1, launch.Vm()), k);
  }

  /** That volume is left exactly when the last stage stopped with the configuration volume made
      and not yet attached. */
  lemma ResidueExactly(w: World, pool: string, launch: Launch, k: nat, order: seq<string>, w2: World)
    requires FreshInstance(launch.instance) && k <= 5 && launch.Config() !in w.volumes
    requires launch.WantsEphemeral() ==> launch.Ephemeral() !in w.volumes
    requires var w1 := StartState(AfterEphemeral(w, pool, launch), pool, launch, k);
      && IsOrder(order, DisksOf(w1.instances[launch.Vm()].devices).Keys)
      && Runs(w1, DeletePlan(w1, launch.Vm(), order), w2, Done)
    ensures w2.volumes.Keys == w.volumes.Keys + (if k == 3 then {launch.Config()} else {})
  {
    DeleteRemovesExactly(StartState(AfterEphemeral(w, pool, launch), pool, launch, k), launch.Vm(), order, w2);
    RolledBackVolumes(w, pool, launch, k);
  }

  lemma ResidueUnattached(w: World, launch: Launch, w2: World, k: nat)
    requires Inv(w) && w2.instances == w.instances && (k > 0 ==> launch.Config() !in w.volumes)
    ensures k > 0 ==> !w2.Attached(launch.Config())
  {
    VolumeNames(launch.configUuid);
    InUseExists(w, launch.Config());
    assert w2.Attached(launch.Config()) ==> w.Attached(launch.Config());
  }

  // ---- a rollback that fails itself

  /** Nothing differs but the new VM, its file, its own two volumes, and the UUIDs. */
  predicate OnlyItsOwn(w: World, launch: Launch, w2: World) {
    && w2 == w.(instances := w2.instances, volumes := w2.volumes, files := w2.files, used := w2.used)
    && w2.instances - {launch.Vm()} == w.instances && w2.files - {launch.Vm()} == w.files
    && (forall n :: n in w.volumes ==> n in w2.volumes && w2.volumes[n] == w.volumes[n])
    && (forall n :: n in w2.volumes && n !in w.volumes ==> n == launch.Ephemeral() || n == launch.Config())
  }

  lemma OwnAtStart(w: World, pool: string, launch: Launch, k: nat)
    requires k <= 5 && launch.Vm() !in w.instances && launch.Vm() !in w.files
    requires (k > 0 ==> launch.Config() !in w.volumes) && (launch.WantsEphemeral() ==> launch.Ephemeral() !in w.volumes)
    ensures OnlyItsOwn(w, launch, StartState(AfterEphemeral(w, pool, launch), pool, launch, k))
  {
    OwnInstance(w, pool, launch, k);
    NewOnes(w.volumes, launch.WantsEphemeral(), launch.Ephemeral(), Blank(w, launch), launch.Config(),
            map[w.Home(launch.instance.location) := Volume(ConfigImage(launch.FinalEnv()), map[])], k);
  }

  lemma OwnInstance(w: World, pool: string, launch: Launch, k: nat)
    requires launch.Vm() !in w.instances && launch.Vm() !in w.files
    ensures var w1 := StartState(AfterEphemeral(w, pool, launch), pool, launch, k);
      w1.instances - {launch.Vm()} == w.instances && w1.files - {launch.Vm()} == w.files
  {
    var w1 := StartState(AfterEphemeral(w, pool, launch), pool, launch, k);
    Overwrite(w.instances, launch.Vm(), AfterEphemeral(w, pool, launch).instances[launch.Vm()], w1.instances[launch.Vm()]);
    Unset(w.instances, launch.Vm(), w1.instances[launch.Vm()]);
    Unset(w.files, launch.Vm(), launch.FinalEnv());
    assert w.files - {launch.Vm()} == w.files;
  }

  lemma NewOnes<T>(m: map<string, T>, wanted: bool, e: string, ve: T, c: string, vc: T, k: nat)
    requires (k > 0 ==> c !in m) && (wanted ==> e !in m)
    ensures var m1 := if wanted then m[e := ve] else m;
      var m2 := if k >= 3 then m1[c := vc] else m1;
      && (forall n :: n in m ==> n in m2 && m2[n] == m[n])
      && (forall n :: n in m2 && n !in m ==> n == e || n == c)
  {
  }

  lemma OwnEroded(w: World, launch: Launch, w1: World, w2: World, loss: set<string>)
    requires OnlyItsOwn(w, launch, w1) && Eroded(w1, w2, launch.Vm(), loss) && loss !! w.volumes.Keys
    requires launch.Vm() in w1.instances
    ensures OnlyItsOwn(w, launch, w2)
  {
    var vm := launch.Vm();
    assert w1.files - {vm} - {vm} == w1.files - {vm};
    if w2.instances == w1.instances - {vm} {
      assert w2.instances - {vm} == w1.instances - {vm};
    } else {
      var s :| w2.instances == w1.instances[vm := w1.instances[vm].(status := s)];
      assert w2.instances - {vm} == w1.instances - {vm};
    }
  }

  lemma OwnEarly(w: World, launch: Launch)
    requires FreshInstance(launch.instance) && launch.Vm() !in w.instances && launch.Vm() !in w.files
    ensures OnlyItsOwn(w, launch, AfterInstance(w, launch)) && DisposableSources(AfterInstance(w, launch), launch.Vm()) == {}
  {
    Unset(w.instances, launch.Vm(), launch.instance);
    assert w.files - {launch.Vm()} == w.files;
  }

  lemma OwnLate(w: World, pool: string, launch: Launch, w1: World)
    requires Inv(w) && FreshInstance(launch.instance) && RollbackPoint(w, pool, launch, w1) && w1 != AfterInstance(w, launch)
    requires launch.Vm() !in w.instances && launch.Vm() !in w.files
    ensures launch.Vm() in w1.instances && OnlyItsOwn(w, launch, w1) && DisposableSources(w1, launch.Vm()) !! w.volumes.Keys
  {
    var k := StageAtRollback(w, pool, launch, w1);
    OwnStage(w, pool, launch, k);
  }

  lemma OwnStage(w: World, pool: string, launch: Launch, k: nat)
    requires FreshInstance(launch.instance) && k <= 5 && launch.Vm() !in w.instances && launch.Vm() !in w.files
    requires (k > 0 ==> launch.Config() !in w.volumes) && (launch.WantsEphemeral() ==> launch.Ephemeral() !in w.volumes)
    ensures var w1 := StartState(AfterEphemeral(w, pool, launch), pool, launch, k);
      launch.Vm() in w1.instances && OnlyItsOwn(w, launch, w1) && DisposableSources(w1, launch.Vm()) !! w.volumes.Keys
  {
    OwnAtStart(w, pool, launch, k);
    RollbackDeletes(w, pool, launch, k);
  }

  /** Wherever the rollback stops, nothing else is touched. */
  lemma RollbackTouchesOwn(w: World, pool: string, launch: Launch, w1: World, order: seq<string>, w2: World, rest: Plan)
    requires Inv(w) && FreshInstance(launch.instance) && RollbackPoint(w, pool, launch, w1)
    requires Runs(w1, DeletePlan(w1, launch.Vm(), order), w2, rest)
    ensures OnlyItsOwn(w, launch, w2)
  {
    var vm := launch.Vm();
    VmIsNew(w, launch);
    DeleteErodes(w1, vm, order, w2, rest, DisposableSources(w1, vm));
    if w1 == AfterInstance(w, launch) {
      OwnEarly(w, launch);
    } else {
      OwnLate(w, pool, launch, w1);
    }
    OwnEroded(w, launch, w1, w2, DisposableSources(w1, vm));
  }

  // ---- the failures the rollback does not see

  /** A failure inside the ephemeral block: the instance is there, the block is not finished, and no
      rollback follows. */
  ghost predicate Unseen(w: World, pool: string, launch: Launch, w1: World) {
    && InstanceMade(w, launch) && launch.WantsEphemeral()
    && exists rest :: rest != Done && Runs(AfterInstance(w, launch), EphemeralPlan(w, pool, launch, Done), w1, rest)
  }

  /** The blank volume of the block. */
  function Blank(w: World, launch: Launch): map<string, Volume> {
    map[w.Home(launch.instance.location) := Volume(Block(launch.ephemeralMB, ""), map[])]
  }

  /** What is left to do when the block stops between making its volume and attaching it. */
  function AttachLeft(w: World, pool: string, launch: Launch): Plan {
    Then(AddDevice(launch.Vm(), DISK_DEVICE_EPHEMERAL, VolumeDisk(pool, launch.Ephemeral())), Done)
  }

  /** A failure inside the ephemeral block is not rolled back: the instance stays, stopped and as it
      was made, without agent file; beside it a blank volume no device uses stays exactly when it was
      the attachment that failed. */
  lemma ShadowedFailure(w: World, pool: string, launch: Launch, w1: World, rest: Plan)
    requires Inv(w) && FreshInstance(launch.instance) && InstanceMade(w, launch) && launch.WantsEphemeral()
    requires Runs(AfterInstance(w, launch), EphemeralPlan(w, pool, launch, Done), w1, rest) && rest != Done
    ensures Inv(w1) && w1 == w.(instances := w.instances[launch.Vm() := launch.instance], volumes := w1.volumes, used := w1.used)
    ensures launch.Vm() !in w1.files
    ensures w1.volumes == if rest == AttachLeft(w, pool, launch) then w.volumes[launch.Ephemeral() := Blank(w, launch)] else w.volumes
    ensures rest == AttachLeft(w, pool, launch) ==> launch.Ephemeral() !in w.volumes && !w1.Attached(launch.Ephemeral())
  {
    var w0 := AfterInstance(w, launch);
    VmIsNew(w, launch);
    StepKeepsInv(w, TakeUuid(launch.vmUuid));
    StepKeepsInv(Apply(w, TakeUuid(launch.vmUuid)), MakeInstance(launch.Vm(), launch.instance));
    EphemeralDoneLawful(w, pool, launch);
    RunKeepsInv(w0, EphemeralPlan(w, pool, launch, Done), w1, rest);
    BlockCuts(w0, w, pool, launch, w1, rest);
    VolumeNames(launch.ephemeralUuid);
    InUseExists(w0, launch.Ephemeral());
    assert w1.Attached(launch.Ephemeral()) ==> w0.Attached(launch.Ephemeral());
  }

  /** The unfinished stops of a plan with three mutations. */
  lemma ThreeCuts(w: World, e1: Effect, e2: Effect, e3: Effect, w': World, rest: Plan)
    requires Runs(w, Then(e1, Then(e2, Then(e3, Done))), w', rest) && rest != Done
    ensures || (rest == Then(e1, Then(e2, Then(e3, Done))) && w' == w)
      || (rest == Then(e2, Then(e3, Done)) && Enabled(w, e1) && w' == Apply(w, e1))
      || (rest == Then(e3, Done) && Enabled(w, e1) && Enabled(Apply(w, e1), e2) && w' == Apply(Apply(w, e1), e2))
  {
    var plan := Then(e1, Then(e2, Then(e3, Done)));
    if !(w' == w && rest == plan) {
      var w1 := Apply(w, e1);
      assert Runs(w1, plan.rest, w', rest);
      if !(w' == w1 && rest == plan.rest) {
        LastNotDone(Apply(w1, e2), e3, w', rest);
      }
    }
  }

  lemma LastNotDone(w: World, e: Effect, w': World, rest: Plan)
    requires Runs(w, Then(e, Done), w', rest) && rest != Done
    ensures w' == w && rest == Then(e, Done)
  {
  }

  lemma BlockCuts(w0: World, w: World, pool: string, launch: Launch, w1: World, rest: Plan)
    requires launch.WantsEphemeral() && VolumesIssued(w0) && w0.remotePool == w.remotePool
    requires Runs(w0, EphemeralPlan(w, pool, launch, Done), w1, rest) && rest != Done
    ensures w1 == w0.(volumes := w1.volumes, used := w1.used)
    ensures w1.volumes == if rest == AttachLeft(w, pool, launch) then w0.volumes[launch.Ephemeral() := Blank(w, launch)] else w0.volumes
    ensures rest == AttachLeft(w, pool, launch) ==> launch.Ephemeral() !in w0.volumes
  {
    var make := MakeVolume(launch.Ephemeral(), w.Home(launch.instance.location), Block(launch.ephemeralMB, ""));
    CutWorlds(w0, launch.ephemeralUuid, make, AttachLeft(w, pool, launch).effect, w1, rest);
    if rest == AttachLeft(w, pool, launch) { BlankMade(w0, w, launch); }
  }

  /** Drawing, making, attaching, and not done: the volumes differ only before the attachment. */
  lemma CutWorlds(w0: World, uuid: string, make: Effect, attach: Effect, w1: World, rest: Plan)
    requires make.MakeVolume? && attach.AddDevice? && rest != Done
    requires Runs(w0, Then(TakeUuid(uuid), Then(make, Then(attach, Done))), w1, rest)
    ensures rest == Then(attach, Done) ==> uuid !in w0.used && w1 == Apply(Apply(w0, TakeUuid(uuid)), make)
    ensures rest != Then(attach, Done) ==> w1 == w0.(used := w1.used)
  {
    ThreeCuts(w0, TakeUuid(uuid), make, attach, w1, rest);
  }

  lemma BlankMade(w0: World, w: World, launch: Launch)
    requires VolumesIssued(w0) && w0.remotePool == w.remotePool && launch.ephemeralUuid !in w0.used
    ensures launch.Ephemeral() !in w0.volumes
    ensures var make := MakeVolume(launch.Ephemeral(), w.Home(launch.instance.location), Block(launch.ephemeralMB, ""));
      Apply(Apply(w0, TakeUuid(launch.ephemeralUuid)), make)
        == w0.(used := w0.used + {launch.ephemeralUuid}, volumes := w0.volumes[launch.Ephemeral() := Blank(w, launch)])
  {
    VolumeNames(launch.ephemeralUuid);
    assert Apply(w0, TakeUuid(launch.ephemeralUuid)).Copies(launch.Ephemeral()) == map[];
  }

  /** Such a failure is possible exactly when an ephemeral disk is asked for. */
  lemma ShadowedWhen(w: World, pool: string, launch: Launch)
    requires InstanceMade(w, launch)
    ensures (exists w1 :: Unseen(w, pool, launch, w1)) <==> launch.ephemeralMB > 0
  {
    if launch.ephemeralMB > 0 {
      var plan := EphemeralPlan(w, pool, launch, Done);
      assert plan != Done && Runs(AfterInstance(w, launch), plan, AfterInstance(w, launch), plan);
      assert Unseen(w, pool, launch, AfterInstance(w, launch));
    }
  }

  /** The stop at which the volume is left behind. */
  lemma LeakingStop(w: World, pool: string, launch: Launch) returns (w1: World)
    requires Inv(w) && InstanceMade(w, launch) && launch.ephemeralMB > 0
    requires launch.ephemeralUuid !in w.used + {launch.vmUuid}
    ensures Unseen(w, pool, launch, w1) && launch.Ephemeral() in w1.volumes && launch.Ephemeral() !in w.volumes
    ensures Runs(AfterInstance(w, launch), EphemeralPlan(w, pool, launch, Done), w1, AttachLeft(w, pool, launch))
  {
    VolumeNames(launch.ephemeralUuid);
    var w0, plan := AfterInstance(w, launch), EphemeralPlan(w, pool, launch, Done);
    var wU := Apply(w0, plan.effect);
    assert wU.Copies(launch.Ephemeral()) == map[];
    w1 := Apply(wU, plan.rest.effect);
    assert Runs(wU, plan.rest, w1, plan.rest.rest) by { assert Runs(w1, plan.rest.rest, w1, plan.rest.rest); }
    assert AttachLeft(w, pool, launch) == plan.rest.rest;
    assert Runs(w0, plan, w1, plan.rest.rest);
  }

  /** A volume can be left behind exactly when one is asked for and its UUID is still to come. */
  lemma LeakWhen(w: World, pool: string, launch: Launch)
    requires Inv(w) && FreshInstance(launch.instance) && InstanceMade(w, launch)
    ensures (exists w1 :: Unseen(w, pool, launch, w1) && launch.Ephemeral() in w1.volumes && launch.Ephemeral() !in w.volumes)
      <==> launch.ephemeralMB > 0 && launch.ephemeralUuid !in w.used + {launch.vmUuid}
  {
    if w1 :| Unseen(w, pool, launch, w1) && launch.Ephemeral() in w1.volumes && launch.Ephemeral() !in w.volumes {
      var rest :| rest != Done && Runs(AfterInstance(w, launch), EphemeralPlan(w, pool, launch, Done), w1, rest);
      ShadowedFailure(w, pool, launch, w1, rest);
      var plan := EphemeralPlan(w, pool, launch, Done);
      ThreeCuts(AfterInstance(w, launch), plan.effect, plan.rest.effect, plan.rest.rest.effect, w1, rest);
    }
    if launch.ephemeralMB > 0 && launch.ephemeralUuid !in w.used + {launch.vmUuid} {
      var w1 := LeakingStop(w, pool, launch);
    }
  }

  /** A concrete case: on an empty server, the first VM ever, with a disk of 1024 MB. */
  lemma LeakExample(pool: string) returns (w: World, launch: Launch, w1: World)
    ensures Inv(w) && w.instances == map[] && w.volumes == map[] && FreshInstance(launch.instance) && FreshEnv(launch.env)
    ensures Unseen(w, pool, launch, w1) && launch.Vm() in w1.instances && launch.Ephemeral() in w1.volumes && w1.files == map[]
  {
    w := World(false, map[], map[], map[], map[], map[], {});
    EmptyWorldSound(false);
    launch := Launch("a", Instance("host", Stopped, map[], "", "", map[]), 1024,
                     AgentEnv(AgentSettings("agent", "vm-a", map[], {}), Some(SDA), None, map[]), "b", "c");
    w1 := LeakingStop(w, pool, launch);
    ShadowedFailure(w, pool, launch, w1, AttachLeft(w, pool, launch));
  }

  /** What such a failure leaves in the pool stays there in every later run. */
  lemma ShadowedLeakStays(w: World, pool: string, launch: Launch, rest: Plan, run: seq<State>, i: nat)
    requires IsRun(pool, run) && i < |run|
    requires Inv(w) && FreshInstance(launch.instance) && InstanceMade(w, launch) && launch.WantsEphemeral()
    requires Runs(AfterInstance(w, launch), EphemeralPlan(w, pool, launch, Done), run[0].w, rest) && rest == AttachLeft(w, pool, launch)
    ensures launch.Ephemeral() in run[i].w.volumes && !run[i].w.Attached(launch.Ephemeral())
  {
    ShadowedFailure(w, pool, launch, run[0].w, rest);
    VolumeNames(launch.ephemeralUuid);
    LeakIsPermanent(pool, run, i, launch.Ephemeral());
  }
}
