/** Runs of the whole system, one server call at a time: calls follow each other, each may stop
    anywhere, and every state on the way counts. */
module Lifecycle {
  import opened Names
  import opened World
  import opened Plans
  import opened Safety
  import opened SystemRuns
  import opened Teardown

  /** The world and what the call in flight still has to do. */
  datatype State = State(w: World, todo: Plan)

  ghost predicate Begins(pool: string, s: State, s': State) {
    s.todo.Done? && exists op :: ValidOp(s.w, op) && s' == State(s.w, PlanOf(s.w, pool, op))
  }

  predicate Proceeds(s: State, s': State) {
    s.todo.Then? && Enabled(s.w, s.todo.effect) && s' == State(Apply(s.w, s.todo.effect), s.todo.rest)
  }

  /** A failed call, a refused one, or the end of the process. */
  predicate Stops(s: State, s': State) {
    s' == State(s.w, Done)
  }

  ghost predicate Next(pool: string, s: State, s': State) {
    Begins(pool, s, s') || Proceeds(s, s') || Stops(s, s')
  }

  ghost predicate NextAt(pool: string, run: seq<State>, i: nat)
    requires i + 1 < |run|
  {
    Next(pool, run[i], run[i + 1])
  }

  ghost predicate IsRun(pool: string, run: seq<State>) {
    && run != [] && Inv(run[0].w) && run[0].todo.Done?
    && forall i :: 0 <= i < |run| - 1 ==> NextAt(pool, run, i)
  }

  /** Nothing at all is a sound starting point. */
  lemma EmptyWorldSound(remote: bool)
    ensures Inv(World(remote, map[], map[], map[], map[], map[], {}))
  {
  }

  /** What a call may still do to one volume. */
  datatype Need = Make | Use | Drop

  predicate Serves(e: Effect, need: Need, volume: string) {
    match need
    case Make => e.MakeVolume? && e.volume == volume
    case Use => e.AddDevice? && e.device.Source() == volume
    case Drop => e.DropVolume? && e.volume == volume
  }

  ghost predicate Will(w: World, plan: Plan, need: Need, volume: string)
    decreases plan
  {
    && plan.Then? && Enabled(w, plan.effect)
    && (Serves(plan.effect, need, volume) || Will(Apply(w, plan.effect), plan.rest, need, volume))
  }

  predicate Introduces(need: Need) { need == Make || need == Use }

  ghost predicate NeverWill(plan: Plan, need: Need, volume: string) {
    forall w :: !Will(w, plan, need, volume)
  }

  lemma ReplaceWill(w: World, pool: string, vm: string, instance: Instance, c: string, next: Plan, need: Need, volume: string)
    requires NeverWill(next, need, volume) && (need == Use ==> volume != c)
    requires need == Drop ==> (DISK_DEVICE_CONFIG in instance.devices ==> instance.devices[DISK_DEVICE_CONFIG].Source() != volume)
    ensures !Will(w, ReplaceConfig(pool, vm, instance, c, next), need, volume)
  {
    var attach := Then(AddDevice(vm, DISK_DEVICE_CONFIG, VolumeDisk(pool, c)), next);
    assert NeverWill(attach, need, volume);
    if DISK_DEVICE_CONFIG in instance.devices {
      var drop := Then(DropVolume(instance.devices[DISK_DEVICE_CONFIG].Source()), attach);
      assert NeverWill(drop, need, volume);
    }
  }

  /** Writing the settings brings no volume into being or into use whose UUID is already out. */
  lemma WriteWill(w0: World, w: World, pool: string, vm: string, env: AgentEnv, uuid: string, next: Plan, need: Need, volume: string)
    requires NeverWill(next, need, volume) && Introduces(need)
    requires Transient(volume) && UuidOf(volume) in w.used
    ensures !Will(w, WritePlan(w0, pool, vm, env, uuid, next), need, volume)
  {
    VolumeNames(uuid);
    if uuid !in w.used && vm in w0.instances {
      var w2 := Apply(Apply(w, TakeUuid(uuid)), PutFile(vm, env));
      var make := MakeVolume(ConfigName(uuid), w0.Home(w0.instances[vm].location), ConfigImage(env));
      ReplaceWill(Apply(w2, make), pool, vm, w0.instances[vm], ConfigName(uuid), next, need, volume);
      assert !Will(w2, WritePlan(w0, pool, vm, env, uuid, next).rest.rest, need, volume);
    }
    assert uuid !in w.used && vm !in w0.instances ==> !Will(Apply(Apply(w, TakeUuid(uuid)), PutFile(vm, env)), Then(Refuse, next), need, volume);
  }

  lemma {:induction false} DropDisksWill(w: World, devices: map<string, Device>, order: seq<string>, next: Plan, need: Need, volume: string)
    requires NeverWill(next, need, volume)
    requires need == Drop ==> forall n :: n in devices ==> devices[n].Source() != volume
    ensures !Will(w, DropDisks(devices, order, next), need, volume)
    decreases order
  {
    if order != [] {
      var plan := DropDisks(devices, order, next);
      var w1 := if order[0] in devices && Disposable(order[0]) then Apply(w, plan.effect) else w;
      DropDisksWill(w1, devices, order[1..], next, need, volume);
    }
  }

  lemma {:induction false} SweepWill(w: World, chosen: seq<string>, need: Need, volume: string)
    requires need == Drop ==> volume !in chosen
    ensures !Will(w, SweepPlan(chosen), need, volume)
    decreases chosen
  {
    if chosen != [] { SweepWill(Apply(w, DropVolume(chosen[0])), chosen[1..], need, volume); }
  }

  /** Deleting a VM deletes only what its devices use. */
  lemma DeleteWill(w: World, vm: string, order: seq<string>, need: Need, volume: string)
    requires need == Drop ==> !w.UsedBy(vm, volume)
    ensures !Will(w, DeletePlan(w, vm, order), need, volume)
  {
    var dropFile := Then(DropFile(vm), Done);
    assert NeverWill(dropFile, need, volume);
    if vm in w.instances {
      var devices := DisksOf(w.instances[vm].devices);
      var disks := DropDisks(devices, order, dropFile);
      forall w1 ensures !Will(w1, disks, need, volume) { DropDisksWill(w1, devices, order, dropFile, need, volume); }
      var teardown := Then(DropInstance(vm), disks);
      assert NeverWill(teardown, need, volume);
    }
  }

  lemma UploadWill(w: World, alias: string, fingerprint: string, text: string, predeploy: Option<(string, Instance)>, need: Need, volume: string)
    ensures !Will(w, UploadPlan(alias, fingerprint, text, predeploy), need, volume)
  {
    var tail := UploadPlan(alias, fingerprint, text, predeploy).rest.rest;
    if predeploy.Some? {
      assert NeverWill(tail.rest, need, volume);
      assert NeverWill(tail, need, volume);
    }
    assert NeverWill(Then(MakeAlias(alias, fingerprint), tail), need, volume);
  }

  /** Colocation itself makes, attaches and deletes no volume. */
  lemma ColocateWill(w: World, vm: string, disk: string, next: Plan, need: Need, volume: string)
    requires forall w1: World | w1.used == w.used :: !Will(w1, next, need, volume)
    ensures !Will(w, ColocatePlan(w, vm, disk, next), need, volume)
  {
    if vm in w.instances && w.Unique(disk) {
      var copy := CopyVolume(disk, LocationOf(w, disk), w.instances[vm].location);
      var drop := DropCopy(disk, LocationOf(w, disk));
      assert Apply(Apply(w, copy), drop).used == w.used;
      assert !Will(Apply(w, copy), Then(drop, next), need, volume);
    }
  }

  lemma AttachWill(w: World, pool: string, vm: string, disk: string, uuid: string, need: Need, volume: string)
    requires ClassOf(disk) == PersistentVolume && Transient(volume) && UuidOf(volume) in w.used && Introduces(need)
    ensures !Will(w, AttachPlan(w, pool, vm, disk, uuid), need, volume)
  {
    if vm in w.files && FreeSlot(w.files[vm]).Some? && vm in w.instances && w.Unique(disk) {
      var (path, name) := FreeSlot(w.files[vm]).value;
      var env := w.files[vm].(persistent := w.files[vm].persistent[disk := path]);
      var attach := AddDevice(vm, name, VolumeDisk(pool, disk));
      var write := WritePlan(Apply(w, attach), pool, vm, env, uuid, Done);
      forall w1: World | w1.used == w.used ensures !Will(w1, Then(attach, write), need, volume) {
        WriteWill(Apply(w, attach), Apply(w1, attach), pool, vm, env, uuid, Done, need, volume);
      }
      ColocateWill(w, vm, disk, Then(attach, write), need, volume);
    }
  }

  lemma DetachWill(w: World, pool: string, vm: string, disk: string, pick: string, uuid: string, need: Need, volume: string)
    requires Transient(volume) && UuidOf(volume) in w.used && Introduces(need)
    ensures !Will(w, DetachPlan(w, pool, vm, disk, pick, uuid), need, volume)
  {
    if vm in w.instances && vm in w.files {
      var w1 := if pick == "" then w else Apply(w, RemoveDevice(vm, pick));
      var env := w.files[vm].(persistent := w.files[vm].persistent - {disk});
      WriteWill(w1, w1, pool, vm, env, uuid, Done, need, volume);
    }
  }

  lemma StartWill(w0: World, w: World, pool: string, launch: Launch, need: Need, volume: string)
    requires Transient(volume) && UuidOf(volume) in w.used && Introduces(need)
    ensures !Will(w, StartPlan(w0, pool, launch), need, volume)
  {
    var next := if IsStarted(launch.instance.status) then Done else Then(SetStatus(launch.Vm(), Running), Done);
    assert NeverWill(next, need, volume);
    WriteWill(WithInstance(w0, launch), w, pool, launch.Vm(), launch.FinalEnv(), launch.configUuid, next, need, volume);
  }

  lemma EphemeralWill(w0: World, w: World, pool: string, launch: Launch, need: Need, volume: string)
    requires Transient(volume) && UuidOf(volume) in w.used && Introduces(need)
    ensures !Will(w, EphemeralPlan(w0, pool, launch, StartPlan(w0, pool, launch)), need, volume)
  {
    VolumeNames(launch.ephemeralUuid);
    var start := StartPlan(w0, pool, launch);
    if !launch.WantsEphemeral() {
      StartWill(w0, w, pool, launch, need, volume);
    } else if launch.ephemeralUuid !in w.used {
      var attach := AddDevice(launch.Vm(), DISK_DEVICE_EPHEMERAL, VolumeDisk(pool, launch.Ephemeral()));
      var make := MakeVolume(launch.Ephemeral(), w0.Home(launch.instance.location), Block(launch.ephemeralMB, ""));
      var w2 := Apply(Apply(w, TakeUuid(launch.ephemeralUuid)), make);
      StartWill(w0, Apply(w2, attach), pool, launch, need, volume);
      assert !Will(w2, Then(attach, start), need, volume);
    }
  }

  lemma CreateWill(w: World, pool: string, launch: Launch, need: Need, volume: string)
    requires Transient(volume) && UuidOf(volume) in w.used && Introduces(need)
    ensures !Will(w, CreatePlan(w, pool, launch), need, volume)
  {
    var w1 := Apply(w, TakeUuid(launch.vmUuid));
    EphemeralWill(w, Apply(w1, MakeInstance(launch.Vm(), launch.instance)), pool, launch, need, volume);
    assert !Will(w1, CreatePlan(w, pool, launch).rest, need, volume);
  }

  /** No call brings into being, or into use, a transient volume whose UUID is already out. */
  lemma OpIntroducesFresh(w: World, pool: string, op: Op, need: Need, volume: string)
    requires ValidOp(w, op) && Introduces(need) && Transient(volume) && UuidOf(volume) in w.used
    ensures !Will(w, PlanOf(w, pool, op), need, volume)
  {
    match op
    case CreateVM(launch) => CreateWill(w, pool, launch, need, volume);
    case DeleteVM(vm, order) => DeleteWill(w, vm, order, need, volume);
    case AttachDisk(vm, disk, uuid) => AttachWill(w, pool, vm, disk, uuid, need, volume);
    case DetachDisk(vm, disk, pick, uuid) => DetachWill(w, pool, vm, disk, pick, uuid, need, volume);
    case CreateDisk(vm, size, uuid) =>
      VolumeNames(uuid);
      assert !Will(Apply(w, TakeUuid(uuid)), CreateDiskPlan(w, vm, size, uuid).rest, need, volume);
    case Sweep(chosen) => SweepWill(w, chosen, need, volume);
    case CreateStemcell(uuid, existing, fingerprint, text, predeploy) =>
      UploadWill(Apply(w, TakeUuid(uuid)), "img-" + uuid, fingerprint, text, predeploy, need, volume);
    case SnapshotDisk(disk, uuid) =>
      assert !Will(Apply(w, TakeUuid(uuid)), PlanOf(w, pool, op).rest, need, volume);
    case DeleteStemcell(alias, predeployed) =>
      assert predeployed in w.instances ==> !Will(Apply(w, DropInstance(predeployed)), PlanOf(w, pool, op).rest, need, volume);
    case _ =>
  }

  // ---- within one call

  /** A call makes a volume at most once and attaches a transient volume at most once. */
  ghost predicate Tidy(w: World, plan: Plan)
    decreases plan
  {
    plan.Then? && Enabled(w, plan.effect) ==>
      var w1 := Apply(w, plan.effect);
      && (plan.effect.MakeVolume? && Transient(plan.effect.volume) ==> !Will(w1, plan.rest, Make, plan.effect.volume))
      && (plan.effect.AddDevice? && Transient(plan.effect.device.Source()) ==> !Will(w1, plan.rest, Use, plan.effect.device.Source()))
      && Tidy(w1, plan.rest)
  }

  ghost predicate AlwaysTidy(plan: Plan) {
    forall w :: Tidy(w, plan)
  }

  lemma ReplaceTidy(w: World, pool: string, vm: string, instance: Instance, c: string, next: Plan)
    requires AlwaysTidy(next) && (forall need, volume :: NeverWill(next, need, volume))
    ensures Tidy(w, ReplaceConfig(pool, vm, instance, c, next))
  {
    var attach := Then(AddDevice(vm, DISK_DEVICE_CONFIG, VolumeDisk(pool, c)), next);
    assert AlwaysTidy(attach) by {
      assert NeverWill(next, Use, c);
    }
    if DISK_DEVICE_CONFIG in instance.devices {
      assert AlwaysTidy(Then(DropVolume(instance.devices[DISK_DEVICE_CONFIG].Source()), attach));
    }
  }

  lemma WriteTidy(w0: World, w: World, pool: string, vm: string, env: AgentEnv, uuid: string, next: Plan)
    requires AlwaysTidy(next) && (forall need, volume :: NeverWill(next, need, volume))
    ensures Tidy(w, WritePlan(w0, pool, vm, env, uuid, next))
  {
    var w2 := Apply(Apply(w, TakeUuid(uuid)), PutFile(vm, env));
    var plan := WritePlan(w0, pool, vm, env, uuid, next);
    if vm in w0.instances {
      var c := ConfigName(uuid);
      var w3 := Apply(w2, plan.rest.rest.effect);
      assert NeverWill(next, Make, c);
      ReplaceWill(w3, pool, vm, w0.instances[vm], c, next, Make, c);
      ReplaceTidy(w3, pool, vm, w0.instances[vm], c, next);
    }
    assert Tidy(w2, plan.rest.rest);
    assert Tidy(Apply(w, TakeUuid(uuid)), plan.rest);
  }

  /** A plan that makes and attaches nothing is tidy. */
  lemma {:induction false} DropDisksTidy(w: World, devices: map<string, Device>, order: seq<string>, next: Plan)
    requires AlwaysTidy(next)
    ensures Tidy(w, DropDisks(devices, order, next))
    decreases order
  {
    if order != [] {
      var plan := DropDisks(devices, order, next);
      var w1 := if order[0] in devices && Disposable(order[0]) then Apply(w, plan.effect) else w;
      DropDisksTidy(w1, devices, order[1..], next);
    }
  }

  lemma {:induction false} SweepTidy(w: World, chosen: seq<string>)
    ensures Tidy(w, SweepPlan(chosen))
    decreases chosen
  {
    if chosen != [] { SweepTidy(Apply(w, DropVolume(chosen[0])), chosen[1..]); }
  }

  lemma DeleteTidy(w: World, vm: string, order: seq<string>)
    ensures Tidy(w, DeletePlan(w, vm, order))
  {
    var dropFile := Then(DropFile(vm), Done);
    assert AlwaysTidy(dropFile);
    if vm in w.instances {
      var devices := DisksOf(w.instances[vm].devices);
      var disks := DropDisks(devices, order, dropFile);
      forall w1 ensures Tidy(w1, disks) { DropDisksTidy(w1, devices, order, dropFile); }
      assert AlwaysTidy(Then(DropInstance(vm), disks));
    }
  }

  lemma UploadTidy(w: World, alias: string, fingerprint: string, text: string, predeploy: Option<(string, Instance)>)
    ensures Tidy(w, UploadPlan(alias, fingerprint, text, predeploy))
  {
    var tail := UploadPlan(alias, fingerprint, text, predeploy).rest.rest;
    if predeploy.Some? {
      assert AlwaysTidy(tail.rest);
      assert AlwaysTidy(tail);
    }
    assert AlwaysTidy(Then(MakeAlias(alias, fingerprint), tail));
  }

  lemma AttachTidy(w: World, pool: string, vm: string, disk: string, uuid: string)
    requires ClassOf(disk) == PersistentVolume
    ensures Tidy(w, AttachPlan(w, pool, vm, disk, uuid))
  {
    if vm in w.files && FreeSlot(w.files[vm]).Some? && vm in w.instances && w.Unique(disk) {
      var (path, name) := FreeSlot(w.files[vm]).value;
      var env := w.files[vm].(persistent := w.files[vm].persistent[disk := path]);
      var attach := AddDevice(vm, name, VolumeDisk(pool, disk));
      var tail := Then(attach, WritePlan(Apply(w, attach), pool, vm, env, uuid, Done));
      forall w1 ensures Tidy(w1, tail) {
        WriteTidy(Apply(w, attach), Apply(w1, attach), pool, vm, env, uuid, Done);
      }
      assert AlwaysTidy(Then(DropCopy(disk, LocationOf(w, disk)), tail));
    }
  }

  lemma CreateTidy(w: World, pool: string, launch: Launch)
    ensures Tidy(w, CreatePlan(w, pool, launch))
  {
    var vm := launch.Vm();
    var next := if IsStarted(launch.instance.status) then Done else Then(SetStatus(vm, Running), Done);
    forall need, volume ensures NeverWill(next, need, volume) {
      assert NeverWill(Done, need, volume);
    }
    assert AlwaysTidy(next);
    var start := StartPlan(w, pool, launch);
    forall w1 ensures Tidy(w1, start) {
      WriteTidy(WithInstance(w, launch), w1, pool, vm, launch.FinalEnv(), launch.configUuid, next);
    }
    forall w1 ensures Tidy(w1, EphemeralPlan(w, pool, launch, start)) { EphemeralTidy(w, w1, pool, launch); }
    assert AlwaysTidy(Then(MakeInstance(vm, launch.instance), EphemeralPlan(w, pool, launch, start)));
  }

  lemma EphemeralTidy(w0: World, w: World, pool: string, launch: Launch)
    requires AlwaysTidy(StartPlan(w0, pool, launch))
    ensures Tidy(w, EphemeralPlan(w0, pool, launch, StartPlan(w0, pool, launch)))
  {
    var start := StartPlan(w0, pool, launch);
    var take := TakeUuid(launch.ephemeralUuid);
    if launch.WantsEphemeral() && Enabled(w, take) {
      VolumeNames(launch.ephemeralUuid);
      var name := launch.Ephemeral();
      var attach := AddDevice(launch.Vm(), DISK_DEVICE_EPHEMERAL, VolumeDisk(pool, name));
      var make := MakeVolume(name, w0.Home(launch.instance.location), Block(launch.ephemeralMB, ""));
      var w1 := Apply(w, take);
      var w2 := Apply(w1, make);
      StartWill(w0, Apply(w2, attach), pool, launch, Make, name);
      StartWill(w0, Apply(w2, attach), pool, launch, Use, name);
      assert Tidy(w2, Then(attach, start));
      assert !Will(w2, Then(attach, start), Make, name);
      assert Tidy(w1, Then(make, Then(attach, start)));
    }
  }

  lemma OpTidy(w: World, pool: string, op: Op)
    requires ValidOp(w, op)
    ensures Tidy(w, PlanOf(w, pool, op))
  {
    match op
    case CreateVM(launch) => CreateTidy(w, pool, launch);
    case DeleteVM(vm, order) => DeleteTidy(w, vm, order);
    case AttachDisk(vm, disk, uuid) => AttachTidy(w, pool, vm, disk, uuid);
    case DetachDisk(vm, disk, pick, uuid) =>
      if vm in w.instances {
        var w1 := if pick == "" then w else Apply(w, RemoveDevice(vm, pick));
        if vm in w.files {
          var env := w.files[vm].(persistent := w.files[vm].persistent - {disk});
          WriteTidy(w1, w1, pool, vm, env, uuid, Done);
        }
      }
    case CreateDisk(vm, size, uuid) =>
      assert Tidy(Apply(w, TakeUuid(uuid)), CreateDiskPlan(w, vm, size, uuid).rest);
    case Sweep(chosen) => SweepTidy(w, chosen);
    case CreateStemcell(uuid, existing, fingerprint, text, predeploy) =>
      UploadTidy(Apply(w, TakeUuid(uuid)), "img-" + uuid, fingerprint, text, predeploy);
    case _ =>
  }

  // ---- runs

  /** What holds in every state of every run, in the middle of calls too. */
  ghost predicate Sound(s: State) {
    && Inv(s.w) && AllLawful(s.w, s.todo) && Tidy(s.w, s.todo)
    && (forall c :: Transient(c) && s.w.Attached(c) ==> !Will(s.w, s.todo, Use, c))
    && (forall c :: Transient(c) && c in s.w.volumes ==> !Will(s.w, s.todo, Make, c))
  }

  lemma AttachedIssued(w: World, volume: string)
    requires Inv(w) && w.Attached(volume) && ClassOf(volume) != ForeignVolume
    ensures volume in w.volumes && UuidOf(volume) in w.used
  {
    InUseExists(w, volume);
  }

  lemma BeginSound(pool: string, s: State, s': State)
    requires Sound(s) && Begins(pool, s, s')
    ensures Sound(s')
  {
    var op :| ValidOp(s.w, op) && s' == State(s.w, PlanOf(s.w, pool, op));
    OpLawful(s.w, pool, op);
    OpTidy(s.w, pool, op);
    forall c | Transient(c) && (s.w.Attached(c) || c in s.w.volumes)
      ensures !Will(s.w, s'.todo, Use, c) && !Will(s.w, s'.todo, Make, c)
    {
      InUseExists(s.w, c);
      OpIntroducesFresh(s.w, pool, op, Use, c);
      OpIntroducesFresh(s.w, pool, op, Make, c);
    }
  }

  lemma ProceedSound(s: State, s': State)
    requires Sound(s) && Proceeds(s, s')
    ensures Sound(s')
  {
    var e := s.todo.effect;
    StepKeepsInv(s.w, e);
    forall c | Transient(c) && s'.w.Attached(c)
      ensures !Will(s'.w, s'.todo, Use, c)
    {
      assert c != "";
      InUseBefore(s.w, e, c);
    }
    forall c | Transient(c) && c in s'.w.volumes
      ensures !Will(s'.w, s'.todo, Make, c)
    {
      assert c in s.w.volumes || (e.MakeVolume? && e.volume == c);
    }
  }

  /** In every reachable state, with any call failing anywhere: no device with a dangling source,
      and no transient volume behind two devices. */
  lemma {:induction false} EveryStateSound(pool: string, run: seq<State>, i: nat)
    requires IsRun(pool, run) && i < |run|
    ensures Sound(run[i])
    ensures SourcesExist(run[i].w) && SingleUse(run[i].w)
  {
    if i > 0 {
      EveryStateSound(pool, run, i - 1);
      var s, s' := run[i - 1], run[i];
      assert NextAt(pool, run, i - 1);
      if Begins(pool, s, s') { BeginSound(pool, s, s'); }
      else if Proceeds(s, s') { ProceedSound(s, s'); }
    }
  }

  /** The volume is out, and nothing in flight will make it or attach it (again). */
  ghost predicate Sealed(s: State, need: Need, volume: string) {
    UuidOf(volume) in s.w.used && !Will(s.w, s.todo, need, volume)
  }

  lemma StaysSealed(pool: string, s: State, s': State, need: Need, volume: string)
    requires Next(pool, s, s') && Introduces(need) && Transient(volume) && Sealed(s, need, volume)
    ensures Sealed(s', need, volume)
  {
    if Begins(pool, s, s') {
      var op :| ValidOp(s.w, op) && s' == State(s.w, PlanOf(s.w, pool, op));
      OpIntroducesFresh(s.w, pool, op, need, volume);
    } else if Proceeds(s, s') {
      UsedGrows(s.w, s.todo.effect);
    }
  }

  lemma UsedGrows(w: World, e: Effect)
    ensures w.used <= Apply(w, e).used
  {
  }

  /** Sealed for good: UUIDs are never drawn twice. */
  lemma {:induction false} SealedForGood(pool: string, run: seq<State>, i: nat, j: nat, need: Need, volume: string)
    requires IsRun(pool, run) && i <= j < |run|
    requires Introduces(need) && Transient(volume) && Sealed(run[i], need, volume)
    ensures Sealed(run[j], need, volume)
    decreases j
  {
    if i < j {
      SealedForGood(pool, run, i, j - 1, need, volume);
      assert NextAt(pool, run, j - 1);
      StaysSealed(pool, run[j - 1], run[j], need, volume);
    }
  }

  lemma {:induction false} UsersShrink(pool: string, run: seq<State>, i: nat, j: nat, vm: string, c: string)
    requires IsRun(pool, run) && i <= j < |run| && Transient(c)
    requires Sealed(run[i], Use, c) && run[j].w.UsedBy(vm, c)
    ensures run[i].w.UsedBy(vm, c)
    decreases j
  {
    if i < j {
      UserOneStepBack(pool, run, i, j, vm, c);
      UsersShrink(pool, run, i, j - 1, vm, c);
    }
  }

  lemma UserOneStepBack(pool: string, run: seq<State>, i: nat, j: nat, vm: string, c: string)
    requires IsRun(pool, run) && i < j < |run| && Transient(c)
    requires Sealed(run[i], Use, c) && run[j].w.UsedBy(vm, c)
    ensures run[j - 1].w.UsedBy(vm, c)
  {
    SealedForGood(pool, run, i, j - 1, Use, c);
    EveryStateSound(pool, run, j - 1);
    assert NextAt(pool, run, j - 1);
    UserStepsBack(pool, run[j - 1], run[j], vm, c);
  }

  lemma UserStepsBack(pool: string, s: State, s': State, vm: string, c: string)
    requires Sound(s) && Next(pool, s, s') && Transient(c) && !Will(s.w, s.todo, Use, c) && s'.w.UsedBy(vm, c)
    ensures s.w.UsedBy(vm, c)
  {
    if Proceeds(s, s') { UserBefore(s.w, s.todo.effect, vm, c); }
  }

  /** An attached transient volume is sealed: it is never attached a second time. */
  lemma AttachedIsSealed(s: State, c: string)
    requires Sound(s) && Transient(c) && s.w.Attached(c)
    ensures Sealed(s, Use, c)
  {
    AttachedIssued(s.w, c);
  }

  /** Once detached, a configuration or ephemeral volume is never attached again. */
  lemma NeverReattached(pool: string, run: seq<State>, i: nat, j: nat, k: nat, c: string)
    requires IsRun(pool, run) && i <= j <= k < |run| && Transient(c)
    requires run[i].w.Attached(c) && !run[j].w.Attached(c)
    ensures !run[k].w.Attached(c)
  {
    EveryStateSound(pool, run, i);
    AttachedIsSealed(run[i], c);
    SealedForGood(pool, run, i, j, Use, c);
    forall vm ensures !run[k].w.UsedBy(vm, c) {
      if run[k].w.UsedBy(vm, c) { UsersShrink(pool, run, j, k, vm, c); }
    }
  }

  /** A configuration or ephemeral volume serves one VM in its whole life. */
  lemma OneOwnerForLife(pool: string, run: seq<State>, i: nat, j: nat, vm1: string, vm2: string, c: string)
    requires IsRun(pool, run) && i <= j < |run| && Transient(c)
    requires run[i].w.UsedBy(vm1, c) && run[j].w.UsedBy(vm2, c)
    ensures vm1 == vm2
  {
    EveryStateSound(pool, run, i);
    AttachedIsSealed(run[i], c);
    UsersShrink(pool, run, i, j, vm2, c);
    var w := run[i].w;
    var d1 :| d1 in w.instances[vm1].devices && w.instances[vm1].devices[d1].Source() == c;
    var d2 :| d2 in w.instances[vm2].devices && w.instances[vm2].devices[d2].Source() == c;
    assert w.HasDevice(vm1, d1) && w.HasDevice(vm2, d2);
  }

  /** Once deleted, a configuration or ephemeral volume never comes back. */
  lemma {:induction false} NeverRecreated(pool: string, run: seq<State>, i: nat, j: nat, k: nat, c: string)
    requires IsRun(pool, run) && i <= j <= k < |run| && Transient(c)
    requires c in run[i].w.volumes && c !in run[j].w.volumes
    ensures c !in run[k].w.volumes
    decreases k
  {
    if j < k {
      NeverRecreated(pool, run, i, j, k - 1, c);
      EveryStateSound(pool, run, i);
      assert Sealed(run[i], Make, c);
      SealedForGood(pool, run, i, k - 1, Make, c);
      EveryStateSound(pool, run, k - 1);
      assert NextAt(pool, run, k - 1);
      if Proceeds(run[k - 1], run[k]) && c in run[k].w.volumes { VolumeBefore(run[k - 1].w, run[k - 1].todo.effect, c); }
    }
  }

  /** Only `MakeVolume` brings a name into being. */
  lemma VolumeBefore(w: World, e: Effect, c: string)
    requires Enabled(w, e) && c in Apply(w, e).volumes
    ensures c in w.volumes || (e.MakeVolume? && e.volume == c)
  {
    if e.DropCopy? || e.AddSnapshot? || e.DropSnapshot? || e.CopyVolume? {
      assert e.volume in w.volumes;
    }
  }

  /** A call deletes an ephemeral volume only when one of its VM's devices uses it. */
  lemma OpDropsUsed(w: World, pool: string, op: Op, volume: string)
    requires Inv(w) && ValidOp(w, op) && ClassOf(volume) == EphemeralVolume && !w.Attached(volume)
    ensures !Will(w, PlanOf(w, pool, op), Drop, volume)
  {
    match op
    case CreateVM(launch) => CreateDrops(w, pool, launch, volume);
    case DeleteVM(vm, order) => DeleteWill(w, vm, order, Drop, volume);
    case AttachDisk(vm, disk, uuid) => AttachDrops(w, pool, vm, disk, uuid, volume);
    case DetachDisk(vm, disk, pick, uuid) => DetachDrops(w, pool, vm, disk, pick, uuid, volume);
    case CreateDisk(vm, size, uuid) =>
      assert !Will(Apply(w, TakeUuid(uuid)), CreateDiskPlan(w, vm, size, uuid).rest, Drop, volume);
    case Sweep(chosen) => SweepWill(w, chosen, Drop, volume);
    case CreateStemcell(uuid, existing, fingerprint, text, predeploy) =>
      UploadWill(Apply(w, TakeUuid(uuid)), "img-" + uuid, fingerprint, text, predeploy, Drop, volume);
    case SnapshotDisk(disk, uuid) =>
      assert !Will(Apply(w, TakeUuid(uuid)), PlanOf(w, pool, op).rest, Drop, volume);
    case DeleteStemcell(alias, predeployed) =>
      assert predeployed in w.instances ==> !Will(Apply(w, DropInstance(predeployed)), PlanOf(w, pool, op).rest, Drop, volume);
    case _ =>
  }

  /** Rewriting the settings deletes at most the previous configuration volume. */
  lemma WriteDrops(w0: World, w: World, pool: string, vm: string, env: AgentEnv, uuid: string, next: Plan, volume: string)
    requires NeverWill(next, Drop, volume)
    requires w0.HasDevice(vm, DISK_DEVICE_CONFIG) ==> w0.instances[vm].devices[DISK_DEVICE_CONFIG].Source() != volume
    ensures !Will(w, WritePlan(w0, pool, vm, env, uuid, next), Drop, volume)
  {
    var plan := WritePlan(w0, pool, vm, env, uuid, next);
    var w1 := Apply(w, TakeUuid(uuid));
    var w2 := Apply(w1, PutFile(vm, env));
    if vm in w0.instances {
      ReplaceWill(Apply(w2, plan.rest.rest.effect), pool, vm, w0.instances[vm], ConfigName(uuid), next, Drop, volume);
    }
    assert !Will(w2, plan.rest.rest, Drop, volume);
    assert !Will(w1, plan.rest, Drop, volume);
  }

  lemma ConfigIsNot(w: World, vm: string, volume: string)
    requires Inv(w) && ClassOf(volume) == EphemeralVolume && w.HasDevice(vm, DISK_DEVICE_CONFIG)
    ensures w.instances[vm].devices[DISK_DEVICE_CONFIG].Source() != volume
  {
    DeviceNamesDistinct();
  }

  lemma CreateDrops(w: World, pool: string, launch: Launch, volume: string)
    requires FreshInstance(launch.instance)
    ensures !Will(w, CreatePlan(w, pool, launch), Drop, volume)
  {
    var next := if IsStarted(launch.instance.status) then Done else Then(SetStatus(launch.Vm(), Running), Done);
    assert NeverWill(Done, Drop, volume);
    assert NeverWill(next, Drop, volume);
    var start := StartPlan(w, pool, launch);
    forall w1 ensures !Will(w1, start, Drop, volume) {
      WriteDrops(WithInstance(w, launch), w1, pool, launch.Vm(), launch.FinalEnv(), launch.configUuid, next, volume);
    }
    if launch.WantsEphemeral() {
      var plan := EphemeralPlan(w, pool, launch, start);
      assert NeverWill(plan.rest.rest, Drop, volume);
      assert NeverWill(plan.rest, Drop, volume);
    }
    assert NeverWill(EphemeralPlan(w, pool, launch, start), Drop, volume);
    assert NeverWill(CreatePlan(w, pool, launch).rest, Drop, volume);
  }

  lemma AttachTailDrops(w: World, w1: World, vm: string, attach: Effect, pool: string, env: AgentEnv, uuid: string, volume: string)
    requires Inv(w) && ClassOf(volume) == EphemeralVolume && attach.AddDevice?
    requires attach.name == DISK_DEVICE_PERSISTENT1 || attach.name == DISK_DEVICE_PERSISTENT2
    ensures !Will(w1, Then(attach, WritePlan(Apply(w, attach), pool, vm, env, uuid, Done)), Drop, volume)
  {
    DeviceNamesDistinct();
    if w.HasDevice(vm, DISK_DEVICE_CONFIG) { ConfigIsNot(w, vm, volume); }
    WriteDrops(Apply(w, attach), Apply(w1, attach), pool, vm, env, uuid, Done, volume);
  }

  lemma AttachDrops(w: World, pool: string, vm: string, disk: string, uuid: string, volume: string)
    requires Inv(w) && ClassOf(volume) == EphemeralVolume
    ensures !Will(w, AttachPlan(w, pool, vm, disk, uuid), Drop, volume)
  {
    if vm in w.files && FreeSlot(w.files[vm]).Some? && vm in w.instances && w.Unique(disk) {
      var (path, name) := FreeSlot(w.files[vm]).value;
      var env := w.files[vm].(persistent := w.files[vm].persistent[disk := path]);
      var attach := AddDevice(vm, name, VolumeDisk(pool, disk));
      var tail := Then(attach, WritePlan(Apply(w, attach), pool, vm, env, uuid, Done));
      forall w1 ensures !Will(w1, tail, Drop, volume) {
        AttachTailDrops(w, w1, vm, attach, pool, env, uuid, volume);
      }
      ColocateWill(w, vm, disk, tail, Drop, volume);
    }
  }

  lemma DetachDrops(w: World, pool: string, vm: string, disk: string, pick: string, uuid: string, volume: string)
    requires Inv(w) && ClassOf(volume) == EphemeralVolume
    ensures !Will(w, DetachPlan(w, pool, vm, disk, pick, uuid), Drop, volume)
  {
    if vm in w.instances && vm in w.files {
      var w1 := if pick == "" then w else Apply(w, RemoveDevice(vm, pick));
      var env := w.files[vm].(persistent := w.files[vm].persistent - {disk});
      if w.HasDevice(vm, DISK_DEVICE_CONFIG) { ConfigIsNot(w, vm, volume); }
      WriteDrops(w1, w1, pool, vm, env, uuid, Done, volume);
    }
  }

  lemma LeakStays(s: State, s': State, volume: string)
    requires Sound(s) && Proceeds(s, s') && ClassOf(volume) == EphemeralVolume
    requires volume in s.w.volumes && !s.w.Attached(volume) && !Will(s.w, s.todo, Drop, volume) && !Will(s.w, s.todo, Use, volume)
    ensures volume in s'.w.volumes && !s'.w.Attached(volume) && !Will(s'.w, s'.todo, Drop, volume)
  {
    InUseBefore(s.w, s.todo.effect, volume);
  }

  /** An ephemeral volume left without a device, once no call is in flight, stays for ever: no
      later call of the CPI and no cleanup removes it, and nothing attaches it. */
  lemma {:induction false} LeakIsPermanent(pool: string, run: seq<State>, i: nat, volume: string)
    requires IsRun(pool, run) && i < |run| && ClassOf(volume) == EphemeralVolume
    requires volume in run[0].w.volumes && !run[0].w.Attached(volume)
    ensures volume in run[i].w.volumes && !run[i].w.Attached(volume)
    ensures !Will(run[i].w, run[i].todo, Drop, volume)
  {
    if i > 0 {
      LeakIsPermanent(pool, run, i - 1, volume);
      var s, s' := run[i - 1], run[i];
      assert NextAt(pool, run, i - 1);
      EveryStateSound(pool, run, i - 1);
      if Begins(pool, s, s') {
        var op :| ValidOp(s.w, op) && s' == State(s.w, PlanOf(s.w, pool, op));
        OpDropsUsed(s.w, pool, op, volume);
      } else if Proceeds(s, s') {
        assert Sealed(run[0], Use, volume);
        SealedForGood(pool, run, 0, i - 1, Use, volume);
        LeakStays(s, s', volume);
      }
    }
  }

  /** An ephemeral volume that attempts to delete its VM have stranded is such a volume. */
  lemma StrandedLeakStays(pool: string, vm: string, states: seq<World>, run: seq<State>, i: nat, volume: string)
    requires Attempts(vm, states) && Inv(states[0]) && volume in DisposableSources(states[0], vm) && ClassOf(volume) == EphemeralVolume
    requires vm !in states[|states| - 1].instances && volume in states[|states| - 1].volumes
    requires IsRun(pool, run) && run[0].w == states[|states| - 1] && i < |run|
    ensures volume in run[i].w.volumes && !run[i].w.Attached(volume)
  {
    AttemptsErode(vm, states, |states| - 1);
    UnusedAfterDrop(states[0], run[0].w, vm, volume);
    LeakIsPermanent(pool, run, i, volume);
  }
}
