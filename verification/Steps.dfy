/** How runs of plans are put together from single requests and from parts of plans. */
module Steps {
  import opened Names
  import opened World
  import opened Plans
  import opened SystemRuns
  import opened Stemcells
  import opened Adapter

  /** After one request the plan stands where it stood, or one step further. */
  lemma Carried(w0: World, plan: Plan, w1: World, todo: Plan, w2: World, ok: bool)
    requires Runs(w0, plan, w1, todo) && todo.Then? && AllOrNothing(w1, todo.effect, w2, ok)
    ensures Runs(w0, plan, w2, if ok then todo.rest else todo)
  {
    if ok { Advance(w0, plan, w1, todo.effect, todo.rest); }
  }

  lemma {:induction false} DropDisksAndThen(devices: map<string, Device>, order: seq<string>, next: Plan)
    ensures DropDisks(devices, order, next) == AndThen(DropDisks(devices, order, Done), next)
    decreases order
  {
    if order != [] { DropDisksAndThen(devices, order[1..], next); }
  }

  lemma ThenAndThen(e: Effect, rest: Plan, next: Plan)
    ensures AndThen(Then(e, rest), next) == Then(e, AndThen(rest, next)) && AndThen(Done, next) == next
  {
  }

  lemma ReplaceAndThen(pool: string, vm: string, instance: Instance, volume: string, next: Plan)
    ensures ReplaceConfig(pool, vm, instance, volume, next) == AndThen(ReplaceConfig(pool, vm, instance, volume, Done), next)
  {
    var attach := AddDevice(vm, DISK_DEVICE_CONFIG, VolumeDisk(pool, volume));
    ThenAndThen(attach, Done, next);
    if DISK_DEVICE_CONFIG in instance.devices {
      var drop := DropVolume(instance.devices[DISK_DEVICE_CONFIG].Source());
      ThenAndThen(drop, Then(attach, Done), next);
      ThenAndThen(RemoveDevice(vm, DISK_DEVICE_CONFIG), Then(drop, Then(attach, Done)), next);
      ThenAndThen(RemoveDevice(vm, DISK_DEVICE_CONFIG), Then(attach, Done), next);
    }
  }

  lemma WriteAndThen(w: World, pool: string, vm: string, env: AgentEnv, uuid: string, next: Plan)
    ensures WritePlan(w, pool, vm, env, uuid, next) == AndThen(WritePlan(w, pool, vm, env, uuid, Done), next)
  {
    var plan := WritePlan(w, pool, vm, env, uuid, Done);
    ThenAndThen(plan.effect, plan.rest, next);
    ThenAndThen(plan.rest.effect, plan.rest.rest, next);
    ThenAndThen(plan.rest.rest.effect, plan.rest.rest.rest, next);
    if vm in w.instances { ReplaceAndThen(pool, vm, w.instances[vm], ConfigName(uuid), next); }
  }

  lemma ColocateAndThen(w: World, vm: string, volume: string, next: Plan)
    ensures ColocatePlan(w, vm, volume, next) == AndThen(ColocatePlan(w, vm, volume, Done), next)
  {
    var plan := ColocatePlan(w, vm, volume, Done);
    if plan.Then? {
      ThenAndThen(plan.effect, plan.rest, next);
      if plan.rest.Then? { ThenAndThen(plan.rest.effect, plan.rest.rest, next); }
    }
  }

  /** Instances stay what and where they are; only their devices change. */
  predicate InstancesKept(w: World, w': World) {
    && w'.remotePool == w.remotePool && w'.instances.Keys == w.instances.Keys
    && (forall vm :: vm in w.instances ==> w'.instances[vm].status == w.instances[vm].status && w'.instances[vm].location == w.instances[vm].location)
  }

  /** No instance comes, goes, or changes its state. */
  predicate Quiet(plan: Plan) {
    plan.Then? ==> QuietEffect(plan.effect) && Quiet(plan.rest)
  }

  predicate QuietEffect(e: Effect) { !e.MakeInstance? && !e.DropInstance? && !e.SetStatus? }

  lemma QuietStep(w: World, e: Effect)
    requires QuietEffect(e) && Enabled(w, e)
    ensures InstancesKept(w, Apply(w, e))
  {
  }

  lemma {:induction false} QuietRun(w: World, plan: Plan, w': World, rest: Plan)
    requires Quiet(plan) && Runs(w, plan, w', rest)
    ensures InstancesKept(w, w')
    decreases plan
  {
    if !(w' == w && rest == plan) {
      QuietStep(w, plan.effect);
      QuietRun(Apply(w, plan.effect), plan.rest, w', rest);
    }
  }

  lemma WriteQuiet(w: World, pool: string, vm: string, env: AgentEnv, uuid: string)
    ensures Quiet(WritePlan(w, pool, vm, env, uuid, Done))
  {
    if vm in w.instances {
      var instance := w.instances[vm];
      var attach := Then(AddDevice(vm, DISK_DEVICE_CONFIG, VolumeDisk(pool, ConfigName(uuid))), Done);
      assert Quiet(attach);
      if DISK_DEVICE_CONFIG in instance.devices {
        assert Quiet(Then(DropVolume(instance.devices[DISK_DEVICE_CONFIG].Source()), attach));
      }
      assert Quiet(ReplaceConfig(pool, vm, instance, ConfigName(uuid), Done));
    }
  }

  // ---- the parts of `DeleteVM` and `AttachDiskV2`

  /** The plan once the VM is stopped. */
  lemma AfterStop(w0: World, vm: string, order: seq<string>, w1: World) returns (todo: Plan)
    requires vm in w0.instances
    requires w1 == if IsStopped(w0.instances[vm].status) then w0 else Apply(w0, SetStatus(vm, Stopped))
    ensures todo == Then(DropInstance(vm), DropDisks(DisksOf(w0.instances[vm].devices), order, Then(DropFile(vm), Done)))
    ensures Runs(w0, DeletePlan(w0, vm, order), w1, todo)
  {
    todo := Then(DropInstance(vm), DropDisks(DisksOf(w0.instances[vm].devices), order, Then(DropFile(vm), Done)));
    assert Runs(w1, todo, w1, todo);
  }

  function SlotPath(env: AgentEnv): Option<DevicePath> {
    if FreeSlot(env).None? then None else Some(FreeSlot(env).value.0)
  }

  lemma MovedRuns(w0: World, pool: string, vm: string, disk: string, w1: World, moved: Plan) returns (rest: Plan)
    requires vm in w0.files && FreeSlot(w0.files[vm]).Some?
    requires Runs(w0, ColocatePlan(w0, vm, disk, Done), w1, moved)
    ensures Runs(w0, AttachPlan(w0, pool, vm, disk, ""), w1, rest) && rest.Then?
  {
    var (path, name) := FreeSlot(w0.files[vm]).value;
    var attach := AddDevice(vm, name, VolumeDisk(pool, disk));
    var env := w0.files[vm];
    var next := Then(attach, WritePlan(Apply(w0, attach), pool, vm, env.(persistent := env.persistent[disk := path]), "", Done));
    RunsAndThen(w0, ColocatePlan(w0, vm, disk, Done), w1, moved, next);
    ColocateAndThen(w0, vm, disk, next);
    rest := AndThen(moved, next);
  }

  lemma AttachHasSteps(w: World, pool: string, vm: string, disk: string, uuid: string)
    ensures AttachPlan(w, pool, vm, disk, uuid).Then?
  {
  }

  /** Colocation, attachment and the write, put together. */
  lemma AttachRuns(w0: World, pool: string, vm: string, disk: string, uuid: string, w1: World, w': World, rest: Plan)
    requires vm in w0.files && FreeSlot(w0.files[vm]).Some?
    requires Runs(w0, ColocatePlan(w0, vm, disk, Done), w1, Done) && w1 == w0.(volumes := w1.volumes)
    requires var (path, name) := FreeSlot(w0.files[vm]).value;
      var attach := AddDevice(vm, name, VolumeDisk(pool, disk));
      var env := w0.files[vm];
      Enabled(w1, attach) && Runs(Apply(w1, attach), WritePlan(Apply(w1, attach), pool, vm, env.(persistent := env.persistent[disk := path]), uuid, Done), w', rest)
    ensures Runs(w0, AttachPlan(w0, pool, vm, disk, uuid), w', rest)
  {
    var (path, name) := FreeSlot(w0.files[vm]).value;
    var attach := AddDevice(vm, name, VolumeDisk(pool, disk));
    var env := w0.files[vm];
    var env' := env.(persistent := env.persistent[disk := path]);
    var write := WritePlan(Apply(w0, attach), pool, vm, env', uuid, Done);
    DeviceNamesDistinct();
    SamePlan(Apply(w0, attach), Apply(w1, attach), pool, vm, env', uuid, Done);
    ColocateAndThen(w0, vm, disk, Then(attach, write));
    RunsAndThen(w0, ColocatePlan(w0, vm, disk, Done), w1, Done, Then(attach, write));
    Advance(w0, AttachPlan(w0, pool, vm, disk, uuid), w1, attach, write);
    Continue(w0, AttachPlan(w0, pool, vm, disk, uuid), Apply(w1, attach), write, w', rest);
  }

  // ---- the parts of `CreateStemcell`

  lemma ImagesKept(w: World, w1: World)
    requires w1.images == w.images && w1.aliases == w.aliases
    ensures AliasesTarget(w) ==> AliasesTarget(w1)
    ensures forall text, a :: Found(w1, text, a) <==> Found(w, text, a)
  {
    forall text, a ensures Found(w1, text, a) <==> Found(w, text, a) {
      assert forall b :: Describes(w1, b, text) <==> Describes(w, b, text);
    }
  }

  /** Some outcome of the search for an image. */
  ghost function SomeFound(w: World, text: string): (existing: string)
    requires AliasesTarget(w)
    ensures Found(w, text, existing)
  {
    if exists a :: Describes(w, a, text) then
      var a :| Describes(w, a, text); a
    else ""
  }

  function PredeployPlan(vm: string, instance: Instance, text: string): Plan {
    Then(MakeInstance(vm, instance), Then(SetDescription(vm, "predeploy vm for " + text), Done))
  }

  lemma UuidTaken(w: World, uuid: string, existing: string, fingerprint: string, text: string, predeploy: Option<(string, Instance)>, w1: World)
    requires AllOrNothing(w, TakeUuid(uuid), w1, true)
    ensures var plan := CreateStemcellPlan(uuid, existing, fingerprint, text, predeploy);
      Runs(w, plan, w1, plan.rest)
  {
    var plan := CreateStemcellPlan(uuid, existing, fingerprint, text, predeploy);
    Carried(w, plan, w, plan, w1, true);
  }

  lemma PredeployRuns(w: World, alias: string, fingerprint: string, text: string, vm: string, instance: Instance, w1: World, w2: World, rest: Plan)
    requires Runs(w, UploadPlan(alias, fingerprint, text, None), w1, Done)
    requires Runs(w1, PredeployPlan(vm, instance, text), w2, rest)
    ensures Runs(w, UploadPlan(alias, fingerprint, text, Some((vm, instance))), w2, rest)
  {
    var plan := UploadPlan(alias, fingerprint, text, None);
    var next := PredeployPlan(vm, instance, text);
    ThenAndThen(plan.effect, plan.rest, next);
    ThenAndThen(plan.rest.effect, Done, next);
    RunsAndThen(w, plan, w1, Done, next);
    Continue(w, AndThen(plan, next), w1, next, w2, rest);
  }
}
