/** After an `AttachDiskV2` that has stopped anywhere: what a detach mends, and when a further attach
    is possible. */
module Repair {
  import opened Names
  import opened World
  import opened Plans
  import opened Safety
  import opened SystemRuns
  import opened Colocation
  import opened Agreement

  /** The mutations an attach is made of: the slot device, the configuration device, the settings. */
  predicate Piece(e: Effect, vm: string, name: string, device: Device, env: AgentEnv) {
    match e
    case Refuse => true
    case TakeUuid(_) => true
    case PutFile(v, x) => v == vm && x == env
    case AddDevice(v, n, d) => v == vm && (n == DISK_DEVICE_CONFIG || (n == name && d == device))
    case RemoveDevice(v, n) => v == vm && n == DISK_DEVICE_CONFIG
    case MakeVolume(_, _, _) => true
    case DropVolume(_) => true
    case CopyVolume(volume, _, _) => ClassOf(volume) == PersistentVolume
    case DropCopy(volume, _) => ClassOf(volume) == PersistentVolume
    case _ => false
  }

  predicate Pieces(plan: Plan, vm: string, name: string, device: Device, env: AgentEnv) {
    plan.Then? ==> Piece(plan.effect, vm, name, device, env) && Pieces(plan.rest, vm, name, device, env)
  }

  lemma WritePieces(w: World, pool: string, vm: string, uuid: string, name: string, device: Device, env: AgentEnv)
    ensures Pieces(WritePlan(w, pool, vm, env, uuid, Done), vm, name, device, env)
  {
    var plan := WritePlan(w, pool, vm, env, uuid, Done);
    if vm in w.instances {
      var attach := Then(AddDevice(vm, DISK_DEVICE_CONFIG, VolumeDisk(pool, ConfigName(uuid))), Done);
      assert Pieces(attach, vm, name, device, env);
      if DISK_DEVICE_CONFIG in w.instances[vm].devices {
        assert Pieces(Then(DropVolume(w.instances[vm].devices[DISK_DEVICE_CONFIG].Source()), attach), vm, name, device, env);
      }
      assert Pieces(plan.rest.rest.rest, vm, name, device, env);
    }
    assert Pieces(plan.rest.rest, vm, name, device, env);
  }

  lemma AttachPieces(w: World, pool: string, vm: string, disk: string, uuid: string, path: DevicePath, name: string)
    requires vm in w.files && FreeSlot(w.files[vm]) == Some((path, name)) && ClassOf(disk) == PersistentVolume
    ensures Pieces(AttachPlan(w, pool, vm, disk, uuid), vm, name, VolumeDisk(pool, disk), Hinting(w.files[vm], disk, path))
  {
    var env := Hinting(w.files[vm], disk, path);
    var attach := AddDevice(vm, name, VolumeDisk(pool, disk));
    var tail := Then(attach, WritePlan(Apply(w, attach), pool, vm, env, uuid, Done));
    WritePieces(Apply(w, attach), pool, vm, uuid, name, VolumeDisk(pool, disk), env);
    assert Pieces(tail, vm, name, VolumeDisk(pool, disk), env);
    var plan := ColocatePlan(w, vm, disk, tail);
    if plan != tail { assert Pieces(plan.rest, vm, name, VolumeDisk(pool, disk), env); }
  }

  function Hinting(env: AgentEnv, disk: string, path: DevicePath): AgentEnv {
    env.(persistent := env.persistent[disk := path])
  }

  // ---- the other VMs

  lemma PieceApart(w: World, e: Effect, vm: string, name: string, device: Device, env: AgentEnv)
    requires Inv(w) && Enabled(w, e) && Lawful(w, e) && AgreeApart(w, vm) && Piece(e, vm, name, device, env)
    ensures AgreeApart(Apply(w, e), vm)
  {
    var w' := Apply(w, e);
    forall v | v in w'.instances && v != vm ensures AgreesOn(w', v) {
      assert v in w.instances && w'.instances[v] == w.instances[v];
      if InUse(w.instances[v].devices) { OthersConfigStays(w, e, vm, name, device, env, v); }
      StillAgrees(w, w', v);
    }
  }

  lemma OthersConfigStays(w: World, e: Effect, vm: string, name: string, device: Device, env: AgentEnv, v: string)
    requires Inv(w) && Enabled(w, e) && Lawful(w, e) && Piece(e, vm, name, device, env)
    requires v in w.instances && v != vm && InUse(w.instances[v].devices)
    ensures var n := w.instances[v].devices[DISK_DEVICE_CONFIG].volume; Apply(w, e).Copies(n) == w.Copies(n)
  {
    DeviceNamesDistinct();
    assert w.HasDevice(v, DISK_DEVICE_CONFIG);
    AttachedBy(w, v, DISK_DEVICE_CONFIG);
    OthersCopiesStay(w, e, vm, name, device, env, w.instances[v].devices[DISK_DEVICE_CONFIG].volume);
  }

  lemma OthersCopiesStay(w: World, e: Effect, vm: string, name: string, device: Device, env: AgentEnv, n: string)
    requires Enabled(w, e) && Lawful(w, e) && Piece(e, vm, name, device, env)
    requires n in w.volumes && w.Attached(n) && ClassOf(n) == ConfigVolume
    ensures Apply(w, e).Copies(n) == w.Copies(n)
  {
  }

  // ---- the VM itself

  /** The devices without the configuration device, which the write replaces. */
  function Base(devices: map<string, Device>): map<string, Device> {
    devices - {DISK_DEVICE_CONFIG}
  }

  /** The VM is as it was before the attach, but for the slot, the hint and the configuration device. */
  ghost predicate Halfway(w0: World, w: World, vm: string, name: string, device: Device, env: AgentEnv) {
    && vm in w0.instances && vm in w0.files && vm in w.instances && vm in w.files
    && (Base(w.instances[vm].devices) == Base(w0.instances[vm].devices)
        || Base(w.instances[vm].devices) == Base(w0.instances[vm].devices)[name := device])
    && (w.files[vm] == w0.files[vm] || w.files[vm] == env)
  }

  lemma PieceHalfway(w0: World, w: World, e: Effect, vm: string, name: string, device: Device, env: AgentEnv)
    requires Halfway(w0, w, vm, name, device, env) && Enabled(w, e) && Piece(e, vm, name, device, env) && name != DISK_DEVICE_CONFIG
    ensures Halfway(w0, Apply(w, e), vm, name, device, env)
  {
    var devices := w.instances[vm].devices;
    if e.AddDevice? {
      BaseOfAdded(devices, e.name, e.device);
      assert Base(w0.instances[vm].devices)[name := device][name := device] == Base(w0.instances[vm].devices)[name := device];
    } else if e.RemoveDevice? {
      assert Base(devices - {DISK_DEVICE_CONFIG}) == Base(devices);
    }
  }

  lemma BaseOfAdded(devices: map<string, Device>, name: string, device: Device)
    ensures Base(devices[name := device]) == if name == DISK_DEVICE_CONFIG then Base(devices) else Base(devices)[name := device]
  {
  }

  lemma {:induction false} PiecesRun(w0: World, w: World, plan: Plan, w': World, rest: Plan, vm: string, name: string, device: Device, env: AgentEnv)
    requires Inv(w) && AllLawful(w, plan) && Pieces(plan, vm, name, device, env) && Runs(w, plan, w', rest)
    requires AgreeApart(w, vm) && Halfway(w0, w, vm, name, device, env) && name != DISK_DEVICE_CONFIG
    ensures AgreeApart(w', vm) && Halfway(w0, w', vm, name, device, env)
    decreases plan
  {
    if !(w' == w && rest == plan) {
      StepKeepsInv(w, plan.effect);
      PieceApart(w, plan.effect, vm, name, device, env);
      PieceHalfway(w0, w, plan.effect, vm, name, device, env);
      PiecesRun(w0, Apply(w, plan.effect), plan.rest, w', rest, vm, name, device, env);
    }
  }

  /** Hints do not depend on the configuration device. */
  lemma HintsOfBase(devices: map<string, Device>, env: AgentEnv)
    ensures HintsAgree(Base(devices), env) <==> HintsAgree(devices, env)
  {
    DeviceNamesDistinct();
    assert forall d :: InSlot(Base(devices), DISK_DEVICE_PERSISTENT1, d) <==> InSlot(devices, DISK_DEVICE_PERSISTENT1, d);
    assert forall d :: InSlot(Base(devices), DISK_DEVICE_PERSISTENT2, d) <==> InSlot(devices, DISK_DEVICE_PERSISTENT2, d);
  }

  /** Taking the disk's device and hint away gives back what there was. */
  lemma Unhinted(devices: map<string, Device>, env0: AgentEnv, env: AgentEnv, disk: string, path: DevicePath)
    requires HintsAgree(devices, env0) && (forall d :: d in devices ==> devices[d].Source() != disk)
    requires env == env0 || env == Hinting(env0, disk, path)
    ensures env.(persistent := env.persistent - {disk}) == env0
  {
    assert Hinted(env0, disk, SDC) <==> InSlot(devices, DISK_DEVICE_PERSISTENT1, disk);
    assert Hinted(env0, disk, SDD) <==> InSlot(devices, DISK_DEVICE_PERSISTENT2, disk);
    assert env0.persistent - {disk} == env0.persistent;
    assert env0.persistent[disk := path] - {disk} == env0.persistent;
  }

  /** Whichever device the search picks, what stays is what there was before the attach. */
  lemma PickMends(devices0: map<string, Device>, devices: map<string, Device>, disk: string, name: string, device: Device, pick: string)
    requires Base(devices) == Base(devices0) || Base(devices) == Base(devices0)[name := device]
    requires name !in devices0 && name != "" && name != DISK_DEVICE_CONFIG && device.Source() == disk
    requires (forall d :: d in devices0 ==> devices0[d].Source() != disk) && PickedBy(devices, disk, pick)
    requires DISK_DEVICE_CONFIG in devices ==> devices[DISK_DEVICE_CONFIG].Source() != disk
    ensures pick != DISK_DEVICE_CONFIG && Base(if pick == "" then devices else devices - {pick}) == Base(devices0)
    ensures pick != "" ==> pick in devices
  {
    forall d | d in devices && devices[d].Source() == disk ensures d == name {
      assert d in Base(devices);
    }
    if Base(devices) == Base(devices0) {
      assert pick == "" || name in Base(devices);
      assert name !in Base(devices0);
    } else {
      assert name in Base(devices) && Base(devices)[name] == device;
      assert name in devices && devices[name].Source() == disk;
      assert pick == name;
      assert Base(devices - {name}) == Base(devices) - {name};
      assert Base(devices0)[name := device] - {name} == Base(devices0);
    }
  }

  /** A detach repairs an attach that has stopped anywhere: once it goes through, the three views of
      every VM agree again. */
  lemma DetachRepairs(w: World, pool: string, vm: string, disk: string, uuid: string, w1: World, rest: Plan, pick: string, uuid2: string, w2: World)
    requires Inv(w) && Agree(w) && ClassOf(disk) == PersistentVolume && !w.Attached(disk)
    requires Runs(w, AttachPlan(w, pool, vm, disk, uuid), w1, rest)
    requires vm in w1.instances ==> PickedBy(w1.instances[vm].devices, disk, pick)
    requires Runs(w1, DetachPlan(w1, pool, vm, disk, pick, uuid2), w2, Done)
    ensures Agree(w2)
  {
    if w1 == w {
      DetachAgrees(w, pool, vm, disk, pick, uuid2, w2);
    } else {
      assert vm in w.files && FreeSlot(w.files[vm]).Some? && vm in w.instances;
      var (path, name) := FreeSlot(w.files[vm]).value;
      HalfwayAgrees(w, pool, vm, disk, uuid, w1, rest, path, name);
      Mended(w, pool, vm, disk, w1, path, name, pick);
      FinishDetach(w1, pool, vm, disk, pick, uuid2, w2);
    }
  }

  lemma HalfwayAgrees(w: World, pool: string, vm: string, disk: string, uuid: string, w1: World, rest: Plan, path: DevicePath, name: string)
    requires Inv(w) && Agree(w) && ClassOf(disk) == PersistentVolume && vm in w.instances && vm in w.files
    requires FreeSlot(w.files[vm]) == Some((path, name)) && Runs(w, AttachPlan(w, pool, vm, disk, uuid), w1, rest)
    ensures Inv(w1) && AgreeApart(w1, vm) && Halfway(w, w1, vm, name, VolumeDisk(pool, disk), Hinting(w.files[vm], disk, path))
  {
    AttachLawful(w, pool, vm, disk, uuid);
    RunKeepsInv(w, AttachPlan(w, pool, vm, disk, uuid), w1, rest);
    AttachPieces(w, pool, vm, disk, uuid, path, name);
    SlotIsNoConfig(w.files[vm], path, name);
    PiecesRun(w, w, AttachPlan(w, pool, vm, disk, uuid), w1, rest, vm, name, VolumeDisk(pool, disk), Hinting(w.files[vm], disk, path));
  }

  lemma SlotIsNoConfig(env: AgentEnv, path: DevicePath, name: string)
    requires FreeSlot(env) == Some((path, name))
    ensures name != DISK_DEVICE_CONFIG && name != "" && SlotName(name)
  {
    DeviceNamesDistinct();
  }

  lemma Mended(w: World, pool: string, vm: string, disk: string, w1: World, path: DevicePath, name: string, pick: string)
    requires Inv(w) && Agree(w) && ClassOf(disk) == PersistentVolume && !w.Attached(disk) && Inv(w1)
    requires vm in w.files && vm in w.instances && FreeSlot(w.files[vm]) == Some((path, name))
    requires Halfway(w, w1, vm, name, VolumeDisk(pool, disk), Hinting(w.files[vm], disk, path))
    requires PickedBy(w1.instances[vm].devices, disk, pick)
    ensures pick != "" ==> w1.HasDevice(vm, pick)
    ensures HintsAgree(if pick == "" then w1.instances[vm].devices else w1.instances[vm].devices - {pick},
                       w1.files[vm].(persistent := w1.files[vm].persistent - {disk}))
  {
    var devices0, devices := w.instances[vm].devices, w1.instances[vm].devices;
    SlotIsNoConfig(w.files[vm], path, name);
    SlotAgrees(w, pool, vm, disk, path, name);
    NotASource(w, vm, disk);
    ConfigIsNotTheDisk(w1, vm, disk);
    PickMends(devices0, devices, disk, name, VolumeDisk(pool, disk), pick);
    assert AgreesOn(w, vm);
    Unhinted(devices0, w.files[vm], w1.files[vm], disk, path);
    HintsOfBase(devices0, w.files[vm]);
    HintsOfBase(if pick == "" then devices else devices - {pick}, w.files[vm]);
  }

  lemma ConfigIsNotTheDisk(w: World, vm: string, disk: string)
    requires Inv(w) && vm in w.instances && ClassOf(disk) == PersistentVolume
    ensures DISK_DEVICE_CONFIG in w.instances[vm].devices ==> w.instances[vm].devices[DISK_DEVICE_CONFIG].Source() != disk
  {
    DeviceNamesDistinct();
    DevicesOf(w, vm);
  }

  lemma FinishDetach(w1: World, pool: string, vm: string, disk: string, pick: string, uuid2: string, w2: World)
    requires Inv(w1) && AgreeApart(w1, vm) && ClassOf(disk) == PersistentVolume && vm in w1.instances && vm in w1.files
    requires pick != "" ==> w1.HasDevice(vm, pick)
    requires HintsAgree(if pick == "" then w1.instances[vm].devices else w1.instances[vm].devices - {pick},
                        w1.files[vm].(persistent := w1.files[vm].persistent - {disk}))
    requires Runs(w1, DetachPlan(w1, pool, vm, disk, pick, uuid2), w2, Done)
    ensures Agree(w2)
  {
    var plan := DetachPlan(w1, pool, vm, disk, pick, uuid2);
    RunsToTheEnd(w1, plan, w2);
    if pick != "" { StepOff(w1, plan); }
    DetachSettled(w1, pool, vm, disk, pick, uuid2, w2);
  }

  // ---- when an attach is possible

  /** In a sound state the server refuses no step of a settings write. */
  lemma WriteIsNotRefused(w: World, pool: string, vm: string, env: AgentEnv, uuid: string)
    requires Inv(w) && vm in w.instances && uuid !in w.used
    ensures Completes(w, WritePlan(w, pool, vm, env, uuid, Done))
  {
    var make := MakeVolume(ConfigName(uuid), w.Home(w.instances[vm].location), ConfigImage(env));
    var replace := ReplaceConfig(pool, vm, w.instances[vm], ConfigName(uuid), Done);
    var w1 := Apply(w, TakeUuid(uuid));
    var w2 := Apply(w1, PutFile(vm, env));
    NewConfigFits(w, w2, vm, env, uuid);
    ReplaceIsNotRefused(w, Apply(w2, make), pool, vm, ConfigName(uuid));
    OneBefore(w2, make, replace);
    OneBefore(w1, PutFile(vm, env), Then(make, replace));
    OneBefore(w, TakeUuid(uuid), Then(PutFile(vm, env), Then(make, replace)));
  }

  lemma NewConfigFits(w: World, w2: World, vm: string, env: AgentEnv, uuid: string)
    requires Inv(w) && vm in w.instances && uuid !in w.used && w2.volumes == w.volumes && w2.instances == w.instances
    ensures var make := MakeVolume(ConfigName(uuid), w.Home(w.instances[vm].location), ConfigImage(env));
      Enabled(w2, make) && forall n :: n in w.volumes ==> Apply(w2, make).Copies(n) == w.Copies(n)
  {
    VolumeNames(uuid);
    assert ConfigName(uuid) !in w.volumes;
  }

  lemma ReplaceIsNotRefused(w: World, w3: World, pool: string, vm: string, volume: string)
    requires Inv(w) && vm in w.instances && w3.instances == w.instances
    requires forall n :: n in w.volumes ==> w3.Copies(n) == w.Copies(n)
    ensures Completes(w3, ReplaceConfig(pool, vm, w.instances[vm], volume, Done))
  {
    var device := VolumeDisk(pool, volume);
    if w.HasDevice(vm, DISK_DEVICE_CONFIG) {
      PreviousDroppable(w, w3, vm);
      var previous := w.instances[vm].devices[DISK_DEVICE_CONFIG].Source();
      SwapCompletes(w3, vm, DISK_DEVICE_CONFIG, device, previous, IsStopped(w.instances[vm].status));
    } else {
      OneBefore(w3, AddDevice(vm, DISK_DEVICE_CONFIG, device), Done);
    }
  }

  lemma PreviousDroppable(w: World, w3: World, vm: string)
    requires Inv(w) && w.HasDevice(vm, DISK_DEVICE_CONFIG) && w3.instances == w.instances
    requires forall n :: n in w.volumes ==> w3.Copies(n) == w.Copies(n)
    ensures w.instances[vm].devices[DISK_DEVICE_CONFIG].IsDisk()
    ensures Enabled(Apply(w3, RemoveDevice(vm, DISK_DEVICE_CONFIG)), DropVolume(w.instances[vm].devices[DISK_DEVICE_CONFIG].Source()))
  {
    var w4 := Apply(w3, RemoveDevice(vm, DISK_DEVICE_CONFIG));
    PreviousIsFree(w, w4, vm);
    var previous := w.instances[vm].devices[DISK_DEVICE_CONFIG].Source();
    assert w4.Copies(previous) == w3.Copies(previous) == w.Copies(previous);
  }

  /** One device out, its volume deleted if wanted, another device in. */
  lemma SwapCompletes(w: World, vm: string, slot: string, device: Device, previous: string, drop: bool)
    requires w.HasDevice(vm, slot) && Enabled(Apply(w, RemoveDevice(vm, slot)), DropVolume(previous))
    ensures var add := Then(AddDevice(vm, slot, device), Done);
      Completes(w, Then(RemoveDevice(vm, slot), if drop then Then(DropVolume(previous), add) else add))
  {
    var w4 := Apply(w, RemoveDevice(vm, slot));
    var add := AddDevice(vm, slot, device);
    if drop {
      OneBefore(Apply(w4, DropVolume(previous)), add, Done);
      OneBefore(w4, DropVolume(previous), Then(add, Done));
    } else {
      OneBefore(w4, add, Done);
    }
  }

  /** The configuration volume just detached is in no use. */
  lemma PreviousIsFree(w: World, w4: World, vm: string)
    requires Inv(w) && w.HasDevice(vm, DISK_DEVICE_CONFIG)
    requires w4.instances == w.instances[vm := w.instances[vm].(devices := w.instances[vm].devices - {DISK_DEVICE_CONFIG})]
    ensures var n := w.instances[vm].devices[DISK_DEVICE_CONFIG].Source();
      n in w.volumes && w.Unique(n) && !w4.Attached(n) && w.instances[vm].devices[DISK_DEVICE_CONFIG].IsDisk()
  {
    DeviceNamesDistinct();
    var n := w.instances[vm].devices[DISK_DEVICE_CONFIG].Source();
    assert w.instances[vm].devices[DISK_DEVICE_CONFIG].VolumeDisk? && ClassOf(n) == ConfigVolume;
    forall v | v in w4.instances ensures !w4.UsedBy(v, n) {
      forall d | d in w4.instances[v].devices ensures w4.instances[v].devices[d].Source() != n {
        assert w.HasDevice(v, d);
      }
    }
  }

  /** The slot the settings offer is free on the instance. */
  predicate SlotFree(w: World, vm: string) {
    && vm in w.files && vm in w.instances && FreeSlot(w.files[vm]).Some?
    && FreeSlot(w.files[vm]).value.1 !in w.instances[vm].devices
  }

  /** In a sound state the server lets an attach through exactly when the slot the settings offer is
      free on the instance, and the disk has one copy that is in place or that nobody uses. So an
      attach that stopped with its device added and its hint not yet stored blocks every further
      attach on that VM, until a detach. */
  lemma AttachCompletesWhen(w: World, pool: string, vm: string, disk: string, uuid: string)
    requires Inv(w) && ClassOf(disk) == PersistentVolume && uuid !in w.used
    ensures Completes(w, AttachPlan(w, pool, vm, disk, uuid))
      <==> SlotFree(w, vm) && w.Unique(disk) && (InPlace(w, vm, disk) || !w.Attached(disk))
  {
    if Completes(w, AttachPlan(w, pool, vm, disk, uuid)) {
      AttachNeeds(w, pool, vm, disk, uuid);
    }
    if SlotFree(w, vm) && w.Unique(disk) && (InPlace(w, vm, disk) || !w.Attached(disk)) {
      AttachGoesThrough(w, pool, vm, disk, uuid);
    }
  }

  lemma AttachNeeds(w: World, pool: string, vm: string, disk: string, uuid: string)
    requires Completes(w, AttachPlan(w, pool, vm, disk, uuid))
    ensures SlotFree(w, vm) && w.Unique(disk) && (InPlace(w, vm, disk) || !w.Attached(disk))
  {
    assert vm in w.files && FreeSlot(w.files[vm]).Some?;
    var (path, name) := FreeSlot(w.files[vm]).value;
    var attach := AddDevice(vm, name, VolumeDisk(pool, disk));
    var tail := Then(attach, WritePlan(Apply(w, attach), pool, vm, Hinting(w.files[vm], disk, path), uuid, Done));
    ColocateMoves(w, vm, disk, tail);
    StepOff(Colocated(w, vm, disk), tail);
  }

  lemma AttachGoesThrough(w: World, pool: string, vm: string, disk: string, uuid: string)
    requires Inv(w) && ClassOf(disk) == PersistentVolume && uuid !in w.used
    requires SlotFree(w, vm) && w.Unique(disk) && (InPlace(w, vm, disk) || !w.Attached(disk))
    ensures Completes(w, AttachPlan(w, pool, vm, disk, uuid))
  {
    var (path, name) := FreeSlot(w.files[vm]).value;
    var attach := AddDevice(vm, name, VolumeDisk(pool, disk));
    var write := WritePlan(Apply(w, attach), pool, vm, Hinting(w.files[vm], disk, path), uuid, Done);
    var w1 := Colocated(w, vm, disk);
    ColocateCompletesWhen(w, vm, disk);
    ColocatedInv(w, vm, disk);
    SlotThenWrite(w, w1, pool, vm, disk, name, Hinting(w.files[vm], disk, path), uuid);
    OneBefore(w1, attach, write);
    ColocateThen(w, vm, disk, Then(attach, write));
  }

  lemma SlotThenWrite(w: World, w1: World, pool: string, vm: string, disk: string, name: string, env: AgentEnv, uuid: string)
    requires Inv(w1) && ClassOf(disk) == PersistentVolume && disk in w1.volumes && w1 == w.(volumes := w1.volumes)
    requires vm in w.instances && SlotName(name) && name !in w.instances[vm].devices && uuid !in w.used
    ensures var attach := AddDevice(vm, name, VolumeDisk(pool, disk));
      Completes(Apply(w1, attach), WritePlan(Apply(w, attach), pool, vm, env, uuid, Done))
  {
    var attach := AddDevice(vm, name, VolumeDisk(pool, disk));
    SlotKeepsInv(w1, pool, vm, disk, name);
    WriteIsNotRefused(Apply(w1, attach), pool, vm, env, uuid);
    SameAfterSlot(w, w1, pool, vm, disk, name);
    SamePlan(Apply(w, attach), Apply(w1, attach), pool, vm, env, uuid, Done);
  }

  lemma SameAfterSlot(w: World, w1: World, pool: string, vm: string, disk: string, name: string)
    requires vm in w.instances && w1 == w.(volumes := w1.volumes)
    ensures var attach := AddDevice(vm, name, VolumeDisk(pool, disk)); SameForWrite(Apply(w, attach), Apply(w1, attach), vm)
  {
  }

  /** The converse of what a completed colocation implies. */
  lemma ColocateThen(w: World, vm: string, disk: string, next: Plan)
    requires Movable(w, vm, disk) && (InPlace(w, vm, disk) || !w.Attached(disk)) && Completes(Colocated(w, vm, disk), next)
    ensures Completes(w, ColocatePlan(w, vm, disk, next))
  {
    if !InPlace(w, vm, disk) {
      MoveSteps(w, vm, disk);
      var plan := ColocatePlan(w, vm, disk, next);
      assert Completes(Apply(w, plan.effect), plan.rest);
    }
  }

  /** That stop is always possible where an attach is. */
  lemma BlockingStop(w: World, pool: string, vm: string, disk: string, uuid: string) returns (w1: World, rest: Plan)
    requires Inv(w) && ClassOf(disk) == PersistentVolume
    requires SlotFree(w, vm) && w.Unique(disk) && (InPlace(w, vm, disk) || !w.Attached(disk))
    ensures Runs(w, AttachPlan(w, pool, vm, disk, uuid), w1, rest) && rest != Done
    ensures !SlotFree(w1, vm) && w1.files == w.files && w1.UsedBy(vm, disk)
  {
    var (path, name) := FreeSlot(w.files[vm]).value;
    var attach := AddDevice(vm, name, VolumeDisk(pool, disk));
    var write := WritePlan(Apply(w, attach), pool, vm, Hinting(w.files[vm], disk, path), uuid, Done);
    var w0 := Colocated(w, vm, disk);
    ColocateReaches(w, vm, disk, Then(attach, write));
    w1, rest := Apply(w0, attach), write;
    assert w1.instances[vm].devices[name].Source() == disk;
    Advance(w, AttachPlan(w, pool, vm, disk, uuid), w0, attach, write);
  }

  lemma ColocateReaches(w: World, vm: string, disk: string, next: Plan)
    requires Movable(w, vm, disk) && (InPlace(w, vm, disk) || !w.Attached(disk))
    ensures Runs(w, ColocatePlan(w, vm, disk, next), Colocated(w, vm, disk), next)
  {
    if !InPlace(w, vm, disk) {
      MoveSteps(w, vm, disk);
      var plan := ColocatePlan(w, vm, disk, next);
      var w1 := Apply(w, plan.effect);
      assert Runs(Apply(w1, plan.rest.effect), next, Colocated(w, vm, disk), next);
      assert Runs(w1, plan.rest, Colocated(w, vm, disk), next);
    }
  }

  // ---- when a detach is possible

  /** In a sound state the server lets a detach through exactly when the VM and its settings are there. */
  lemma DetachCompletesWhen(w: World, pool: string, vm: string, disk: string, pick: string, uuid: string)
    requires Inv(w) && uuid !in w.used && (vm in w.instances ==> PickedBy(w.instances[vm].devices, disk, pick))
    ensures Completes(w, DetachPlan(w, pool, vm, disk, pick, uuid)) <==> vm in w.instances && vm in w.files
  {
    if vm in w.instances && vm in w.files {
      DetachGoesThrough(w, pool, vm, disk, pick, uuid);
    } else {
      DetachFails(w, pool, vm, disk, pick, uuid);
    }
  }

  lemma DetachFails(w: World, pool: string, vm: string, disk: string, pick: string, uuid: string)
    requires !(vm in w.instances && vm in w.files)
    ensures !Completes(w, DetachPlan(w, pool, vm, disk, pick, uuid))
  {
    if vm in w.instances {
      assert !Completes(Apply(w, RemoveDevice(vm, pick)), Then(Refuse, Done));
    }
  }

  lemma DetachGoesThrough(w: World, pool: string, vm: string, disk: string, pick: string, uuid: string)
    requires Inv(w) && uuid !in w.used && vm in w.instances && vm in w.files && PickedBy(w.instances[vm].devices, disk, pick)
    ensures Completes(w, DetachPlan(w, pool, vm, disk, pick, uuid))
  {
    var remove := RemoveDevice(vm, pick);
    var env := w.files[vm].(persistent := w.files[vm].persistent - {disk});
    if pick == "" {
      WriteIsNotRefused(w, pool, vm, env, uuid);
    } else {
      StepKeepsInv(w, remove);
      WriteIsNotRefused(Apply(w, remove), pool, vm, env, uuid);
      OneBefore(w, remove, WritePlan(Apply(w, remove), pool, vm, env, uuid, Done));
    }
  }

  /** So the detach that repairs an attach can go through after every stop of it. */
  lemma RepairIsPossible(w: World, pool: string, vm: string, disk: string, uuid: string, w1: World, rest: Plan, pick: string, uuid2: string)
    requires Inv(w) && ClassOf(disk) == PersistentVolume && vm in w.instances && vm in w.files
    requires Runs(w, AttachPlan(w, pool, vm, disk, uuid), w1, rest) && uuid2 !in w1.used
    requires vm in w1.instances ==> PickedBy(w1.instances[vm].devices, disk, pick)
    ensures Completes(w1, DetachPlan(w1, pool, vm, disk, pick, uuid2))
  {
    AttachLawful(w, pool, vm, disk, uuid);
    RunKeepsInv(w, AttachPlan(w, pool, vm, disk, uuid), w1, rest);
    if FreeSlot(w.files[vm]).Some? {
      var (path, name) := FreeSlot(w.files[vm]).value;
      AttachPieces(w, pool, vm, disk, uuid, path, name);
      PiecesKeepVM(w, AttachPlan(w, pool, vm, disk, uuid), w1, rest, vm, name, VolumeDisk(pool, disk), Hinting(w.files[vm], disk, path));
    }
    DetachCompletesWhen(w1, pool, vm, disk, pick, uuid2);
  }

  lemma PieceKeepsVM(w: World, e: Effect, vm: string, name: string, device: Device, env: AgentEnv)
    requires Piece(e, vm, name, device, env) && Enabled(w, e) && vm in w.instances && vm in w.files
    ensures vm in Apply(w, e).instances && vm in Apply(w, e).files
  {
  }

  lemma {:induction false} PiecesKeepVM(w: World, plan: Plan, w': World, rest: Plan, vm: string, name: string, device: Device, env: AgentEnv)
    requires Pieces(plan, vm, name, device, env) && Runs(w, plan, w', rest) && vm in w.instances && vm in w.files
    ensures vm in w'.instances && vm in w'.files
    decreases plan
  {
    if !(w' == w && rest == plan) {
      PieceKeepsVM(w, plan.effect, vm, name, device, env);
      PiecesKeepVM(Apply(w, plan.effect), plan.rest, w', rest, vm, name, device, env);
    }
  }
}
