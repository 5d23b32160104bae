/** What every call respects in its plan: it draws a UUID, makes the volume, attaches it once; and it
    deletes only what was in use, unless it is the sweep or a disk deletion. */
module Discipline {
  import opened Names
  import opened World
  import opened Plans
  import opened Safety

  predicate Attaches(e: Effect, c: string) {
    e.AddDevice? && e.device.Source() == c
  }

  predicate Uses(plan: Plan, c: string) {
    plan.Then? && (Attaches(plan.effect, c) || Uses(plan.rest, c))
  }

  /** The plan attaches the volume without drawing its UUID first: it has drawn it before. */
  predicate Armed(plan: Plan, c: string) {
    plan.Then? && plan.effect != TakeUuid(UuidOf(c)) && (Attaches(plan.effect, c) || Armed(plan.rest, c))
  }

  /** No transient volume is attached twice, and new instances come without volumes. */
  predicate Once(plan: Plan) {
    plan.Then? ==>
      && (plan.effect.AddDevice? && Transient(plan.effect.device.Source()) ==> !Uses(plan.rest, plan.effect.device.Source()))
      && (plan.effect.MakeInstance? ==> FreshInstance(plan.effect.instance))
      && Once(plan.rest)
  }

  ghost predicate Unarmed(plan: Plan) {
    forall c :: Transient(c) ==> !Armed(plan, c)
  }

  lemma {:induction false} ArmedUses(plan: Plan, c: string)
    ensures Armed(plan, c) ==> Uses(plan, c)
    decreases plan
  {
    if plan.Then? { ArmedUses(plan.rest, c); }
  }

  predicate Makes(e: Effect, c: string) {
    e.MakeVolume? && e.volume == c
  }

  /** The plan attaches the volume and neither draws its UUID nor makes it before. */
  predicate Bare(plan: Plan, c: string) {
    && plan.Then? && plan.effect != TakeUuid(UuidOf(c)) && !Makes(plan.effect, c)
    && (Attaches(plan.effect, c) || Bare(plan.rest, c))
  }

  /** Between drawing a UUID and attaching its volume, the volume is made. */
  ghost predicate Prepared(plan: Plan) {
    plan.Then? ==>
      && (plan.effect.TakeUuid? ==> forall c :: Transient(c) && UuidOf(c) == plan.effect.uuid ==> !Bare(plan.rest, c))
      && Prepared(plan.rest)
  }

  predicate Deletes(e: Effect, c: string) {
    (e.DropVolume? || e.DropCopy?) && e.volume == c
  }

  predicate Drops(plan: Plan, c: string) {
    plan.Then? && (Deletes(plan.effect, c) || Drops(plan.rest, c))
  }

  lemma {:induction false} BareArmed(plan: Plan, c: string)
    ensures Bare(plan, c) ==> Armed(plan, c)
    decreases plan
  {
    if plan.Then? { BareArmed(plan.rest, c); }
  }

  lemma ReplaceUses(pool: string, vm: string, instance: Instance, volume: string, next: Plan, c: string)
    requires !Uses(next, c)
    ensures Uses(ReplaceConfig(pool, vm, instance, volume, next), c) ==> c == volume
  {
    var attach := Then(AddDevice(vm, DISK_DEVICE_CONFIG, VolumeDisk(pool, volume)), next);
    assert Uses(attach, c) ==> c == volume;
    if DISK_DEVICE_CONFIG in instance.devices {
      var drop := Then(DropVolume(instance.devices[DISK_DEVICE_CONFIG].Source()), attach);
      assert Uses(drop, c) ==> c == volume;
    }
  }

  ghost predicate UsesNothing(plan: Plan) {
    Once(plan) && forall c :: !Uses(plan, c)
  }

  lemma NothingBefore(e: Effect, rest: Plan)
    requires UsesNothing(rest) && !e.AddDevice? && (e.MakeInstance? ==> FreshInstance(e.instance))
    ensures UsesNothing(Then(e, rest))
  {
  }

  lemma NothingAtAll()
    ensures UsesNothing(Done)
  {
    forall c ensures !Uses(Done, c) { }
  }

  lemma NothingDone(e: Effect)
    requires !e.AddDevice? && (e.MakeInstance? ==> FreshInstance(e.instance))
    ensures UsesNothing(Then(e, Done))
  {
    forall c ensures !Uses(Then(e, Done), c) { assert !Uses(Done, c); }
  }

  lemma ReplaceOnce(pool: string, vm: string, instance: Instance, volume: string, next: Plan)
    requires UsesNothing(next)
    ensures Once(ReplaceConfig(pool, vm, instance, volume, next))
  {
    var attach := Then(AddDevice(vm, DISK_DEVICE_CONFIG, VolumeDisk(pool, volume)), next);
    assert Once(attach);
    if DISK_DEVICE_CONFIG in instance.devices {
      assert Once(Then(DropVolume(instance.devices[DISK_DEVICE_CONFIG].Source()), attach));
    }
  }

  /** A write draws the UUID of the volume it attaches. */
  lemma WriteGood(w: World, pool: string, vm: string, env: AgentEnv, uuid: string, next: Plan)
    requires UsesNothing(next)
    ensures Once(WritePlan(w, pool, vm, env, uuid, next)) && Unarmed(WritePlan(w, pool, vm, env, uuid, next))
    ensures forall c :: Uses(WritePlan(w, pool, vm, env, uuid, next), c) ==> c == ConfigName(uuid)
  {
    VolumeNames(uuid);
    var plan := WritePlan(w, pool, vm, env, uuid, next);
    if vm in w.instances {
      ReplaceOnce(pool, vm, w.instances[vm], ConfigName(uuid), next);
      forall c ensures Uses(plan.rest.rest.rest, c) ==> c == ConfigName(uuid) {
        ReplaceUses(pool, vm, w.instances[vm], ConfigName(uuid), next, c);
      }
    }
    assert Once(plan.rest.rest) && forall c :: Uses(plan.rest.rest, c) ==> c == ConfigName(uuid);
    assert Once(plan.rest) && forall c :: Uses(plan.rest, c) ==> c == ConfigName(uuid);
    forall c | Transient(c) ensures !Armed(plan, c) { ArmedUses(plan.rest, c); }
  }

  lemma {:induction false} DropDisksUses(devices: map<string, Device>, order: seq<string>, next: Plan)
    requires UsesNothing(next)
    ensures UsesNothing(DropDisks(devices, order, next))
    decreases order
  {
    if order != [] { DropDisksUses(devices, order[1..], next); }
  }

  lemma {:induction false} SweepUses(chosen: seq<string>)
    ensures UsesNothing(SweepPlan(chosen))
    decreases chosen
  {
    if chosen != [] { SweepUses(chosen[1..]); }
  }

  /** A plan stays good under a mutation that attaches no transient volume. */
  lemma GoodBefore(e: Effect, rest: Plan)
    requires Once(rest) && Unarmed(rest)
    requires (e.AddDevice? ==> !Transient(e.device.Source())) && (e.MakeInstance? ==> FreshInstance(e.instance))
    ensures Once(Then(e, rest)) && Unarmed(Then(e, rest))
  {
  }

  lemma UsesNothingGood(plan: Plan)
    requires UsesNothing(plan)
    ensures Once(plan) && Unarmed(plan)
  {
    forall c | Transient(c) ensures !Armed(plan, c) { ArmedUses(plan, c); }
  }

  /** Drawing a UUID, making the volume and attaching it, and then a plan that is good by itself. */
  lemma EphemeralGood(w: World, pool: string, launch: Launch, next: Plan)
    requires Once(next) && Unarmed(next) && (forall c :: Uses(next, c) ==> ClassOf(c) == ConfigVolume)
    ensures Once(EphemeralPlan(w, pool, launch, next)) && Unarmed(EphemeralPlan(w, pool, launch, next))
  {
    VolumeNames(launch.ephemeralUuid);
    var plan := EphemeralPlan(w, pool, launch, next);
    if launch.WantsEphemeral() {
      assert !Uses(next, launch.Ephemeral());
      assert Once(plan.rest.rest);
      assert Once(plan.rest);
      forall c | Transient(c) ensures !Armed(plan, c) {
        assert Armed(plan.rest.rest, c) ==> c == launch.Ephemeral();
        assert Armed(plan.rest, c) ==> c == launch.Ephemeral();
      }
    }
  }

  lemma CreateGood(w: World, pool: string, launch: Launch)
    requires FreshInstance(launch.instance)
    ensures Once(CreatePlan(w, pool, launch)) && Unarmed(CreatePlan(w, pool, launch))
  {
    var next := if IsStarted(launch.instance.status) then Done else Then(SetStatus(launch.Vm(), Running), Done);
    NothingAtAll();
    NothingDone(SetStatus(launch.Vm(), Running));
    VolumeNames(launch.configUuid);
    WriteGood(WithInstance(w, launch), pool, launch.Vm(), launch.FinalEnv(), launch.configUuid, next);
    EphemeralGood(w, pool, launch, StartPlan(w, pool, launch));
    var block := EphemeralPlan(w, pool, launch, StartPlan(w, pool, launch));
    GoodBefore(MakeInstance(launch.Vm(), launch.instance), block);
    GoodBefore(TakeUuid(launch.vmUuid), Then(MakeInstance(launch.Vm(), launch.instance), block));
  }

  lemma AttachGood(w: World, pool: string, vm: string, disk: string, uuid: string)
    requires ClassOf(disk) == PersistentVolume
    ensures Once(AttachPlan(w, pool, vm, disk, uuid)) && Unarmed(AttachPlan(w, pool, vm, disk, uuid))
  {
    if vm in w.files && FreeSlot(w.files[vm]).Some? {
      var (path, name) := FreeSlot(w.files[vm]).value;
      var attach := AddDevice(vm, name, VolumeDisk(pool, disk));
      var env := w.files[vm].(persistent := w.files[vm].persistent[disk := path]);
      var write := WritePlan(Apply(w, attach), pool, vm, env, uuid, Done);
      WriteGood(Apply(w, attach), pool, vm, env, uuid, Done);
      GoodBefore(attach, write);
      ColocateGood(w, vm, disk, Then(attach, write));
    }
  }

  lemma ColocateGood(w: World, vm: string, disk: string, next: Plan)
    requires Once(next) && Unarmed(next)
    ensures Once(ColocatePlan(w, vm, disk, next)) && Unarmed(ColocatePlan(w, vm, disk, next))
  {
    var plan := ColocatePlan(w, vm, disk, next);
    if plan != next {
      if plan.rest != next { GoodBefore(plan.rest.effect, next); }
      GoodBefore(plan.effect, plan.rest);
    }
  }

  lemma DetachGood(w: World, pool: string, vm: string, disk: string, pick: string, uuid: string)
    ensures Once(DetachPlan(w, pool, vm, disk, pick, uuid)) && Unarmed(DetachPlan(w, pool, vm, disk, pick, uuid))
  {
    if vm in w.instances {
      var w1 := if pick == "" then w else Apply(w, RemoveDevice(vm, pick));
      var rewrite := if vm in w.files then WritePlan(w1, pool, vm, w.files[vm].(persistent := w.files[vm].persistent - {disk}), uuid, Done)
        else Then(Refuse, Done);
      if vm in w.files {
        WriteGood(w1, pool, vm, w.files[vm].(persistent := w.files[vm].persistent - {disk}), uuid, Done);
      }
      GoodBefore(RemoveDevice(vm, pick), rewrite);
    }
  }

  /** Every call's plan draws the UUID of each transient volume before it attaches it, once. */
  lemma OpGood(w: World, pool: string, op: Op)
    requires ValidOp(w, op)
    ensures Once(PlanOf(w, pool, op)) && Unarmed(PlanOf(w, pool, op))
  {
    match op
    case CreateVM(launch) => CreateGood(w, pool, launch);
    case AttachDisk(vm, disk, uuid) => AttachGood(w, pool, vm, disk, uuid);
    case DetachDisk(vm, disk, pick, uuid) => DetachGood(w, pool, vm, disk, pick, uuid);
    case _ =>
      OpUsesNothing(w, pool, op);
      UsesNothingGood(PlanOf(w, pool, op));
  }

  /** The calls that attach something. */
  predicate AttachingOp(op: Op) {
    op.CreateVM? || op.AttachDisk? || op.DetachDisk?
  }

  lemma OpUsesNothing(w: World, pool: string, op: Op)
    requires ValidOp(w, op) && !AttachingOp(op)
    ensures UsesNothing(PlanOf(w, pool, op))
  {
    match op
    case DeleteVM(vm, order) => DeleteUses(w, vm, order);
    case Sweep(chosen) => SweepUses(chosen);
    case CreateDisk(vm, size, uuid) =>
      NothingDone(CreateDiskPlan(w, vm, size, uuid).rest.effect);
      NothingBefore(TakeUuid(uuid), CreateDiskPlan(w, vm, size, uuid).rest);
    case SnapshotDisk(disk, uuid) =>
      NothingDone(PlanOf(w, pool, op).rest.effect);
      NothingBefore(TakeUuid(uuid), PlanOf(w, pool, op).rest);
    case CreateStemcell(uuid, existing, fingerprint, text, predeploy) => UploadUses(uuid, existing, fingerprint, text, predeploy);
    case DeleteStemcell(alias, predeployed) =>
      var dropImage := if alias in w.aliases then DropImage(w.aliases[alias]) else Refuse;
      NothingDone(dropImage);
      NothingBefore(DropInstance(predeployed), Then(dropImage, Done));
    case DeleteDisk(disk) => NothingDone(DropVolume(disk));
    case DeleteSnapshot(disk, snapshot) => NothingDone(DropSnapshot(disk, snapshot));
    case SetVMMetadata(vm, text) => NothingDone(SetDescription(vm, text));
    case PowerChange(vm, status) => NothingDone(SetStatus(vm, status));
    case _ =>
  }

  lemma DeleteUses(w: World, vm: string, order: seq<string>)
    ensures UsesNothing(DeletePlan(w, vm, order))
  {
    var dropFile := Then(DropFile(vm), Done);
    NothingDone(DropFile(vm));
    if vm in w.instances {
      var loop := DropDisks(DisksOf(w.instances[vm].devices), order, dropFile);
      DropDisksUses(DisksOf(w.instances[vm].devices), order, dropFile);
      NothingBefore(DropInstance(vm), loop);
      NothingBefore(SetStatus(vm, Stopped), Then(DropInstance(vm), loop));
    }
  }

  lemma UploadUses(uuid: string, existing: string, fingerprint: string, text: string, predeploy: Option<(string, Instance)>)
    requires predeploy.Some? ==> FreshInstance(predeploy.value.1)
    ensures UsesNothing(CreateStemcellPlan(uuid, existing, fingerprint, text, predeploy))
  {
    var plan := CreateStemcellPlan(uuid, existing, fingerprint, text, predeploy);
    if existing == "" {
      if predeploy.Some? {
        NothingDone(SetDescription(predeploy.value.0, "predeploy vm for " + text));
        NothingBefore(plan.rest.rest.rest.effect, plan.rest.rest.rest.rest);
        NothingBefore(plan.rest.rest.effect, plan.rest.rest.rest);
      } else {
        NothingDone(plan.rest.rest.effect);
      }
      NothingBefore(plan.rest.effect, plan.rest.rest);
      NothingBefore(plan.effect, plan.rest);
    } else {
      NothingDone(plan.effect);
    }
  }

  // ---- made before attached

  lemma PreparedBefore(e: Effect, rest: Plan)
    requires Prepared(rest) && (e.TakeUuid? ==> Unarmed(rest))
    ensures Prepared(Then(e, rest))
  {
    forall c | Transient(c) ensures e.TakeUuid? ==> !Bare(rest, c) { BareArmed(rest, c); }
  }

  lemma {:induction false} UsesNothingPrepared(plan: Plan)
    requires UsesNothing(plan)
    ensures Prepared(plan)
    decreases plan
  {
    if plan.Then? {
      forall c ensures !Uses(plan.rest, c) { assert !Uses(plan, c); }
      UsesNothingPrepared(plan.rest);
      UsesNothingGood(plan.rest);
      PreparedBefore(plan.effect, plan.rest);
    }
  }

  lemma ReplacePrepared(pool: string, vm: string, instance: Instance, volume: string, next: Plan)
    requires Prepared(next)
    ensures Prepared(ReplaceConfig(pool, vm, instance, volume, next))
  {
    var attach := Then(AddDevice(vm, DISK_DEVICE_CONFIG, VolumeDisk(pool, volume)), next);
    PreparedBefore(attach.effect, next);
    if DISK_DEVICE_CONFIG in instance.devices {
      var drop := DropVolume(instance.devices[DISK_DEVICE_CONFIG].Source());
      PreparedBefore(drop, attach);
      PreparedBefore(RemoveDevice(vm, DISK_DEVICE_CONFIG), Then(drop, attach));
      PreparedBefore(RemoveDevice(vm, DISK_DEVICE_CONFIG), attach);
    }
  }

  lemma WritePrepared(w: World, pool: string, vm: string, env: AgentEnv, uuid: string, next: Plan)
    requires UsesNothing(next)
    ensures Prepared(WritePlan(w, pool, vm, env, uuid, next))
  {
    VolumeNames(uuid);
    var plan := WritePlan(w, pool, vm, env, uuid, next);
    UsesNothingPrepared(next);
    WriteGood(w, pool, vm, env, uuid, next);
    if vm in w.instances { ReplacePrepared(pool, vm, w.instances[vm], ConfigName(uuid), next); }
    PreparedBefore(plan.rest.rest.effect, plan.rest.rest.rest);
    PreparedBefore(plan.rest.effect, plan.rest.rest);
    forall c | Transient(c) ensures !Bare(plan.rest, c) { MadeFirst(w, pool, vm, env, uuid, next, c); }
  }

  lemma MadeFirst(w: World, pool: string, vm: string, env: AgentEnv, uuid: string, next: Plan, c: string)
    requires UsesNothing(next)
    ensures !Bare(WritePlan(w, pool, vm, env, uuid, next).rest, c)
  {
    var plan := WritePlan(w, pool, vm, env, uuid, next);
    assert !Uses(next, c);
    if vm in w.instances {
      ReplaceUses(pool, vm, w.instances[vm], ConfigName(uuid), next, c);
      BareArmed(plan.rest.rest.rest, c);
      ArmedUses(plan.rest.rest.rest, c);
    } else {
      BareArmed(next, c);
      ArmedUses(next, c);
    }
    assert !Bare(plan.rest.rest, c);
  }

  lemma EphemeralPrepared(w: World, pool: string, launch: Launch, next: Plan)
    requires Prepared(next) && Unarmed(next)
    ensures Prepared(EphemeralPlan(w, pool, launch, next))
  {
    var plan := EphemeralPlan(w, pool, launch, next);
    if launch.WantsEphemeral() {
      PreparedBefore(plan.rest.rest.effect, next);
      PreparedBefore(plan.rest.effect, plan.rest.rest);
      forall c | Transient(c) ensures !Bare(plan.rest, c) {
        BareArmed(next, c);
        assert Bare(plan.rest.rest, c) ==> c == launch.Ephemeral();
      }
    }
  }

  lemma CreatePrepared(w: World, pool: string, launch: Launch)
    requires FreshInstance(launch.instance)
    ensures Prepared(CreatePlan(w, pool, launch))
  {
    var next := if IsStarted(launch.instance.status) then Done else Then(SetStatus(launch.Vm(), Running), Done);
    NothingAtAll();
    NothingDone(SetStatus(launch.Vm(), Running));
    var w0, start := WithInstance(w, launch), StartPlan(w, pool, launch);
    VolumeNames(launch.configUuid);
    WritePrepared(w0, pool, launch.Vm(), launch.FinalEnv(), launch.configUuid, next);
    WriteGood(w0, pool, launch.Vm(), launch.FinalEnv(), launch.configUuid, next);
    EphemeralPrepared(w, pool, launch, start);
    EphemeralGood(w, pool, launch, start);
    var block := EphemeralPlan(w, pool, launch, start);
    PreparedBefore(MakeInstance(launch.Vm(), launch.instance), block);
    GoodBefore(MakeInstance(launch.Vm(), launch.instance), block);
    PreparedBefore(TakeUuid(launch.vmUuid), Then(MakeInstance(launch.Vm(), launch.instance), block));
  }

  lemma AttachPrepared(w: World, pool: string, vm: string, disk: string, uuid: string)
    ensures Prepared(AttachPlan(w, pool, vm, disk, uuid))
  {
    NothingAtAll();
    UsesNothingPrepared(Done);
    PreparedBefore(Refuse, Done);
    if vm in w.files && FreeSlot(w.files[vm]).Some? {
      var (path, name) := FreeSlot(w.files[vm]).value;
      var attach := AddDevice(vm, name, VolumeDisk(pool, disk));
      var env := w.files[vm].(persistent := w.files[vm].persistent[disk := path]);
      var write := WritePlan(Apply(w, attach), pool, vm, env, uuid, Done);
      WritePrepared(Apply(w, attach), pool, vm, env, uuid, Done);
      PreparedBefore(attach, write);
      ColocatePrepared(w, vm, disk, Then(attach, write));
    }
  }

  lemma ColocatePrepared(w: World, vm: string, disk: string, next: Plan)
    requires Prepared(next)
    ensures Prepared(ColocatePlan(w, vm, disk, next))
  {
    var plan := ColocatePlan(w, vm, disk, next);
    if plan != next {
      if plan.rest != next { PreparedBefore(plan.rest.effect, next); }
      PreparedBefore(plan.effect, plan.rest);
    }
  }

  lemma DetachPrepared(w: World, pool: string, vm: string, disk: string, pick: string, uuid: string)
    ensures Prepared(DetachPlan(w, pool, vm, disk, pick, uuid))
  {
    NothingAtAll();
    UsesNothingPrepared(Done);
    PreparedBefore(Refuse, Done);
    if vm in w.instances {
      var w1 := if pick == "" then w else Apply(w, RemoveDevice(vm, pick));
      var rewrite := Then(Refuse, Done);
      if vm in w.files {
        var env := w.files[vm].(persistent := w.files[vm].persistent - {disk});
        rewrite := WritePlan(w1, pool, vm, env, uuid, Done);
        WritePrepared(w1, pool, vm, env, uuid, Done);
      }
      PreparedBefore(RemoveDevice(vm, pick), rewrite);
    }
  }

  lemma OpPrepared(w: World, pool: string, op: Op)
    requires ValidOp(w, op)
    ensures Prepared(PlanOf(w, pool, op))
  {
    match op
    case CreateVM(launch) => CreatePrepared(w, pool, launch);
    case AttachDisk(vm, disk, uuid) => AttachPrepared(w, pool, vm, disk, uuid);
    case DetachDisk(vm, disk, pick, uuid) => DetachPrepared(w, pool, vm, disk, pick, uuid);
    case _ =>
      OpUsesNothing(w, pool, op);
      UsesNothingPrepared(PlanOf(w, pool, op));
  }

  // ---- what is deleted

  lemma ReplaceDrops(pool: string, vm: string, instance: Instance, volume: string, c: string)
    ensures Drops(ReplaceConfig(pool, vm, instance, volume, Done), c) ==>
      DISK_DEVICE_CONFIG in instance.devices && instance.devices[DISK_DEVICE_CONFIG].Source() == c
  {
    var attach := Then(AddDevice(vm, DISK_DEVICE_CONFIG, VolumeDisk(pool, volume)), Done);
    assert !Drops(attach, c);
    if DISK_DEVICE_CONFIG in instance.devices {
      var drop := DropVolume(instance.devices[DISK_DEVICE_CONFIG].Source());
      assert Drops(Then(drop, attach), c) ==> Deletes(drop, c);
    }
  }

  /** A write deletes nothing but the configuration volume in use. */
  lemma WriteDrops(w: World, pool: string, vm: string, env: AgentEnv, uuid: string, c: string)
    ensures Drops(WritePlan(w, pool, vm, env, uuid, Done), c) ==>
      w.HasDevice(vm, DISK_DEVICE_CONFIG) && w.instances[vm].devices[DISK_DEVICE_CONFIG].Source() == c
  {
    var plan := WritePlan(w, pool, vm, env, uuid, Done);
    if vm in w.instances { ReplaceDrops(pool, vm, w.instances[vm], ConfigName(uuid), c); }
    assert Drops(plan.rest.rest, c) ==> Drops(plan.rest.rest.rest, c);
    assert Drops(plan.rest, c) ==> Drops(plan.rest.rest, c);
  }

  /** The same, when the configuration device is that of the state the call began in. */
  lemma WriteDropsUsed(w0: World, w: World, pool: string, vm: string, env: AgentEnv, uuid: string, c: string)
    requires w.HasDevice(vm, DISK_DEVICE_CONFIG) ==>
      w0.HasDevice(vm, DISK_DEVICE_CONFIG) && w0.instances[vm].devices[DISK_DEVICE_CONFIG] == w.instances[vm].devices[DISK_DEVICE_CONFIG]
    ensures Drops(WritePlan(w, pool, vm, env, uuid, Done), c) ==> w0.Attached(c)
  {
    WriteDrops(w, pool, vm, env, uuid, c);
    if w0.HasDevice(vm, DISK_DEVICE_CONFIG) { AttachedBy(w0, vm, DISK_DEVICE_CONFIG); }
  }

  lemma {:induction false} LoopDrops(devices: map<string, Device>, order: seq<string>, next: Plan, c: string)
    requires !Drops(next, c)
    ensures Drops(DropDisks(devices, order, next), c) ==> exists d :: d in devices && devices[d].Source() == c
    decreases order
  {
    if order != [] {
      LoopDrops(devices, order[1..], next, c);
      assert order[0] in devices ==> devices[order[0]].Source() == devices[order[0]].Source();
    }
  }

  lemma DeleteDropsUsed(w: World, vm: string, order: seq<string>, c: string)
    ensures Drops(DeletePlan(w, vm, order), c) ==> w.Attached(c)
  {
    var dropFile := Then(DropFile(vm), Done);
    assert !Drops(dropFile, c);
    if vm in w.instances {
      var devices := DisksOf(w.instances[vm].devices);
      LoopDrops(devices, order, dropFile, c);
      var teardown := Then(DropInstance(vm), DropDisks(devices, order, dropFile));
      if Drops(DropDisks(devices, order, dropFile), c) {
        var d :| d in devices && devices[d].Source() == c;
        assert w.HasDevice(vm, d);
        AttachedBy(w, vm, d);
      }
      assert Drops(teardown, c) ==> w.Attached(c);
    }
  }

  lemma CreateDrops(w: World, pool: string, launch: Launch, c: string)
    requires FreshInstance(launch.instance)
    ensures !Drops(CreatePlan(w, pool, launch), c)
  {
    var next := if IsStarted(launch.instance.status) then Done else Then(SetStatus(launch.Vm(), Running), Done);
    var w0, start := WithInstance(w, launch), StartPlan(w, pool, launch);
    assert DISK_DEVICE_CONFIG !in launch.instance.devices;
    assert !Drops(next, c);
    assert !Drops(start.rest.rest.rest, c);
    assert !Drops(start.rest, c);
    var block := EphemeralPlan(w, pool, launch, start);
    if launch.WantsEphemeral() { assert !Drops(block.rest.rest, c); }
    assert !Drops(block, c);
    assert !Drops(CreatePlan(w, pool, launch).rest, c);
  }

  lemma AttachDropsUsed(w: World, pool: string, vm: string, disk: string, uuid: string, c: string)
    requires ClassOf(disk) == PersistentVolume && Transient(c)
    ensures Drops(AttachPlan(w, pool, vm, disk, uuid), c) ==> w.Attached(c)
  {
    DeviceNamesDistinct();
    assert !Drops(Then(Refuse, Done), c);
    if vm in w.files && FreeSlot(w.files[vm]).Some? {
      var (path, name) := FreeSlot(w.files[vm]).value;
      var attach := AddDevice(vm, name, VolumeDisk(pool, disk));
      var env := w.files[vm].(persistent := w.files[vm].persistent[disk := path]);
      WriteDropsUsed(w, Apply(w, attach), pool, vm, env, uuid, c);
      ColocateDrops(w, vm, disk, Then(attach, WritePlan(Apply(w, attach), pool, vm, env, uuid, Done)), c);
    }
  }

  lemma ColocateDrops(w: World, vm: string, disk: string, next: Plan, c: string)
    requires disk != c
    ensures Drops(ColocatePlan(w, vm, disk, next), c) ==> Drops(next, c)
  {
    var plan := ColocatePlan(w, vm, disk, next);
    if plan != next { assert Drops(plan.rest, c) ==> Drops(next, c); }
  }

  lemma DetachDropsUsed(w: World, pool: string, vm: string, disk: string, pick: string, uuid: string, c: string)
    ensures Drops(DetachPlan(w, pool, vm, disk, pick, uuid), c) ==> w.Attached(c)
  {
    assert !Drops(Then(Refuse, Done), c);
    if vm in w.instances && vm in w.files {
      var w1 := if pick == "" then w else Apply(w, RemoveDevice(vm, pick));
      var env := w.files[vm].(persistent := w.files[vm].persistent - {disk});
      WriteDropsUsed(w, w1, pool, vm, env, uuid, c);
    }
  }

  /** Every call but the sweep deletes, of the transient volumes, only what it has seen in use. */
  lemma OpDropsUsed(w: World, pool: string, op: Op, c: string)
    requires ValidOp(w, op) && !op.Sweep? && Transient(c)
    ensures Drops(PlanOf(w, pool, op), c) ==> w.Attached(c)
  {
    match op
    case CreateVM(launch) => CreateDrops(w, pool, launch, c);
    case AttachDisk(vm, disk, uuid) => AttachDropsUsed(w, pool, vm, disk, uuid, c);
    case DetachDisk(vm, disk, pick, uuid) => DetachDropsUsed(w, pool, vm, disk, pick, uuid, c);
    case DeleteVM(vm, order) => DeleteDropsUsed(w, vm, order, c);
    case CreateDisk(vm, size, uuid) => assert !Drops(CreateDiskPlan(w, vm, size, uuid).rest, c);
    case SnapshotDisk(disk, uuid) => assert !Drops(PlanOf(w, pool, op).rest, c);
    case CreateStemcell(uuid, existing, fingerprint, text, predeploy) => UploadDrops(uuid, existing, fingerprint, text, predeploy, c);
    case DeleteStemcell(alias, predeployed) =>
      var dropImage := if alias in w.aliases then DropImage(w.aliases[alias]) else Refuse;
      assert !Drops(Then(dropImage, Done), c);
    case DeleteDisk(disk) => assert disk != c && !Drops(Then(DropVolume(disk), Done), c);
    case DeleteSnapshot(disk, snapshot) => assert !Drops(Then(DropSnapshot(disk, snapshot), Done), c);
    case SetVMMetadata(vm, text) => assert !Drops(Then(SetDescription(vm, text), Done), c);
    case PowerChange(vm, status) => assert !Drops(Then(SetStatus(vm, status), Done), c);
    case _ =>
  }

  lemma UploadDrops(uuid: string, existing: string, fingerprint: string, text: string, predeploy: Option<(string, Instance)>, c: string)
    ensures !Drops(CreateStemcellPlan(uuid, existing, fingerprint, text, predeploy), c)
  {
    var plan := CreateStemcellPlan(uuid, existing, fingerprint, text, predeploy);
    if existing == "" {
      if predeploy.Some? { assert !Drops(plan.rest.rest.rest.rest, c); }
      assert !Drops(plan.rest.rest.rest, c);
      assert !Drops(plan.rest.rest, c);
    }
    assert !Drops(plan.rest, c);
  }
}
