/** What becomes of a disk that a failed move has left in two places. */
module Doubling {
  import opened Names
  import opened World
  import opened Plans
  import opened Safety
  import opened Lifecycle

  predicate MovesIt(e: Effect, disk: string) {
    (e.CopyVolume? || e.DropCopy?) && e.volume == disk
  }

  /** Nothing in the plan copies the disk or deletes one of its copies. */
  predicate LeavesCopies(plan: Plan, disk: string) {
    plan.Then? ==> !MovesIt(plan.effect, disk) && LeavesCopies(plan.rest, disk)
  }

  lemma ReplaceLeaves(pool: string, vm: string, instance: Instance, volume: string, next: Plan, disk: string)
    requires LeavesCopies(next, disk)
    ensures LeavesCopies(ReplaceConfig(pool, vm, instance, volume, next), disk)
  {
    var attach := Then(AddDevice(vm, DISK_DEVICE_CONFIG, VolumeDisk(pool, volume)), next);
    assert LeavesCopies(attach, disk);
    if DISK_DEVICE_CONFIG in instance.devices {
      assert LeavesCopies(Then(DropVolume(instance.devices[DISK_DEVICE_CONFIG].Source()), attach), disk);
    }
  }

  lemma WriteLeaves(w: World, pool: string, vm: string, env: AgentEnv, uuid: string, next: Plan, disk: string)
    requires LeavesCopies(next, disk)
    ensures LeavesCopies(WritePlan(w, pool, vm, env, uuid, next), disk)
  {
    var plan := WritePlan(w, pool, vm, env, uuid, next);
    if vm in w.instances { ReplaceLeaves(pool, vm, w.instances[vm], ConfigName(uuid), next, disk); }
    assert LeavesCopies(plan.rest.rest, disk);
  }

  lemma {:induction false} DropDisksLeave(devices: map<string, Device>, order: seq<string>, next: Plan, disk: string)
    requires LeavesCopies(next, disk)
    ensures LeavesCopies(DropDisks(devices, order, next), disk)
    decreases order
  {
    if order != [] { DropDisksLeave(devices, order[1..], next, disk); }
  }

  lemma {:induction false} SweepLeaves(chosen: seq<string>, disk: string)
    ensures LeavesCopies(SweepPlan(chosen), disk)
    decreases chosen
  {
    if chosen != [] { SweepLeaves(chosen[1..], disk); }
  }

  lemma CreateLeaves(w: World, pool: string, launch: Launch, disk: string)
    ensures LeavesCopies(CreatePlan(w, pool, launch), disk)
  {
    var next := if IsStarted(launch.instance.status) then Done else Then(SetStatus(launch.Vm(), Running), Done);
    assert LeavesCopies(next, disk);
    WriteLeaves(WithInstance(w, launch), pool, launch.Vm(), launch.FinalEnv(), launch.configUuid, next, disk);
    var block := EphemeralPlan(w, pool, launch, StartPlan(w, pool, launch));
    if launch.WantsEphemeral() { assert LeavesCopies(block.rest.rest, disk); }
    assert LeavesCopies(block, disk);
    assert LeavesCopies(CreatePlan(w, pool, launch).rest, disk);
  }

  /** Colocation refuses a disk that is in two places, and leaves every other's copies alone. */
  lemma AttachLeaves(w: World, pool: string, vm: string, disk: string, uuid: string, doubled: string)
    requires !w.Unique(doubled)
    ensures LeavesCopies(AttachPlan(w, pool, vm, disk, uuid), doubled)
  {
    if vm in w.files && FreeSlot(w.files[vm]).Some? {
      var (path, name) := FreeSlot(w.files[vm]).value;
      var attach := AddDevice(vm, name, VolumeDisk(pool, disk));
      var env := w.files[vm].(persistent := w.files[vm].persistent[disk := path]);
      var write := WritePlan(Apply(w, attach), pool, vm, env, uuid, Done);
      WriteLeaves(Apply(w, attach), pool, vm, env, uuid, Done, doubled);
      ColocateLeaves(w, vm, disk, Then(attach, write), doubled);
    }
  }

  lemma ColocateLeaves(w: World, vm: string, disk: string, next: Plan, doubled: string)
    requires !w.Unique(doubled) && LeavesCopies(next, doubled)
    ensures LeavesCopies(ColocatePlan(w, vm, disk, next), doubled)
  {
    var plan := ColocatePlan(w, vm, disk, next);
    if plan != next { assert LeavesCopies(plan.rest, doubled); }
  }

  lemma OpLeaves(w: World, pool: string, op: Op, disk: string)
    requires !w.Unique(disk)
    ensures LeavesCopies(PlanOf(w, pool, op), disk)
  {
    match op
    case CreateVM(launch) => CreateLeaves(w, pool, launch, disk);
    case DeleteVM(vm, order) =>
      if vm in w.instances {
        var loop := DropDisks(DisksOf(w.instances[vm].devices), order, Then(DropFile(vm), Done));
        DropDisksLeave(DisksOf(w.instances[vm].devices), order, Then(DropFile(vm), Done), disk);
        assert LeavesCopies(Then(DropInstance(vm), loop), disk);
      }
    case AttachDisk(vm, d, uuid) => AttachLeaves(w, pool, vm, d, uuid, disk);
    case DetachDisk(vm, d, pick, uuid) =>
      if vm in w.instances && vm in w.files {
        var w1 := if pick == "" then w else Apply(w, RemoveDevice(vm, pick));
        WriteLeaves(w1, pool, vm, w.files[vm].(persistent := w.files[vm].persistent - {d}), uuid, Done, disk);
      }
    case CreateDisk(vm, size, uuid) => assert LeavesCopies(CreateDiskPlan(w, vm, size, uuid).rest, disk);
    case Sweep(chosen) => SweepLeaves(chosen, disk);
    case SnapshotDisk(d, uuid) => assert LeavesCopies(PlanOf(w, pool, op).rest, disk);
    case CreateStemcell(uuid, existing, fingerprint, text, predeploy) =>
      var upload := UploadPlan("img-" + uuid, fingerprint, text, predeploy);
      assert LeavesCopies(upload.rest.rest, disk);
      assert LeavesCopies(upload, disk);
    case _ =>
  }

  lemma CopiesStay(w: World, e: Effect, disk: string)
    requires Enabled(w, e) && Lawful(w, e) && !MovesIt(e, disk) && |w.Copies(disk)| >= 2
    ensures Apply(w, e).Copies(disk) == w.Copies(disk)
  {
    assert disk in w.volumes;
  }

  /** A disk in two places, with no call in flight, stays exactly as it is in every later state. */
  lemma {:induction false} DoubledForGood(pool: string, run: seq<State>, i: nat, disk: string)
    requires IsRun(pool, run) && i < |run| && |run[0].w.Copies(disk)| >= 2
    ensures run[i].w.Copies(disk) == run[0].w.Copies(disk) && LeavesCopies(run[i].todo, disk)
  {
    if i > 0 {
      DoubledForGood(pool, run, i - 1, disk);
      EveryStateSound(pool, run, i - 1);
      var s, s' := run[i - 1], run[i];
      assert NextAt(pool, run, i - 1);
      if Begins(pool, s, s') {
        var op :| ValidOp(s.w, op) && s' == State(s.w, PlanOf(s.w, pool, op));
        OpLeaves(s.w, pool, op, disk);
      } else if Proceeds(s, s') {
        CopiesStay(s.w, s.todo.effect, disk);
      }
    }
  }

  /** No call that names such a disk can go through, but for a detach. */
  lemma DoubledIsStuck(w: World, pool: string, op: Op, disk: string)
    requires |w.Copies(disk)| >= 2
    requires (op.AttachDisk? || op.DeleteDisk? || op.SnapshotDisk? || op.DeleteSnapshot?) && op.disk == disk
    ensures !Completes(w, PlanOf(w, pool, op))
  {
    if op.SnapshotDisk? {
      assert Apply(w, TakeUuid(op.uuid)).Copies(disk) == w.Copies(disk);
      assert !Completes(Apply(w, TakeUuid(op.uuid)), PlanOf(w, pool, op).rest);
    }
  }
}
