/** What two calls on one VM, or a cleanup beside a settings write, can do to each other. */
module Races {
  import opened Names
  import opened World
  import opened Plans
  import opened Safety
  import opened Concurrent
  import opened Repair
  import Adapter
  import BlindWrites

  // ---- two calls on one VM

  lemma Extend(pool: string, run: seq<State>, s': State)
    requires IsRun(pool, run) && Next(pool, run[|run| - 1], s')
    ensures IsRun(pool, run + [s'])
  {
    var more := run + [s'];
    forall i | 0 <= i < |more| - 1 ensures NextAt(pool, more, i) {
      if i < |run| - 1 { assert NextAt(pool, run, i); }
    }
  }

  /** The call has done its next mutation. */
  lemma Go(pool: string, run: seq<State>, p: nat) returns (more: seq<State>)
    requires IsRun(pool, run) && Ready(run[|run| - 1], p)
    ensures IsRun(pool, more) && run <= more && |more| == |run| + 1 && more[|run|] == OneFurther(run[|run| - 1], p)
  {
    var s := run[|run| - 1];
    assert Proceeds(s, OneFurther(s, p), p);
    assert StepOf(pool, s, OneFurther(s, p), p);
    Extend(pool, run, OneFurther(s, p));
    more := run + [OneFurther(s, p)];
  }

  lemma Enter(pool: string, run: seq<State>, p: nat, op: Op) returns (more: seq<State>)
    requires IsRun(pool, run) && p !in run[|run| - 1].calls && ValidOp(run[|run| - 1].w, op)
    ensures var s := run[|run| - 1];
      && IsRun(pool, more) && run <= more && |more| == |run| + 1
      && more[|run|] == s.(calls := s.calls[p := Call(PlanOf(s.w, pool, op), None)])
  {
    var s := run[|run| - 1];
    var s' := s.(calls := s.calls[p := Call(PlanOf(s.w, pool, op), None)]);
    assert Begins(pool, s, s', p, op);
    assert StepOf(pool, s, s', p);
    Extend(pool, run, s');
    more := run + [s'];
  }

  /** The first half of a detach. */
  lemma Fetch(pool: string, run: seq<State>, p: nat) returns (more: seq<State>)
    requires IsRun(pool, run) && Detaching(run[|run| - 1], p) && run[|run| - 1].calls[p].held.None?
    requires run[|run| - 1].calls[p].todo.effect.name in Target(run[|run| - 1], p).devices
    ensures var s := run[|run| - 1];
      && IsRun(pool, more) && run <= more && |more| == |run| + 1
      && more[|run|] == s.(calls := s.calls[p := s.calls[p].(held := Some(Adapter.WritableOf(Target(s, p))))])
  {
    var s := run[|run| - 1];
    var s' := s.(calls := s.calls[p := s.calls[p].(held := Some(Adapter.WritableOf(Target(s, p))))]);
    assert Reads(s, s', p);
    assert StepOf(pool, s, s', p);
    Extend(pool, run, s');
    more := run + [s'];
  }

  /** The second. */
  lemma Store(pool: string, run: seq<State>, p: nat) returns (more: seq<State>)
    requires IsRun(pool, run) && Detaching(run[|run| - 1], p) && run[|run| - 1].calls[p].held.Some?
    ensures var s := run[|run| - 1];
      && IsRun(pool, more) && run <= more && |more| == |run| + 1 && Writes(s, more[|run|], p)
  {
    var s := run[|run| - 1];
    var e := s.calls[p].todo.effect;
    var s' := State(Adapter.Updated(s.w, e.vm, BlindWrites.Detached(s.calls[p].held.value, e.name)),
                    s.calls[p := Call(s.calls[p].todo.rest, None)], s.homes);
    assert Writes(s, s', p);
    assert StepOf(pool, s, s', p);
    Extend(pool, run, s');
    more := run + [s'];
  }

  /** Two calls that detach different devices of one VM: both read, then both write. The one that
      writes last restores what the other has detached. */
  lemma TwoDetaches(pool: string, run: seq<State>, p: nat, q: nat, vm: string, a: string, b: string) returns (more: seq<State>)
    requires IsRun(pool, run) && p != q && a != b
    requires var s := run[|run| - 1];
      && Detaching(s, p) && s.calls[p].held.None? && s.calls[p].todo.effect == RemoveDevice(vm, a) && a in s.w.instances[vm].devices
      && Detaching(s, q) && s.calls[q].held.None? && s.calls[q].todo.effect == RemoveDevice(vm, b) && b in s.w.instances[vm].devices
    ensures var n, s := |run|, run[|run| - 1];
      && IsRun(pool, more) && run <= more && |more| == n + 4 && more[n + 1].w == s.w
      && more[n + 2].w == WithDevices(s.w, vm, s.w.instances[vm].devices - {b})
      && more[n + 3].w == WithDevices(s.w, vm, s.w.instances[vm].devices - {a})
  {
    var s := run[|run| - 1];
    more := Fetch(pool, run, p);
    more := Fetch(pool, more, q);
    more := Store(pool, more, q);
    var s3 := more[|more| - 1];
    assert s3.w == WithDevices(s.w, vm, s.w.instances[vm].devices - {b});
    more := Store(pool, more, p);
    Overwrite(s.w.instances, vm, s3.w.instances[vm], s.w.instances[vm].(devices := s.w.instances[vm].devices - {a}));
  }

  /** A settings write that has made its volume and is about to replace the old one. */
  lemma WriteHalfway(pool: string, w: World, vm: string, other: string, uuid: string) returns (run: seq<State>)
    requires Inv(w) && vm in w.instances && vm in w.files && uuid !in w.used
    requires ClassOf(other) == PersistentVolume && PickedBy(w.instances[vm].devices, other, "")
    ensures IsRun(pool, run) && run[0].w == w
    ensures var s := run[|run| - 1];
      && s.calls == map[1 := Call(ReplaceConfig(pool, vm, w.instances[vm], ConfigName(uuid), Done), None)]
      && s.w.instances == w.instances && s.w.files.Keys == w.files.Keys
  {
    var env := w.files[vm].(persistent := w.files[vm].persistent - {other});
    run := BeginWrite(pool, w, vm, other, uuid);
    run := MakeNew(pool, run, w, vm, env, uuid);
    assert map[1 := Call(WriteRest(w, pool, vm, env, uuid), None)][1 := run[|run| - 1].calls[1]] == map[1 := run[|run| - 1].calls[1]];
  }

  /** The write, up to its new volume. */
  lemma MakeNew(pool: string, run: seq<State>, w: World, vm: string, env: AgentEnv, uuid: string) returns (more: seq<State>)
    requires IsRun(pool, run) && Inv(w) && vm in w.instances && vm in w.files && uuid !in w.used
    requires var s := run[|run| - 1]; s.w == w && 1 in s.calls && s.calls[1] == Call(WriteRest(w, pool, vm, env, uuid), None)
    ensures IsRun(pool, more) && run <= more
    ensures var s, s' := run[|run| - 1], more[|more| - 1];
      && s'.calls == s.calls[1 := Call(ReplaceConfig(pool, vm, w.instances[vm], ConfigName(uuid), Done), None)]
      && s'.w.instances == w.instances && s'.w.files.Keys == w.files.Keys
  {
    var make := MakeVolume(ConfigName(uuid), w.Home(w.instances[vm].location), ConfigImage(env));
    var w2 := Apply(Apply(w, TakeUuid(uuid)), PutFile(vm, env));
    NewConfigFits(w, w2, vm, env, uuid);
    MakingKeeps(w2, make);
    more := GoThrice(pool, run, 1, TakeUuid(uuid), PutFile(vm, env), make,
                     ReplaceConfig(pool, vm, w.instances[vm], ConfigName(uuid), Done));
  }

  lemma MakingKeeps(w: World, make: Effect)
    requires make.MakeVolume?
    ensures Apply(w, make).instances == w.instances && Apply(w, make).files == w.files
  {
  }

  lemma BeginWrite(pool: string, w: World, vm: string, other: string, uuid: string) returns (run: seq<State>)
    requires Inv(w) && vm in w.instances && vm in w.files
    requires ClassOf(other) == PersistentVolume && PickedBy(w.instances[vm].devices, other, "")
    ensures IsRun(pool, run) && run[0].w == w
    ensures var env := w.files[vm].(persistent := w.files[vm].persistent - {other});
      run[|run| - 1] == State(w, map[1 := Call(WriteRest(w, pool, vm, env, uuid), None)], HomesOf(w))
  {
    run := [State(w, map[], HomesOf(w))];
    run := Enter(pool, run, 1, DetachDisk(vm, other, "", uuid));
    assert map[][1 := run[1].calls[1]] == map[1 := run[1].calls[1]];
  }

  /** The plan of a write, spelled out. */
  function WriteRest(w: World, pool: string, vm: string, env: AgentEnv, uuid: string): Plan
    requires vm in w.instances
  {
    Then(TakeUuid(uuid), Then(PutFile(vm, env), Then(MakeVolume(ConfigName(uuid), w.Home(w.instances[vm].location), ConfigImage(env)),
      ReplaceConfig(pool, vm, w.instances[vm], ConfigName(uuid), Done))))
  }

  lemma GoThrice(pool: string, run: seq<State>, p: nat, e1: Effect, e2: Effect, e3: Effect, rest: Plan) returns (more: seq<State>)
    requires IsRun(pool, run) && p in run[|run| - 1].calls && run[|run| - 1].calls[p] == Call(Then(e1, Then(e2, Then(e3, rest))), None)
    requires var w := run[|run| - 1].w;
      Enabled(w, e1) && Enabled(Apply(w, e1), e2) && Enabled(Apply(Apply(w, e1), e2), e3)
    requires !e1.RemoveDevice? && !e2.RemoveDevice? && !e3.RemoveDevice? && !e1.AddDevice? && !e2.AddDevice? && !e3.AddDevice?
    ensures var s := run[|run| - 1];
      && IsRun(pool, more) && run <= more
      && more[|more| - 1] == s.(w := Apply(Apply(Apply(s.w, e1), e2), e3), calls := s.calls[p := Call(rest, None)])
  {
    var s := run[|run| - 1];
    more := Go(pool, run, p);
    more := Go(pool, more, p);
    Overwrite(s.calls, p, Call(Then(e2, Then(e3, rest)), None), Call(Then(e3, rest), None));
    more := Go(pool, more, p);
    Overwrite(s.calls, p, Call(Then(e3, rest), None), Call(rest, None));
  }

  /** On every VM with a configuration disk and a data disk, a run in which the configuration volume is
      attached, detached, and attached again. */
  lemma ReattachingRun(pool: string, w: World, vm: string, slot: string, disk: string, other: string, uuid: string)
    returns (run: seq<State>, k: nat, c: string)
    requires Inv(w) && vm in w.files && uuid !in w.used && w.HasDevice(vm, DISK_DEVICE_CONFIG)
    requires w.HasDevice(vm, slot) && w.instances[vm].devices[slot].Source() == disk && ClassOf(disk) == PersistentVolume
    requires ClassOf(other) == PersistentVolume && PickedBy(w.instances[vm].devices, other, "")
    ensures IsRun(pool, run) && run[0].w == w && k + 2 < |run| && ClassOf(c) == ConfigVolume
    ensures run[k].w.Attached(c) && !run[k + 1].w.Attached(c) && run[k + 2].w.Attached(c)
  {
    SlotNamed(w, vm, slot, disk);
    c := w.instances[vm].devices[DISK_DEVICE_CONFIG].Source();
    run := WriteHalfway(pool, w, vm, other, uuid);
    var s := run[|run| - 1];
    run := Enter(pool, run, 0, DetachDisk(vm, disk, slot, uuid));
    k := |run| + 1;
    run := TwoDetaches(pool, run, 0, 1, vm, slot, DISK_DEVICE_CONFIG);
    InAndOut(w, run[k].w, run[k + 1].w, run[k + 2].w, vm, slot);
  }

  lemma SlotNamed(w: World, vm: string, slot: string, disk: string)
    requires Inv(w) && w.HasDevice(vm, slot) && w.instances[vm].devices[slot].Source() == disk && ClassOf(disk) == PersistentVolume
    requires w.HasDevice(vm, DISK_DEVICE_CONFIG)
    ensures slot != DISK_DEVICE_CONFIG && slot != ""
    ensures w.instances[vm].devices[DISK_DEVICE_CONFIG].IsDisk() && ClassOf(w.instances[vm].devices[DISK_DEVICE_CONFIG].Source()) == ConfigVolume
  {
    DeviceNamesDistinct();
  }

  lemma InAndOut(w: World, w1: World, w2: World, w3: World, vm: string, slot: string)
    requires Inv(w) && w.HasDevice(vm, DISK_DEVICE_CONFIG) && slot != DISK_DEVICE_CONFIG && w1.instances == w.instances
    requires w2 == WithDevices(w1, vm, w.instances[vm].devices - {DISK_DEVICE_CONFIG})
    requires w3 == WithDevices(w1, vm, w.instances[vm].devices - {slot})
    ensures var c := w.instances[vm].devices[DISK_DEVICE_CONFIG].Source();
      w1.Attached(c) && !w2.Attached(c) && w3.Attached(c)
  {
    AttachedBy(w1, vm, DISK_DEVICE_CONFIG);
    PreviousIsFree(w, w2, vm);
    AttachedBy(w3, vm, DISK_DEVICE_CONFIG);
  }
}
