/** Whether the sources of disk devices exist while any number of calls are in flight. */
module Sources {
  import opened Names
  import opened World
  import opened Plans
  import opened Safety
  import opened Discipline
  import opened Concurrent

  // ---- exactly which steps leave a device without its volume

  predicate Missing(w: World, device: Device) {
    device.VolumeDisk? && device.volume !in w.volumes
  }

  /** A volume is attached that is not there (any more). */
  predicate AttachesMissing(s: State, s': State, p: nat) {
    && Proceeds(s, s', p) && s.calls[p].todo.effect.AddDevice? && Missing(s.w, s.calls[p].todo.effect.device)
  }

  /** A detach writes back a device whose volume has been deleted since it read it. */
  predicate RestoresMissing(s: State, s': State, p: nat) {
    && Writes(s, s', p)
    && var seen := s.calls[p].held.value.devices;
       exists d :: d in seen && d != s.calls[p].todo.effect.name && Missing(s.w, seen[d])
  }

  ghost predicate Dangles(s: State, s': State) {
    exists p :: AttachesMissing(s, s', p) || RestoresMissing(s, s', p)
  }

  lemma DeletesUnusedOnly(w: World, e: Effect, vm: string, d: string)
    requires Enabled(w, e) && w.HasDevice(vm, d) && w.instances[vm].devices[d].VolumeDisk?
    requires w.instances[vm].devices[d].volume in w.volumes
    ensures w.instances[vm].devices[d].volume in Apply(w, e).volumes
  {
    AttachedBy(w, vm, d);
  }

  lemma ProceedSources(s: State, p: nat)
    requires Sound(s) && SourcesExist(s.w) && Ready(s, p)
    ensures SourcesExist(OneFurther(s, p).w) <==> !AttachesMissing(s, OneFurther(s, p), p)
  {
    var e := s.calls[p].todo.effect;
    var w, w' := s.w, Apply(s.w, e);
    NextIsArmed(s, p);
    if AttachesMissing(s, OneFurther(s, p), p) {
      assert w'.HasDevice(e.vm, e.name) && w'.instances[e.vm].devices[e.name] == e.device;
      assert e.device.volume !in w'.volumes;
    } else {
      forall vm, d | w'.HasDevice(vm, d) && w'.instances[vm].devices[d].VolumeDisk?
        ensures w'.instances[vm].devices[d].volume in w'.volumes
      {
        assert (e.AddDevice? && vm == e.vm && d == e.name) || (w.HasDevice(vm, d) && w.instances[vm].devices[d] == w'.instances[vm].devices[d]);
        if w.HasDevice(vm, d) { DeletesUnusedOnly(w, e, vm, d); }
      }
    }
  }

  lemma WriteSources(s: State, s': State, p: nat)
    requires SourcesExist(s.w) && Writes(s, s', p)
    ensures SourcesExist(s'.w) <==> !RestoresMissing(s, s', p)
  {
    var e, seen := s.calls[p].todo.effect, s.calls[p].held.value.devices;
    if RestoresMissing(s, s', p) {
      var d :| d in seen && d != e.name && Missing(s.w, seen[d]);
      assert s'.w.HasDevice(e.vm, d) && s'.w.instances[e.vm].devices[d] == seen[d];
    } else {
      forall vm, d | s'.w.HasDevice(vm, d) && s'.w.instances[vm].devices[d].VolumeDisk?
        ensures s'.w.instances[vm].devices[d].volume in s'.w.volumes
      {
        assert vm != e.vm ==> s.w.HasDevice(vm, d);
        assert vm == e.vm ==> d in seen && d != e.name && !Missing(s.w, seen[d]);
      }
    }
  }

  /** A step leaves some device without its volume exactly when it attaches a missing volume, or when a
      detach writes back a device whose volume is missing by now. */
  lemma DanglesExactly(pool: string, s: State, s': State)
    requires Sound(s) && SourcesExist(s.w) && Next(pool, s, s')
    ensures SourcesExist(s'.w) <==> !Dangles(s, s')
  {
    if p :| AttachesMissing(s, s', p) || RestoresMissing(s, s', p) {
      if AttachesMissing(s, s', p) { ProceedSources(s, p); } else { WriteSources(s, s', p); }
    } else {
      var p :| StepOf(pool, s, s', p);
      if Proceeds(s, s', p) { ProceedSources(s, p); }
      else if Writes(s, s', p) { WriteSources(s, s', p); }
      else { assert s'.w == s.w; }
    }
  }

  // ---- without a sweep beside

  /** A reaction that neither gives up making what is to be attached, nor sets out to delete anything
      new that was never in use. */
  ghost predicate Modest(s: State, plan: Plan, previous: Plan) {
    && Prepared(plan)
    && forall c :: Transient(c) ==> (Bare(plan, c) ==> Bare(previous, c)) && (Drops(plan, c) ==> Drops(previous, c) || c in s.homes)
  }

  ghost predicate QuietStepOf(pool: string, s: State, s': State, p: nat) {
    || (exists op :: Begins(pool, s, s', p, op) && !op.Sweep?) || Proceeds(s, s', p) || Reads(s, s', p) || Writes(s, s', p)
    || Stops(s, s', p) || (exists plan :: Reacts(s, s', p, plan) && Modest(s, plan, s.calls[p].todo))
  }

  ghost predicate QuietNext(pool: string, s: State, s': State) {
    exists p :: QuietStepOf(pool, s, s', p)
  }

  ghost predicate QuietNextAt(pool: string, run: seq<State>, i: nat)
    requires i + 1 < |run|
  {
    QuietNext(pool, run[i], run[i + 1])
  }

  /** A run in which no cleanup is started. */
  ghost predicate SweepFree(pool: string, run: seq<State>) {
    IsRun(pool, run) && forall i :: 0 <= i < |run| - 1 ==> QuietNextAt(pool, run, i)
  }

  ghost predicate CallSound(s: State, p: nat) {
    p in s.calls ==>
      && Prepared(s.calls[p].todo)
      && forall c :: Transient(c) ==> (Drops(s.calls[p].todo, c) ==> c in s.homes) && (Bare(s.calls[p].todo, c) ==> c in s.w.volumes)
  }

  ghost predicate Tame(s: State) {
    forall p :: CallSound(s, p)
  }

  lemma VolumeKept(w: World, e: Effect, c: string)
    requires Enabled(w, e) && c in w.volumes && !Deletes(e, c)
    ensures c in Apply(w, e).volumes
  {
  }

  /** What a call is to attach without making it first is there, and no other call deletes it. */
  lemma ProceedTame(s: State, p: nat, q: nat)
    requires Sound(s) && Tame(s) && Ready(s, p)
    ensures CallSound(OneFurther(s, p), q)
  {
    var s', e := OneFurther(s, p), s.calls[p].todo.effect;
    assert CallSound(s, p) && CallSound(s, q);
    if q in s'.calls {
      forall c | Transient(c)
        ensures Drops(s'.calls[q].todo, c) ==> c in s'.homes
        ensures Bare(s'.calls[q].todo, c) ==> c in s'.w.volumes
      {
        if Bare(s'.calls[q].todo, c) { BareVolumeThere(s, p, q, c); }
      }
    }
  }

  lemma BareVolumeThere(s: State, p: nat, q: nat, c: string)
    requires Sound(s) && Tame(s) && Ready(s, p) && q in s.calls && Transient(c) && Bare(OneFurther(s, p).calls[q].todo, c)
    ensures c in OneFurther(s, p).w.volumes
  {
    var e := s.calls[p].todo.effect;
    assert CallSound(s, p) && CallSound(s, q);
    if Makes(e, c) {
      assert c in Apply(s.w, e).volumes;
    } else {
      assert Bare(s.calls[q].todo, c);
      BareArmed(s.calls[q].todo, c);
      assert ArmedSound(s, q, c);
      assert !Deletes(e, c);
      VolumeKept(s.w, e, c);
    }
  }

  lemma OtherTame(pool: string, s: State, s': State, p: nat, q: nat, op: Op, plan: Plan)
    requires Sound(s) && Tame(s)
    requires (Begins(pool, s, s', p, op) && !op.Sweep?) || Reads(s, s', p) || Writes(s, s', p) || Stops(s, s', p)
      || (Reacts(s, s', p, plan) && Modest(s, plan, s.calls[p].todo))
    ensures CallSound(s', q)
  {
    assert CallSound(s, p) && CallSound(s, q);
    if Begins(pool, s, s', p, op) && q == p {
      OpGood(s.w, pool, op);
      OpPrepared(s.w, pool, op);
      forall c | Transient(c)
        ensures Drops(s'.calls[q].todo, c) ==> c in s'.homes
        ensures !Bare(s'.calls[q].todo, c)
      {
        BareArmed(s'.calls[q].todo, c);
        OpDropsUsed(s.w, pool, op, c);
        if s.w.Attached(c) {
          var vm :| vm in s.w.instances && s.w.UsedBy(vm, c);
          UserIsHome(s, vm, c);
        }
      }
    }
  }

  lemma StepTame(pool: string, s: State, s': State, p: nat)
    requires Sound(s) && Tame(s) && QuietStepOf(pool, s, s', p)
    ensures Tame(s')
  {
    forall q ensures CallSound(s', q) {
      if Proceeds(s, s', p) {
        ProceedTame(s, p, q);
      } else if op :| Begins(pool, s, s', p, op) && !op.Sweep? {
        OtherTame(pool, s, s', p, q, op, Done);
      } else if plan :| Reacts(s, s', p, plan) && Modest(s, plan, s.calls[p].todo) {
        OtherTame(pool, s, s', p, q, DeleteDisk(""), plan);
      } else {
        OtherTame(pool, s, s', p, q, DeleteDisk(""), Done);
      }
    }
  }

  lemma {:induction false} EveryStateTame(pool: string, run: seq<State>, i: nat)
    requires SweepFree(pool, run) && i < |run|
    ensures Tame(run[i])
  {
    if i > 0 {
      EveryStateTame(pool, run, i - 1);
      EveryStateSound(pool, run, i - 1);
      assert QuietNextAt(pool, run, i - 1);
      var p :| QuietStepOf(pool, run[i - 1], run[i], p);
      StepTame(pool, run[i - 1], run[i], p);
    }
  }

  /** Without a cleanup beside them, calls never attach a configuration or ephemeral volume that is
      missing. */
  lemma OwnVolumesAreThere(pool: string, run: seq<State>, i: nat, p: nat)
    requires SweepFree(pool, run) && i + 1 < |run| && AttachesMissing(run[i], run[i + 1], p)
    ensures !Transient(run[i].calls[p].todo.effect.device.volume)
  {
    EveryStateTame(pool, run, i);
    assert CallSound(run[i], p);
    var c := run[i].calls[p].todo.effect.device.volume;
    assert Transient(c) ==> Bare(run[i].calls[p].todo, c);
  }

  ghost predicate DanglesAt(run: seq<State>, i: nat)
    requires i + 1 < |run|
  {
    Dangles(run[i], run[i + 1])
  }

  lemma StepSources(pool: string, run: seq<State>, i: nat)
    requires IsRun(pool, run) && i + 1 < |run| && SourcesExist(run[i].w)
    ensures SourcesExist(run[i + 1].w) <==> !DanglesAt(run, i)
  {
    EveryStateSound(pool, run, i);
    assert NextAt(pool, run, i);
    DanglesExactly(pool, run[i], run[i + 1]);
  }

  lemma {:induction false} SourcesWithoutDangling(pool: string, run: seq<State>, k: nat)
    requires IsRun(pool, run) && k < |run| && forall i :: 0 <= i < k ==> !DanglesAt(run, i)
    ensures SourcesExist(run[k].w)
  {
    if k > 0 {
      SourcesWithoutDangling(pool, run, k - 1);
      StepSources(pool, run, k - 1);
    }
  }

  ghost predicate SourcesAt(run: seq<State>, i: nat)
    requires i < |run|
  {
    SourcesExist(run[i].w)
  }

  /** In every run, every source exists in all states exactly when no step attaches or writes back a
      device whose volume is missing. */
  lemma SourcesExistExactly(pool: string, run: seq<State>)
    requires IsRun(pool, run)
    ensures (forall i :: 0 <= i < |run| ==> SourcesAt(run, i)) <==> (forall i :: 0 <= i < |run| - 1 ==> !DanglesAt(run, i))
  {
    if forall i :: 0 <= i < |run| ==> SourcesAt(run, i) {
      forall i | 0 <= i < |run| - 1 ensures !DanglesAt(run, i) {
        assert SourcesAt(run, i) && SourcesAt(run, i + 1);
        StepSources(pool, run, i);
      }
    }
    if forall i :: 0 <= i < |run| - 1 ==> !DanglesAt(run, i) {
      forall i | 0 <= i < |run| ensures SourcesAt(run, i) { SourcesWithoutDangling(pool, run, i); }
    }
  }
}
