/** A cleanup beside a settings write: when it finds the new configuration volume, and when it can
    delete it. */
module SweepRace {
  import opened Names
  import opened World
  import opened Plans
  import opened Safety
  import opened SystemRuns
  import opened Cleanup
  import opened Discipline
  import opened Repair
  import Concurrent

  // ---- plans whose last mutation attaches a volume

  /** Nothing in the plan concerns the volume, but that its last mutation attaches it. */
  predicate AttachesLast(plan: Plan, c: string) {
    && plan.Then? && !plan.effect.MakeInstance? && !Touches(plan.effect, c)
    && if plan.rest.Done? then Attaches(plan.effect, c) else !Attaches(plan.effect, c) && AttachesLast(plan.rest, c)
  }

  predicate Touches(e: Effect, c: string) {
    match e
    case MakeVolume(n, _, _) => n == c
    case DropVolume(n) => n == c
    case CopyVolume(n, _, _) => n == c
    case DropCopy(n, _) => n == c
    case AddSnapshot(n, _, _) => n == c
    case DropSnapshot(n, _) => n == c
    case _ => false
  }

  lemma StepUntouched(w: World, e: Effect, c: string)
    requires Enabled(w, e) && !Touches(e, c)
    ensures Apply(w, e).Copies(c) == w.Copies(c)
  {
  }

  lemma StepUnused(w: World, e: Effect, c: string)
    requires Enabled(w, e) && !e.MakeInstance? && c != "" && !w.Attached(c) && !Attaches(e, c)
    ensures !Apply(w, e).Attached(c)
  {
    var w' := Apply(w, e);
    forall vm | vm in w'.instances ensures !w'.UsedBy(vm, c) {
      forall d | d in w'.instances[vm].devices ensures w'.instances[vm].devices[d].Source() != c {
        assert w.HasDevice(vm, d) || (e.AddDevice? && w'.instances[vm].devices[d] == e.device);
        if w.HasDevice(vm, d) { AttachedBy(w, vm, d); }
      }
    }
  }

  lemma StepUses(w: World, e: Effect, c: string)
    requires Enabled(w, e) && Attaches(e, c)
    ensures Apply(w, e).Attached(c)
  {
    AttachedBy(Apply(w, e), e.vm, e.name);
  }

  /** Until such a plan is done the volume is not in use; then it is. */
  lemma {:induction false} AttachedInTheEnd(w: World, plan: Plan, w': World, rest: Plan, c: string)
    requires AttachesLast(plan, c) && c != "" && !w.Attached(c) && Runs(w, plan, w', rest)
    ensures w'.Attached(c) <==> rest == Done
    ensures w'.Copies(c) == w.Copies(c) && (rest != Done ==> AttachesLast(rest, c))
    decreases plan
  {
    if !(w' == w && rest == plan) {
      StepUntouched(w, plan.effect, c);
      if plan.rest.Then? {
        StepUnused(w, plan.effect, c);
        AttachedInTheEnd(Apply(w, plan.effect), plan.rest, w', rest, c);
      } else {
        StepUses(w, plan.effect, c);
      }
    }
  }

  lemma ReplaceAttachesLast(pool: string, vm: string, instance: Instance, c: string)
    requires DISK_DEVICE_CONFIG in instance.devices ==> instance.devices[DISK_DEVICE_CONFIG].Source() != c
    ensures AttachesLast(ReplaceConfig(pool, vm, instance, c, Done), c)
  {
    var attach := Then(AddDevice(vm, DISK_DEVICE_CONFIG, VolumeDisk(pool, c)), Done);
    assert AttachesLast(attach, c);
    if DISK_DEVICE_CONFIG in instance.devices {
      assert AttachesLast(Then(DropVolume(instance.devices[DISK_DEVICE_CONFIG].Source()), attach), c);
    }
  }

  // ---- the stops of a write

  /** A write stops before its volume is made, or with the volume made and the replacement under way. */
  lemma WriteStops(w: World, pool: string, vm: string, env: AgentEnv, uuid: string, w1: World, rest: Plan)
    requires Inv(w) && vm in w.instances && Runs(w, WritePlan(w, pool, vm, env, uuid, Done), w1, rest)
    ensures var c, w3 := ConfigName(uuid), WithNew(w, vm, env, uuid);
      || (w1.volumes == w.volumes && w1.instances == w.instances && rest != Done)
      || (uuid !in w.used && Runs(w3, ReplaceConfig(pool, vm, w.instances[vm], c, Done), w1, rest))
  {
    var make := MakeVolume(ConfigName(uuid), w.Home(w.instances[vm].location), ConfigImage(env));
    StopsOfThree(w, TakeUuid(uuid), PutFile(vm, env), make, ReplaceConfig(pool, vm, w.instances[vm], ConfigName(uuid), Done), w1, rest);
    if uuid !in w.used { NewIs(w, vm, env, uuid, make); }
  }

  lemma StopsOfThree(w: World, e1: Effect, e2: Effect, e3: Effect, next: Plan, w': World, rest: Plan)
    requires Runs(w, Then(e1, Then(e2, Then(e3, next))), w', rest)
    ensures || (w' == w && rest.Then?)
      || (Enabled(w, e1) && rest.Then? && (w' == Apply(w, e1) || w' == Apply(Apply(w, e1), e2)))
      || (Enabled(w, e1) && Enabled(Apply(w, e1), e2) && Runs(Apply(Apply(Apply(w, e1), e2), e3), next, w', rest))
  {
    var plan := Then(e1, Then(e2, Then(e3, next)));
    if !(w' == w && rest == plan) {
      var w1 := Apply(w, e1);
      assert Runs(w1, plan.rest, w', rest);
      if !(w' == w1 && rest == plan.rest) {
        var w2 := Apply(w1, e2);
        assert Runs(w2, plan.rest.rest, w', rest);
      }
    }
  }

  /** The world with the new volume. */
  function WithNew(w: World, vm: string, env: AgentEnv, uuid: string): World
    requires vm in w.instances
  {
    w.(used := w.used + {uuid}, files := w.files[vm := env],
       volumes := w.volumes[ConfigName(uuid) := map[w.Home(w.instances[vm].location) := Volume(ConfigImage(env), map[])]])
  }

  lemma NewIs(w: World, vm: string, env: AgentEnv, uuid: string, make: Effect)
    requires Inv(w) && vm in w.instances && uuid !in w.used
    requires make == MakeVolume(ConfigName(uuid), w.Home(w.instances[vm].location), ConfigImage(env))
    ensures Apply(Apply(Apply(w, TakeUuid(uuid)), PutFile(vm, env)), make) == WithNew(w, vm, env, uuid)
  {
    VolumeNames(uuid);
    assert ConfigName(uuid) !in w.volumes;
    assert w.Copies(ConfigName(uuid)) == map[];
  }

  /** The new volume before the replacement: one copy, no user. */
  lemma NewIsOrphan(w: World, vm: string, env: AgentEnv, uuid: string)
    requires Inv(w) && vm in w.instances && uuid !in w.used
    ensures ConfigName(uuid) !in w.volumes && ClassOf(ConfigName(uuid)) == ConfigVolume
    ensures ConfigName(uuid) in WithNew(w, vm, env, uuid).volumes && WithNew(w, vm, env, uuid).Unique(ConfigName(uuid))
    ensures !w.Attached(ConfigName(uuid)) && !WithNew(w, vm, env, uuid).Attached(ConfigName(uuid))
    ensures DISK_DEVICE_CONFIG in w.instances[vm].devices ==> w.instances[vm].devices[DISK_DEVICE_CONFIG].Source() != ConfigName(uuid)
  {
    VolumeNames(uuid);
    var c := ConfigName(uuid);
    assert c !in w.volumes;
    InUseExists(w, c);
    assert WithNew(w, vm, env, uuid).Attached(c) ==> w.Attached(c);
    if w.HasDevice(vm, DISK_DEVICE_CONFIG) { AttachedBy(w, vm, DISK_DEVICE_CONFIG); }
  }

  /** The cleanup finds the new volume of a write exactly at the stops where it exists and the write is
      not done. */
  lemma FoundExactly(w: World, pool: string, vm: string, env: AgentEnv, uuid: string, w1: World, rest: Plan)
    requires Inv(w) && vm in w.instances && uuid !in w.used
    requires Runs(w, WritePlan(w, pool, vm, env, uuid, Done), w1, rest)
    ensures ConfigName(uuid) in Orphans(w1) <==> ConfigName(uuid) in w1.volumes && rest != Done
  {
    NewIsOrphan(w, vm, env, uuid);
    WriteStops(w, pool, vm, env, uuid, w1, rest);
    if ConfigName(uuid) in w1.volumes {
      ReplaceAttachesLast(pool, vm, w.instances[vm], ConfigName(uuid));
      AttachedInTheEnd(WithNew(w, vm, env, uuid), ReplaceConfig(pool, vm, w.instances[vm], ConfigName(uuid), Done), w1, rest, ConfigName(uuid));
    }
  }

  /** Found at one stop of the write, the volume can be deleted at a later one exactly as long as the
      write is not done, that is, as long as nobody uses the volume. */
  lemma DeletableExactly(w: World, pool: string, vm: string, env: AgentEnv, uuid: string, w1: World, rest1: Plan, w2: World, rest2: Plan)
    requires Inv(w) && vm in w.instances && uuid !in w.used
    requires Runs(w, WritePlan(w, pool, vm, env, uuid, Done), w1, rest1) && ConfigName(uuid) in Orphans(w1)
    requires Runs(w1, rest1, w2, rest2)
    ensures Enabled(w2, DropVolume(ConfigName(uuid))) <==> rest2 != Done
    ensures w2.Attached(ConfigName(uuid)) <==> rest2 == Done
  {
    NewIsOrphan(w, vm, env, uuid);
    WriteStops(w, pool, vm, env, uuid, w1, rest1);
    var w3, replace := WithNew(w, vm, env, uuid), ReplaceConfig(pool, vm, w.instances[vm], ConfigName(uuid), Done);
    Continue(w3, replace, w1, rest1, w2, rest2);
    ReplaceAttachesLast(pool, vm, w.instances[vm], ConfigName(uuid));
    DeletableUntilDone(w3, replace, w2, rest2, ConfigName(uuid));
  }

  lemma DeletableUntilDone(w3: World, plan: Plan, w2: World, rest2: Plan, c: string)
    requires AttachesLast(plan, c) && c != "" && !w3.Attached(c) && w3.Unique(c) && Runs(w3, plan, w2, rest2)
    ensures Enabled(w2, DropVolume(c)) <==> rest2 != Done
    ensures w2.Attached(c) <==> rest2 == Done
  {
    AttachedInTheEnd(w3, plan, w2, rest2, c);
  }

  /** Such a stop is always possible, and the volume is then gone while the write still asks for it. */
  lemma SweepTakesNewVolume(w: World, pool: string, vm: string, env: AgentEnv, uuid: string) returns (w1: World, rest: Plan, w2: World)
    requires Inv(w) && vm in w.instances && uuid !in w.used
    ensures Runs(w, WritePlan(w, pool, vm, env, uuid, Done), w1, rest) && ConfigName(uuid) in Orphans(w1)
    ensures Runs(w1, SweepPlan([ConfigName(uuid)]), w2, Done)
    ensures ConfigName(uuid) !in w2.volumes && AttachesLast(rest, ConfigName(uuid))
  {
    NewIsOrphan(w, vm, env, uuid);
    rest := ReplaceConfig(pool, vm, w.instances[vm], ConfigName(uuid), Done);
    w1 := WithNew(w, vm, env, uuid);
    NewIsReached(w, pool, vm, env, uuid);
    ReplaceAttachesLast(pool, vm, w.instances[vm], ConfigName(uuid));
    w2 := SweepOne(w1, ConfigName(uuid));
  }

  lemma NewIsReached(w: World, pool: string, vm: string, env: AgentEnv, uuid: string)
    requires Inv(w) && vm in w.instances && uuid !in w.used
    ensures Runs(w, WritePlan(w, pool, vm, env, uuid, Done), WithNew(w, vm, env, uuid),
                 ReplaceConfig(pool, vm, w.instances[vm], ConfigName(uuid), Done))
  {
    var make := MakeVolume(ConfigName(uuid), w.Home(w.instances[vm].location), ConfigImage(env));
    NewIs(w, vm, env, uuid, make);
    NewConfigFits(w, Apply(Apply(w, TakeUuid(uuid)), PutFile(vm, env)), vm, env, uuid);
    AfterThree(w, TakeUuid(uuid), PutFile(vm, env), make, ReplaceConfig(pool, vm, w.instances[vm], ConfigName(uuid), Done));
  }

  lemma AfterThree(w: World, e1: Effect, e2: Effect, e3: Effect, rest: Plan)
    requires Enabled(w, e1) && Enabled(Apply(w, e1), e2) && Enabled(Apply(Apply(w, e1), e2), e3)
    ensures Runs(w, Then(e1, Then(e2, Then(e3, rest))), Apply(Apply(Apply(w, e1), e2), e3), rest)
  {
    var w2 := Apply(Apply(w, e1), e2);
    assert Runs(Apply(w2, e3), rest, Apply(w2, e3), rest);
    assert Runs(w2, Then(e3, rest), Apply(w2, e3), rest);
    assert Runs(Apply(w, e1), Then(e2, Then(e3, rest)), Apply(w2, e3), rest);
  }

  lemma SweepOne(w: World, c: string) returns (w': World)
    requires c in Orphans(w) && w.Unique(c)
    ensures Runs(w, SweepPlan([c]), w', Done) && c !in w'.volumes
  {
    w' := Apply(w, DropVolume(c));
    assert [c][1..] == [] && SweepPlan([]) == Done;
    assert SweepPlan([c]) == Then(DropVolume(c), Done);
    Advance(w, SweepPlan([c]), w, DropVolume(c), Done);
  }

  // ---- with any number of calls in flight

  /** A configuration volume that some call is still to attach, and that exists, is always found. */
  lemma ArmedIsFound(s: Concurrent.State, p: nat, c: string)
    requires Concurrent.Sound(s) && p in s.calls && Armed(s.calls[p].todo, c)
    requires ClassOf(c) == ConfigVolume && c in s.w.volumes
    ensures c in Orphans(s.w)
  {
    assert Concurrent.ArmedSound(s, p, c);
    if s.w.Attached(c) {
      var vm :| vm in s.w.instances && s.w.UsedBy(vm, c);
      Concurrent.UserIsHome(s, vm, c);
    }
  }
}
