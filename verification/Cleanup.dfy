/** The nightly sweep of configuration volumes nothing uses. */
module Cleanup {
  import opened Names
  import opened World
  import opened Plans
  import opened Safety
  import opened SystemRuns
  import opened Lifecycle
  import opened Adapter

  /** The configuration volumes without a user. */
  function Orphans(w: World): set<string> {
    set n | n in w.volumes && ClassOf(n) == ConfigVolume && !w.Attached(n)
  }

  /** The configuration volumes some `config` device has as its source. */
  ghost predicate BehindConfigDevice(w: World, n: string) {
    exists vm :: w.HasDevice(vm, DISK_DEVICE_CONFIG) && w.instances[vm].devices[DISK_DEVICE_CONFIG].Source() == n
  }

  /** The volumes left when a set of them is deleted. */
  function Without(w: World, gone: set<string>): World {
    w.(volumes := w.volumes - gone)
  }

  lemma UsersWithout(w: World, gone: set<string>, n: string)
    ensures Without(w, gone).Attached(n) <==> w.Attached(n)
  {
    assert forall vm :: Without(w, gone).UsedBy(vm, n) <==> w.UsedBy(vm, n);
  }

  lemma CopiesSoundWithout(w: World, gone: set<string>)
    requires CopiesSound(w)
    ensures CopiesSound(Without(w, gone))
  {
    var w1 := Without(w, gone);
    forall m | m in w1.volumes ensures w1.volumes[m] != map[] && (Transient(m) ==> w1.Unique(m)) {
      assert w1.Copies(m) == w.Copies(m);
    }
  }

  /** Deleting orphans one after the other is never refused. */
  lemma {:induction false} SweepDrops(w: World, chosen: seq<string>)
    requires CopiesSound(w) && IsOrder(chosen, set n | n in chosen) && forall n :: n in chosen ==> n in Orphans(w)
    ensures Completes(w, SweepPlan(chosen)) && Final(w, SweepPlan(chosen)) == Without(w, set n | n in chosen)
    decreases chosen
  {
    if chosen == [] {
      assert w.volumes - (set n | n in chosen) == w.volumes;
    } else {
      var n, tail := chosen[0], chosen[1..];
      assert chosen == [n] + tail;
      var w1 := Apply(w, DropVolume(n));
      assert n in chosen;
      assert w1 == Without(w, {n});
      forall m | m in tail ensures m in Orphans(w1) {
        assert m in chosen;
        UsersWithout(w, {n}, m);
      }
      CopiesSoundWithout(w, {n});
      SweepDrops(w1, tail);
      assert w.volumes - {n} - (set m | m in tail) == w.volumes - (set m | m in chosen);
    }
  }

  /** In a sound state the configuration volumes in use are those behind `config` devices. */
  lemma InUseIsBehindConfig(w: World, n: string)
    requires Inv(w) && ClassOf(n) == ConfigVolume
    ensures w.Attached(n) <==> BehindConfigDevice(w, n)
  {
    DeviceNamesDistinct();
    if w.Attached(n) {
      var vm :| vm in w.instances && w.UsedBy(vm, n);
      var d :| d in w.instances[vm].devices && w.instances[vm].devices[d].Source() == n;
      assert w.HasDevice(vm, d);
      assert d == DISK_DEVICE_CONFIG;
    }
    if BehindConfigDevice(w, n) {
      var vm :| w.HasDevice(vm, DISK_DEVICE_CONFIG) && w.instances[vm].devices[DISK_DEVICE_CONFIG].Source() == n;
      AttachedBy(w, vm, DISK_DEVICE_CONFIG);
    }
  }

  /** Whatever calls came before, failed ones included: with none in flight, a sweep that deletes
      everything it finds leaves as configuration volumes exactly the sources of `config` devices.
      It is never refused, and deletes no attached volume and none of another kind. */
  lemma SweepLeavesConfigSources(pool: string, run: seq<State>, chosen: seq<string>)
    requires IsRun(pool, run) && run[|run| - 1].todo.Done?
    requires IsOrder(chosen, Orphans(run[|run| - 1].w))
    ensures var w := run[|run| - 1].w;
      var w' := Final(w, SweepPlan(chosen));
      && Completes(w, SweepPlan(chosen))
      && w' == Without(w, Orphans(w))
      && (forall n :: ClassOf(n) == ConfigVolume ==> (n in w'.volumes <==> BehindConfigDevice(w', n)))
      && (forall n :: n in w.volumes && (w.Attached(n) || ClassOf(n) != ConfigVolume) ==> n in w'.volumes && w'.volumes[n] == w.volumes[n])
  {
    var w := run[|run| - 1].w;
    EveryStateSound(pool, run, |run| - 1);
    assert (set n | n in chosen) == Orphans(w);
    SweepDrops(w, chosen);
    var w' := Without(w, Orphans(w));
    forall n | ClassOf(n) == ConfigVolume ensures n in w'.volumes <==> BehindConfigDevice(w', n) {
      InUseExists(w, n);
      InUseIsBehindConfig(w, n);
      assert BehindConfigDevice(w', n) <==> BehindConfigDevice(w, n) by {
        assert forall vm :: w'.HasDevice(vm, DISK_DEVICE_CONFIG) <==> w.HasDevice(vm, DISK_DEVICE_CONFIG);
      }
    }
  }

  // ---- the job itself

  const EXIT_OK := 0
  const EXIT_USAGE := 3

  /** The orphans among the first `i` names. */
  function OrphansAmong(w: World, order: seq<string>, i: nat): set<string>
    requires i <= |order|
  {
    set n | n in order[..i] && n in Orphans(w)
  }

  lemma OrphansNext(w: World, order: seq<string>, i: nat)
    requires i < |order| && IsOrder(order, w.volumes.Keys)
    ensures order[i] in w.volumes && order[i] !in OrphansAmong(w, order, i)
    ensures OrphansAmong(w, order, i + 1) == OrphansAmong(w, order, i) + if order[i] in Orphans(w) then {order[i]} else {}
  {
    assert order[i] in order && order[..i + 1] == order[..i] + [order[i]];
  }

  lemma {:induction false} SweepMore(chosen: seq<string>, n: string)
    ensures SweepPlan(chosen + [n]) == AndThen(SweepPlan(chosen), Then(DropVolume(n), Done))
    decreases chosen
  {
    if chosen == [] {
      assert [n][1..] == [];
    } else {
      SweepMore(chosen[1..], n);
      assert (chosen + [n])[1..] == chosen[1..] + [n];
    }
  }

  /** One more volume is gone. */
  lemma SweptMore(w: World, chosen: seq<string>, w1: World, n: string, w2: World)
    requires Runs(w, SweepPlan(chosen), w1, Done) && AllOrNothing(w1, DropVolume(n), w2, true)
    ensures Runs(w, SweepPlan(chosen + [n]), w2, Done)
  {
    SweepMore(chosen, n);
    RunsAndThen(w, SweepPlan(chosen), w1, Done, Then(DropVolume(n), Done));
    Advance(w, SweepPlan(chosen + [n]), w1, DropVolume(n), Done);
  }

  predicate Distinct(names: seq<string>) {
    forall i, j :: 0 <= i < j < |names| ==> names[i] != names[j]
  }

  /** What the job has done: the orphans it came to, those it removed, and how many it could not. */
  ghost predicate Swept(w0: World, w: World, order: seq<string>, i: nat, dryRun: bool, processed: nat, removed: nat, failed: nat, chosen: seq<string>)
    requires i <= |order|
  {
    && processed == |OrphansAmong(w0, order, i)|
    && Runs(w0, SweepPlan(chosen), w, Done) && removed == |chosen|
    && Distinct(chosen) && (forall n :: n in chosen ==> n in OrphansAmong(w0, order, i))
    && if dryRun then removed == failed == 0 else
      processed == removed + failed && (failed == 0 ==> forall n :: n in OrphansAmong(w0, order, i) ==> n in chosen)
  }

  /** The job goes past a name that is no orphan, past one in a dry run, past one it could not
      delete, or removes it. */
  lemma SweptNext(w0: World, w: World, order: seq<string>, i: nat, dryRun: bool, processed: nat, removed: nat, failed: nat, chosen: seq<string>)
    requires i < |order| && IsOrder(order, w0.volumes.Keys) && Swept(w0, w, order, i, dryRun, processed, removed, failed, chosen)
    ensures order[i] !in Orphans(w0) ==> Swept(w0, w, order, i + 1, dryRun, processed, removed, failed, chosen)
    ensures order[i] in Orphans(w0) && dryRun ==> Swept(w0, w, order, i + 1, dryRun, processed + 1, removed, failed, chosen)
    ensures order[i] in Orphans(w0) && !dryRun ==> Swept(w0, w, order, i + 1, dryRun, processed + 1, removed, failed + 1, chosen)
  {
    OrphansNext(w0, order, i);
  }

  lemma SweptOne(w0: World, w: World, order: seq<string>, i: nat, processed: nat, removed: nat, failed: nat, chosen: seq<string>, w': World)
    requires i < |order| && IsOrder(order, w0.volumes.Keys) && Swept(w0, w, order, i, false, processed, removed, failed, chosen)
    requires order[i] in Orphans(w0) && AllOrNothing(w, DropVolume(order[i]), w', true)
    ensures Swept(w0, w', order, i + 1, false, processed + 1, removed + 1, failed, chosen + [order[i]])
  {
    OrphansNext(w0, order, i);
    SweptMore(w0, chosen, w, order[i], w');
    DistinctMore(chosen, order[i]);
  }

  lemma DistinctMore(names: seq<string>, n: string)
    requires Distinct(names) && n !in names
    ensures Distinct(names + [n]) && forall m :: m in names + [n] <==> m in names || m == n
  {
  }

  lemma SweptAll(w0: World, w: World, order: seq<string>, dryRun: bool, processed: nat, removed: nat, failed: nat, chosen: seq<string>)
    requires IsOrder(order, w0.volumes.Keys) && Swept(w0, w, order, |order|, dryRun, processed, removed, failed, chosen)
    ensures processed == |Orphans(w0)|
    ensures if dryRun then removed == failed == 0 else processed == removed + failed
    ensures removed == |chosen| && forall n :: n in chosen ==> n in Orphans(w0)
    ensures !dryRun && failed == 0 ==> IsOrder(chosen, Orphans(w0))
  {
    assert order[..|order|] == order;
    assert OrphansAmong(w0, order, |order|) == Orphans(w0);
  }

  lemma SweptNothing(w0: World, order: seq<string>, dryRun: bool)
    ensures Swept(w0, w0, order, 0, dryRun, 0, 0, 0, [])
  {
    assert OrphansAmong(w0, order, 0) == {};
  }

  /** A configuration volume no instance uses. */
  predicate Unused(usage: map<string, nat>, name: string)
    requires name in usage
  {
    DISK_CONFIGURATION_PREFIX <= name && usage[name] == 0
  }

  lemma OrphanTest(w: World, usage: map<string, nat>, name: string)
    requires usage.Keys == w.volumes.Keys && name in usage && (usage[name] == 0 <==> !w.Attached(name))
    ensures Unused(usage, name) <==> name in Orphans(w)
  {
  }

  /** Every volume without a user whose name has the configuration prefix is processed; in a dry run
      none is touched, otherwise each is removed or counted as failed. */
  method CleanUp(cloud: Cloud, dryRun: bool)
    returns (exit: int, processed: nat, removed: nat, failed: nat, ghost chosen: seq<string>)
    modifies cloud
    ensures exit == EXIT_OK || exit == EXIT_USAGE
    ensures exit == EXIT_USAGE ==> cloud.w == old(cloud.w)
    ensures exit == EXIT_OK ==> processed == |Orphans(old(cloud.w))|
    ensures exit == EXIT_OK ==> if dryRun then removed == failed == 0 else processed == removed + failed
    ensures exit == EXIT_OK && !dryRun && failed == 0 ==> IsOrder(chosen, Orphans(old(cloud.w)))
    ensures removed == |chosen| && forall n :: n in chosen ==> n in Orphans(old(cloud.w))
    ensures Runs(old(cloud.w), SweepPlan(chosen), cloud.w, Done)
  {
    exit, processed, removed, failed, chosen := EXIT_OK, 0, 0, 0, [];
    var volumes := cloud.GetStoragePoolVolumeUsage();
    if volumes.None? {
      exit := EXIT_USAGE;
      return;
    }
    processed, removed, failed, chosen := RemoveOrphans(cloud, volumes.value, dryRun);
  }

  /** The loop over the map of volumes. */
  method RemoveOrphans(cloud: Cloud, usage: map<string, nat>, dryRun: bool)
    returns (processed: nat, removed: nat, failed: nat, ghost chosen: seq<string>)
    requires UsageOf(usage, cloud.w)
    modifies cloud
    ensures processed == |Orphans(old(cloud.w))|
    ensures if dryRun then removed == failed == 0 else processed == removed + failed
    ensures !dryRun && failed == 0 ==> IsOrder(chosen, Orphans(old(cloud.w)))
    ensures removed == |chosen| && forall n :: n in chosen ==> n in Orphans(old(cloud.w))
    ensures Runs(old(cloud.w), SweepPlan(chosen), cloud.w, Done)
  {
    processed, removed, failed, chosen := 0, 0, 0, [];
    ghost var w0 := cloud.w;
    var order := RangeOrder(usage.Keys);
    SweptNothing(w0, order, dryRun);
    var i := 0;
    while i < |order|
      invariant 0 <= i <= |order|
      invariant Swept(w0, cloud.w, order, i, dryRun, processed, removed, failed, chosen)
    {
      processed, removed, failed, chosen := Consider(cloud, usage, order, i, dryRun, processed, removed, failed, w0, chosen);
      i := i + 1;
    }
    SweptAll(w0, cloud.w, order, dryRun, processed, removed, failed, chosen);
  }

  /** One round of the loop. */
  method Consider(cloud: Cloud, usage: map<string, nat>, order: seq<string>, i: nat, dryRun: bool, processed: nat, removed: nat, failed: nat,
                  ghost w0: World, ghost chosen: seq<string>)
    returns (processed': nat, removed': nat, failed': nat, ghost chosen': seq<string>)
    requires i < |order| && IsOrder(order, w0.volumes.Keys) && UsageOf(usage, w0)
    requires Swept(w0, cloud.w, order, i, dryRun, processed, removed, failed, chosen)
    modifies cloud
    ensures Swept(w0, cloud.w, order, i + 1, dryRun, processed', removed', failed', chosen')
  {
    var name := order[i];
    assert name in order;
    OrphanTest(w0, usage, name);
    ghost var w1 := cloud.w;
    SweptNext(w0, w1, order, i, dryRun, processed, removed, failed, chosen);
    processed', removed', failed', chosen' := processed, removed, failed, chosen;
    if Unused(usage, name) {
      processed' := processed + 1;
      if !dryRun {
        var ok := cloud.DeleteStoragePoolVolume(name);
        if ok {
          SweptOne(w0, w1, order, i, processed, removed, failed, chosen, cloud.w);
          removed', chosen' := removed + 1, chosen + [name];
        } else {
          failed' := failed + 1;
        }
      }
    }
  }

  /** The usage counts are those of the state. */
  ghost predicate UsageOf(usage: map<string, nat>, w: World) {
    usage.Keys == w.volumes.Keys && forall n :: n in usage ==> (usage[n] == 0 <==> !w.Attached(n))
  }
}
