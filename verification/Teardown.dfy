/** `DeleteVM`: exactly what a success removes, what a failure may leave, and what retries reach. */
module Teardown {
  import opened Names
  import opened World
  import opened Plans
  import opened Safety

  /** The volumes that go with the VM: the sources of its configuration and ephemeral devices. */
  function DisposableSources(w: World, vm: string): set<string> {
    if vm in w.instances then
      set d | d in w.instances[vm].devices && Disposable(d) && w.instances[vm].devices[d].IsDisk() :: w.instances[vm].devices[d].Source()
    else {}
  }

  /** The state without the VM. */
  function Deleted(w: World, vm: string): World {
    w.(instances := w.instances - {vm}, volumes := w.volumes - DisposableSources(w, vm), files := w.files - {vm})
  }

  function SourcesIn(devices: map<string, Device>, order: seq<string>): set<string> {
    set d | d in order && d in devices && Disposable(d) :: devices[d].Source()
  }

  /** The disk loop removes the same volumes in every order. */
  lemma {:induction false} LoopRemoves(w: World, devices: map<string, Device>, order: seq<string>, next: Plan)
    requires Completes(w, DropDisks(devices, order, next))
    ensures var w1 := w.(volumes := w.volumes - SourcesIn(devices, order));
      Completes(w1, next) && Final(w, DropDisks(devices, order, next)) == Final(w1, next)
    decreases order
  {
    if order == [] {
      assert w.volumes - SourcesIn(devices, order) == w.volumes;
    } else {
      var name := order[0];
      var here := if name in devices && Disposable(name) then {devices[name].Source()} else {};
      var w1 := w.(volumes := w.volumes - here);
      assert here == {} ==> w1.volumes == w.volumes;
      LoopRemoves(w1, devices, order[1..], next);
      SourcesSplit(devices, order);
      RemoveBoth(w.volumes, here, SourcesIn(devices, order[1..]));
    }
  }

  lemma SourcesSplit(devices: map<string, Device>, order: seq<string>)
    requires order != []
    ensures SourcesIn(devices, order) ==
      (if order[0] in devices && Disposable(order[0]) then {devices[order[0]].Source()} else {}) + SourcesIn(devices, order[1..])
  {
    assert order == [order[0]] + order[1..];
  }

  /** Whatever the iteration order, a `DeleteVM` that succeeds removes the instance, its agent file
      and the sources of its `config` and `ephemeral` devices, and changes nothing else. */
  lemma DeleteRemovesExactly(w: World, vm: string, order: seq<string>, w': World)
    requires vm in w.instances ==> IsOrder(order, DisksOf(w.instances[vm].devices).Keys)
    requires Runs(w, DeletePlan(w, vm, order), w', Done)
    ensures w' == Deleted(w, vm)
  {
    var plan := DeletePlan(w, vm, order);
    RunsToTheEnd(w, plan, w');
    if vm !in w.instances {
      assert w.instances - {vm} == w.instances && w.volumes - {} == w.volumes;
    } else {
      var devices := DisksOf(w.instances[vm].devices);
      var dropFile := Then(DropFile(vm), Done);
      var teardown := Then(DropInstance(vm), DropDisks(devices, order, dropFile));
      var w1 := if IsStopped(w.instances[vm].status) then w else Apply(w, SetStatus(vm, Stopped));
      assert Completes(w1, teardown) && Final(w, plan) == Final(w1, teardown);
      var w2 := Apply(w1, DropInstance(vm));
      assert w2.instances == w.instances - {vm};
      LoopRemoves(w2, devices, order, dropFile);
      assert SourcesIn(devices, order) == DisposableSources(w, vm);
    }
  }

  // ---- failures and retries

  /** `w1` is `w0` after some of a `DeleteVM`: the VM may be stopped or gone, its file gone, and
      volumes of `loss` gone; nothing else differs. */
  ghost predicate Eroded(w0: World, w1: World, vm: string, loss: set<string>) {
    && w1 == w0.(instances := w1.instances, volumes := w1.volumes, files := w1.files)
    && (w1.files == w0.files || w1.files == w0.files - {vm})
    && (w1.instances == w0.instances - {vm}
        || (vm in w0.instances && exists s :: w1.instances == w0.instances[vm := w0.instances[vm].(status := s)]))
    && (forall n :: n in w1.volumes ==> n in w0.volumes && w1.volumes[n] == w0.volumes[n])
    && (forall n :: n in w0.volumes && n !in loss ==> n in w1.volumes)
  }

  predicate ErodingStep(e: Effect, vm: string, loss: set<string>) {
    || e == DropFile(vm) || e == DropInstance(vm) || e == SetStatus(vm, Stopped)
    || (e.DropVolume? && e.volume in loss)
  }

  predicate OnlyErodes(plan: Plan, vm: string, loss: set<string>) {
    plan.Then? ==> ErodingStep(plan.effect, vm, loss) && OnlyErodes(plan.rest, vm, loss)
  }

  lemma ErodedSelf(w: World, vm: string, loss: set<string>)
    ensures Eroded(w, w, vm, loss)
  {
    if vm in w.instances {
      assert w.instances == w.instances[vm := w.instances[vm].(status := w.instances[vm].status)];
    } else {
      assert w.instances == w.instances - {vm};
    }
  }

  lemma ErodedOnce(w: World, e: Effect, vm: string, loss: set<string>)
    requires ErodingStep(e, vm, loss)
    ensures Eroded(w, Apply(w, e), vm, loss)
  {
    ErodedSelf(w, vm, loss);
  }

  lemma ErodedAgain(w0: World, w1: World, w2: World, vm: string, loss: set<string>)
    requires Eroded(w0, w1, vm, loss) && Eroded(w1, w2, vm, loss)
    ensures Eroded(w0, w2, vm, loss)
  {
    assert w0.files - {vm} - {vm} == w0.files - {vm};
    assert w0.instances - {vm} - {vm} == w0.instances - {vm};
    if vm in w0.instances && w1.instances != w0.instances - {vm} {
      var s :| w1.instances == w0.instances[vm := w0.instances[vm].(status := s)];
      assert w1.instances - {vm} == w0.instances - {vm};
      if w2.instances != w0.instances - {vm} {
        var t :| w2.instances == w1.instances[vm := w1.instances[vm].(status := t)];
        assert w2.instances == w0.instances[vm := w0.instances[vm].(status := t)];
      }
    }
  }

  lemma {:induction false} ErodingRun(w: World, plan: Plan, w': World, rest: Plan, vm: string, loss: set<string>)
    requires OnlyErodes(plan, vm, loss) && Runs(w, plan, w', rest)
    ensures Eroded(w, w', vm, loss)
    decreases plan
  {
    if w' == w && rest == plan {
      ErodedSelf(w, vm, loss);
    } else {
      ErodedOnce(w, plan.effect, vm, loss);
      ErodingRun(Apply(w, plan.effect), plan.rest, w', rest, vm, loss);
      ErodedAgain(w, Apply(w, plan.effect), w', vm, loss);
    }
  }

  lemma {:induction false} LoopErodes(devices: map<string, Device>, order: seq<string>, next: Plan, vm: string, loss: set<string>)
    requires OnlyErodes(next, vm, loss)
    requires forall d :: d in devices && Disposable(d) ==> devices[d].Source() in loss
    ensures OnlyErodes(DropDisks(devices, order, next), vm, loss)
    decreases order
  {
    if order != [] { LoopErodes(devices, order[1..], next, vm, loss); }
  }

  /** Wherever a `DeleteVM` stops, it has touched nothing but this VM. */
  lemma DeleteErodes(w: World, vm: string, order: seq<string>, w': World, rest: Plan, loss: set<string>)
    requires Runs(w, DeletePlan(w, vm, order), w', rest)
    requires DisposableSources(w, vm) <= loss
    ensures Eroded(w, w', vm, loss)
  {
    if vm in w.instances {
      LoopErodes(DisksOf(w.instances[vm].devices), order, Then(DropFile(vm), Done), vm, loss);
    }
    ErodingRun(w, DeletePlan(w, vm, order), w', rest, vm, loss);
  }

  /** One attempt, in some iteration order, stopping anywhere. */
  ghost predicate Attempt(vm: string, w: World, w': World) {
    exists order, rest :: (vm in w.instances ==> IsOrder(order, DisksOf(w.instances[vm].devices).Keys))
      && Runs(w, DeletePlan(w, vm, order), w', rest)
  }

  ghost predicate Attempts(vm: string, states: seq<World>) {
    states != [] && forall i :: 0 < i < |states| ==> Attempt(vm, states[i - 1], states[i])
  }

  lemma {:induction false} AttemptsErode(vm: string, states: seq<World>, i: nat)
    requires Attempts(vm, states) && i < |states|
    ensures Eroded(states[0], states[i], vm, DisposableSources(states[0], vm))
  {
    var loss := DisposableSources(states[0], vm);
    if i == 0 {
      ErodedSelf(states[0], vm, loss);
    } else {
      AttemptsErode(vm, states, i - 1);
      var w, w' := states[i - 1], states[i];
      var order, rest :| (vm in w.instances ==> IsOrder(order, DisksOf(w.instances[vm].devices).Keys))
        && Runs(w, DeletePlan(w, vm, order), w', rest);
      assert DisposableSources(w, vm) <= loss;
      DeleteErodes(w, vm, order, w', rest, loss);
      ErodedAgain(states[0], w, w', vm, loss);
    }
  }

  /** From whatever state any number of failed attempts left, a `DeleteVM` that goes through ends
      with the instance and its file gone, every other VM and every persistent volume untouched. */
  lemma RetriesConverge(vm: string, states: seq<World>, order: seq<string>, w': World)
    requires Attempts(vm, states) && Inv(states[0])
    requires var w := states[|states| - 1];
      && (vm in w.instances ==> IsOrder(order, DisksOf(w.instances[vm].devices).Keys))
      && Runs(w, DeletePlan(w, vm, order), w', Done)
    ensures vm !in w'.instances && vm !in w'.files
    ensures w'.instances == states[0].instances - {vm} && w'.files == states[0].files - {vm}
    ensures forall n :: n in states[0].volumes && n !in DisposableSources(states[0], vm) ==> n in w'.volumes && w'.volumes[n] == states[0].volumes[n]
    ensures forall n :: n in states[0].volumes && !Transient(n) ==> n in w'.volumes && w'.volumes[n] == states[0].volumes[n]
  {
    var w0, w := states[0], states[|states| - 1];
    AttemptsErode(vm, states, |states| - 1);
    DeleteRemovesExactly(w, vm, order, w');
    forall n | n in w0.volumes && !Transient(n) ensures n in w'.volumes && w'.volumes[n] == w0.volumes[n] {
      DisposableIsTransient(w0, vm, n);
      assert DisposableSources(w, vm) <= DisposableSources(w0, vm);
    }
  }

  lemma DisposableIsTransient(w: World, vm: string, n: string)
    requires Inv(w)
    ensures n in DisposableSources(w, vm) ==> Transient(n)
  {
    if n in DisposableSources(w, vm) {
      var d :| d in w.instances[vm].devices && Disposable(d) && w.instances[vm].devices[d].IsDisk() && w.instances[vm].devices[d].Source() == n;
      DeviceNamesDistinct();
      assert w.HasDevice(vm, d);
    }
  }

  /** A further call on a deleted VM cannot be refused and changes nothing. */
  lemma DeleteIsIdempotent(w: World, vm: string, order: seq<string>)
    requires vm !in w.instances && vm !in w.files
    ensures Completes(w, DeletePlan(w, vm, order)) && Final(w, DeletePlan(w, vm, order)) == w
  {
    assert w.files - {vm} == w.files;
  }

  /** What becomes of the VM's own volumes: one that is still there before the last attempt survives
      it exactly when an earlier attempt had already deleted the instance. */
  lemma StrandedExactly(vm: string, states: seq<World>, order: seq<string>, w': World, n: string)
    requires Attempts(vm, states) && vm in states[0].instances && n in DisposableSources(states[0], vm)
    requires var w := states[|states| - 1];
      && (vm in w.instances ==> IsOrder(order, DisksOf(w.instances[vm].devices).Keys))
      && Runs(w, DeletePlan(w, vm, order), w', Done)
    ensures var w := states[|states| - 1];
      n in w'.volumes <==> vm !in w.instances && n in w.volumes
  {
    AttemptsErode(vm, states, |states| - 1);
    DeleteRemovesExactly(states[|states| - 1], vm, order, w');
  }

  /** No attempt after that one deletes a volume or brings the instance back. */
  lemma {:induction false} StrandedVolumesStay(vm: string, states: seq<World>, i: nat, j: nat)
    requires Attempts(vm, states) && i <= j < |states| && vm !in states[i].instances
    ensures vm !in states[j].instances && states[j].volumes == states[i].volumes
    decreases j
  {
    if i < j {
      StrandedVolumesStay(vm, states, i, j - 1);
      AttemptWithout(vm, states[j - 1], states[j]);
    }
  }

  lemma AttemptWithout(vm: string, w: World, w': World)
    requires vm !in w.instances && Attempt(vm, w, w')
    ensures vm !in w'.instances && w'.volumes == w.volumes
  {
    var order, rest :| Runs(w, DeletePlan(w, vm, order), w', rest);
    assert w' == w || Runs(Apply(w, DropFile(vm)), Done, w', rest);
  }

  /** The stop that strands them all: the instance is gone, the disk loop has not begun. */
  lemma StrandingStop(w: World, vm: string, order: seq<string>) returns (w1: World, rest: Plan)
    requires vm in w.instances && IsOrder(order, DisksOf(w.instances[vm].devices).Keys)
    ensures Runs(w, DeletePlan(w, vm, order), w1, rest) && rest != Done && Attempt(vm, w, w1)
    ensures vm !in w1.instances && w1.volumes == w.volumes && w1.instances == w.instances - {vm}
  {
    var loop := DropDisks(DisksOf(w.instances[vm].devices), order, Then(DropFile(vm), Done));
    var wS := if IsStopped(w.instances[vm].status) then w else Apply(w, SetStatus(vm, Stopped));
    w1, rest := Apply(wS, DropInstance(vm)), loop;
    assert w1.instances == w.instances - {vm};
    assert Runs(w1, loop, w1, loop);
    assert Runs(wS, Then(DropInstance(vm), loop), w1, loop);
    LoopNotDone(DisksOf(w.instances[vm].devices), order, Then(DropFile(vm), Done));
    assert IsOrder(order, DisksOf(w.instances[vm].devices).Keys) && Runs(w, DeletePlan(w, vm, order), w1, rest);
  }

  lemma {:induction false} LoopNotDone(devices: map<string, Device>, order: seq<string>, next: Plan)
    requires next.Then?
    ensures DropDisks(devices, order, next).Then?
    decreases order
  {
    if order != [] { LoopNotDone(devices, order[1..], next); }
  }

  /** In a sound state a failed attempt can strand a volume exactly when the VM has one. */
  lemma StrandingWhen(w: World, vm: string, n: string)
    requires Inv(w) && vm in w.instances
    ensures (exists w1 :: Attempt(vm, w, w1) && vm !in w1.instances && n in w1.volumes && !w1.Attached(n) && w.UsedBy(vm, n) && Transient(n))
      <==> n in DisposableSources(w, vm)
  {
    if n in DisposableSources(w, vm) {
      var order := SomeOrder(DisksOf(w.instances[vm].devices).Keys);
      var w1, rest := StrandingStop(w, vm, order);
      DisposableIsTransient(w, vm, n);
      UnusedAfterDrop(w, w1, vm, n);
      OwnVolumeThere(w, vm, n);
    }
    if w.UsedBy(vm, n) && Transient(n) { TransientIsDisposable(w, vm, n); }
  }

  lemma OwnVolumeThere(w: World, vm: string, n: string)
    requires Inv(w) && n in DisposableSources(w, vm)
    ensures n in w.volumes && w.UsedBy(vm, n)
  {
    DisposableIsTransient(w, vm, n);
    var d :| d in w.instances[vm].devices && Disposable(d) && w.instances[vm].devices[d].IsDisk() && w.instances[vm].devices[d].Source() == n;
    DeviceNamesDistinct();
    assert w.HasDevice(vm, d);
  }

  lemma TransientIsDisposable(w: World, vm: string, n: string)
    requires Inv(w) && w.UsedBy(vm, n) && Transient(n)
    ensures n in DisposableSources(w, vm)
  {
    var d :| d in w.instances[vm].devices && w.instances[vm].devices[d].Source() == n;
    assert w.HasDevice(vm, d);
    DeviceNamesDistinct();
  }

  /** In a sound state nothing but a failed call stands in the way of `DeleteVM`. */
  lemma DeleteIsNotRefused(w: World, vm: string, order: seq<string>)
    requires Inv(w) && (vm in w.instances ==> IsOrder(order, DisksOf(w.instances[vm].devices).Keys))
    ensures Completes(w, DeletePlan(w, vm, order))
  {
    if vm in w.instances {
      var teardown := Then(DropInstance(vm), DropDisks(DisksOf(w.instances[vm].devices), order, Then(DropFile(vm), Done)));
      var w1 := if IsStopped(w.instances[vm].status) then w else Apply(w, SetStatus(vm, Stopped));
      assert w1.instances - {vm} == w.instances - {vm};
      LoopIsNotRefused(w, Apply(w1, DropInstance(vm)), vm, order);
      assert Completes(w1, teardown);
    }
  }

  lemma LoopIsNotRefused(w: World, w2: World, vm: string, order: seq<string>)
    requires Inv(w) && vm in w.instances && IsOrder(order, DisksOf(w.instances[vm].devices).Keys)
    requires w2.instances == w.instances - {vm} && w2.volumes == w.volumes
    ensures Completes(w2, DropDisks(DisksOf(w.instances[vm].devices), order, Then(DropFile(vm), Done)))
  {
    var devices := DisksOf(w.instances[vm].devices);
    forall i | 0 <= i < |order|
      ensures order[i] in devices && w.HasDevice(vm, order[i])
      ensures Disposable(order[i]) ==> w2.Unique(devices[order[i]].Source()) && !w2.Attached(devices[order[i]].Source())
    {
      assert order[i] in order;
      if Disposable(order[i]) { FreeAfterDrop(w, w2, vm, order[i]); }
    }
    forall i, j | 0 <= i < j < |order| && Disposable(order[i]) && Disposable(order[j])
      ensures devices[order[i]].Source() != devices[order[j]].Source()
    {
      DisposableIsTransient(w, vm, devices[order[i]].Source());
    }
    LoopNotRefused(w2, devices, order, Then(DropFile(vm), Done));
  }

  lemma FreeAfterDrop(w: World, w2: World, vm: string, d: string)
    requires Inv(w) && w.HasDevice(vm, d) && Disposable(d) && w.instances[vm].devices[d].IsDisk()
    requires w2.instances == w.instances - {vm} && w2.volumes == w.volumes
    ensures var n := w.instances[vm].devices[d].Source(); w2.Unique(n) && !w2.Attached(n)
  {
    var n := w.instances[vm].devices[d].Source();
    DisposableIsTransient(w, vm, n);
    assert n in w2.volumes && w2.Copies(n) == w.Copies(n);
    UnusedAfterDrop(w, w2, vm, n);
  }

  /** Nobody else uses the VM's own volumes. */
  lemma UnusedAfterDrop(w: World, w2: World, vm: string, n: string)
    requires Inv(w) && n in DisposableSources(w, vm) && w2.instances == w.instances - {vm}
    ensures !w2.Attached(n)
  {
    DisposableIsTransient(w, vm, n);
    var d :| d in w.instances[vm].devices && Disposable(d) && w.instances[vm].devices[d].IsDisk() && w.instances[vm].devices[d].Source() == n;
    assert w.HasDevice(vm, d);
    forall v | v in w2.instances ensures !w2.UsedBy(v, n) {
      forall x | x in w2.instances[v].devices ensures w2.instances[v].devices[x].Source() != n {
        assert w.HasDevice(v, x);
      }
    }
  }

  lemma {:induction false} LoopNotRefused(w: World, devices: map<string, Device>, order: seq<string>, next: Plan)
    requires forall w1 :: Completes(w1, next)
    requires forall i :: 0 <= i < |order| ==> order[i] in devices
    requires forall i :: 0 <= i < |order| && Disposable(order[i]) ==>
      w.Unique(devices[order[i]].Source()) && !w.Attached(devices[order[i]].Source())
    requires forall i, j :: 0 <= i < j < |order| && Disposable(order[i]) && Disposable(order[j]) ==>
      devices[order[i]].Source() != devices[order[j]].Source()
    ensures Completes(w, DropDisks(devices, order, next))
    decreases order
  {
    if order != [] {
      var w1 := if Disposable(order[0]) then Apply(w, DropVolume(devices[order[0]].Source())) else w;
      forall i | 0 <= i < |order[1..]| && Disposable(order[1..][i])
        ensures w1.Unique(devices[order[1..][i]].Source()) && !w1.Attached(devices[order[1..][i]].Source())
      {
        var n := devices[order[i + 1]].Source();
        assert w1.Copies(n) == w.Copies(n);
        assert forall v :: w1.UsedBy(v, n) ==> w.UsedBy(v, n);
      }
      LoopNotRefused(w1, devices, order[1..], next);
    }
  }
}
