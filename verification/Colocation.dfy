/** Moving a volume next to an instance: copy first, delete afterwards. */
module Colocation {
  import opened World
  import opened Plans

  predicate Movable(w: World, vm: string, volume: string) {
    vm in w.instances && w.Unique(volume)
  }

  /** Nothing to do: the volume is where the instance is, or on shared storage. */
  ghost predicate InPlace(w: World, vm: string, volume: string)
    requires Movable(w, vm, volume)
  {
    LocationOf(w, volume) == w.instances[vm].location || LocationOf(w, volume) == ""
  }

  ghost function TheCopy(w: World, volume: string): Volume
    requires w.Unique(volume)
  {
    w.Copies(volume)[LocationOf(w, volume)]
  }

  ghost function Colocated(w: World, vm: string, volume: string): World
    requires Movable(w, vm, volume)
  {
    if InPlace(w, vm, volume) then w
    else w.(volumes := w.volumes[volume := map[w.instances[vm].location := TheCopy(w, volume)]])
  }

  /** The two mutations, one by one. */
  lemma MoveSteps(w: World, vm: string, volume: string)
    requires Movable(w, vm, volume) && !InPlace(w, vm, volume)
    ensures var here, there := LocationOf(w, volume), w.instances[vm].location;
      var w1 := Apply(w, CopyVolume(volume, here, there));
      && Enabled(w, CopyVolume(volume, here, there))
      && w1 == w.(volumes := w.volumes[volume := map[here := TheCopy(w, volume), there := TheCopy(w, volume)]])
      && (Enabled(w1, DropCopy(volume, here)) <==> !w.Attached(volume))
      && (!w.Attached(volume) ==> Apply(w1, DropCopy(volume, here)) == Colocated(w, vm, volume))
  {
    var here, there := LocationOf(w, volume), w.instances[vm].location;
    Copied(w, volume, here, there, TheCopy(w, volume));
    SecondStep(w, Apply(w, CopyVolume(volume, here, there)), volume, here, there, TheCopy(w, volume));
  }

  lemma Copied(w: World, volume: string, here: string, there: string, v: Volume)
    requires w.Unique(volume) && here == LocationOf(w, volume) && there != here && v == w.Copies(volume)[here]
    ensures Enabled(w, CopyVolume(volume, here, there))
    ensures Apply(w, CopyVolume(volume, here, there)) == w.(volumes := w.volumes[volume := map[here := v, there := v]])
  {
    assert w.Copies(volume) == map[here := v];
    assert map[here := v][there := v] == map[here := v, there := v];
  }

  lemma SecondStep(w: World, w1: World, volume: string, here: string, there: string, v: Volume)
    requires here != there && w1 == w.(volumes := w.volumes[volume := map[here := v, there := v]])
    ensures Enabled(w1, DropCopy(volume, here)) <==> !w.Attached(volume)
    ensures !w.Attached(volume) ==> Apply(w1, DropCopy(volume, here)) == w.(volumes := w.volumes[volume := map[there := v]])
  {
    assert w1.Attached(volume) <==> w.Attached(volume) by {
      assert forall vm :: w1.UsedBy(vm, volume) <==> w.UsedBy(vm, volume);
    }
    assert map[here := v, there := v] - {here} == map[there := v];
    assert there in map[there := v];
    assert w.volumes[volume := map[here := v, there := v]][volume := map[there := v]] == w.volumes[volume := map[there := v]];
  }

  /** Success means exactly one copy, complete with its snapshots, where the instance is (or the
      untouched one on shared storage), and nothing else changed. */
  lemma ColocateMoves(w: World, vm: string, volume: string, next: Plan)
    requires Completes(w, ColocatePlan(w, vm, volume, next))
    ensures Movable(w, vm, volume) && (InPlace(w, vm, volume) || !w.Attached(volume))
    ensures Completes(Colocated(w, vm, volume), next)
    ensures Final(w, ColocatePlan(w, vm, volume, next)) == Final(Colocated(w, vm, volume), next)
    ensures !InPlace(w, vm, volume) ==> Colocated(w, vm, volume).Copies(volume) == map[w.instances[vm].location := TheCopy(w, volume)]
  {
    var plan := ColocatePlan(w, vm, volume, next);
    if Movable(w, vm, volume) && !InPlace(w, vm, volume) {
      MoveSteps(w, vm, volume);
      StepOff(w, plan);
      StepOff(Apply(w, plan.effect), plan.rest);
    }
  }

  /** In every intermediate and failed state there is a complete copy, every copy is complete, and
      no other volume and no instance has changed. */
  lemma ColocateNeverLoses(w: World, vm: string, volume: string, w': World, rest: Plan)
    requires w.Unique(volume) && Runs(w, ColocatePlan(w, vm, volume, Done), w', rest)
    ensures w'.Copies(volume) != map[]
    ensures forall l :: l in w'.Copies(volume) ==> w'.Copies(volume)[l] == TheCopy(w, volume)
    ensures w' == w.(volumes := w'.volumes) && w'.volumes - {volume} == w.volumes - {volume}
  {
    var plan := ColocatePlan(w, vm, volume, Done);
    if vm in w.instances && !InPlace(w, vm, volume) {
      MoveStops(w, vm, volume, w', rest);
      if w' != w {
        var here := LocationOf(w, volume);
        assert here in w'.Copies(volume) || w.instances[vm].location in w'.Copies(volume);
      }
    }
  }

  /** The three states a move can stop in. */
  lemma MoveStops(w: World, vm: string, volume: string, w': World, rest: Plan)
    requires Movable(w, vm, volume) && !InPlace(w, vm, volume) && Runs(w, ColocatePlan(w, vm, volume, Done), w', rest)
    ensures var here, there := LocationOf(w, volume), w.instances[vm].location;
      || w' == w
      || w' == w.(volumes := w.volumes[volume := map[here := TheCopy(w, volume), there := TheCopy(w, volume)]])
      || w' == w.(volumes := w.volumes[volume := map[there := TheCopy(w, volume)]])
  {
    MoveSteps(w, vm, volume);
    var plan := ColocatePlan(w, vm, volume, Done);
    if w' != w {
      var w1 := Apply(w, plan.effect);
      assert Runs(w1, plan.rest, w', rest);
      if w' != w1 { assert Runs(Apply(w1, plan.rest.effect), Done, w', rest); }
    }
  }

  /** The move can go through exactly when there is nothing to move or no instance uses the volume. */
  lemma ColocateCompletesWhen(w: World, vm: string, volume: string)
    ensures Completes(w, ColocatePlan(w, vm, volume, Done))
      <==> Movable(w, vm, volume) && (InPlace(w, vm, volume) || !w.Attached(volume))
  {
    var plan := ColocatePlan(w, vm, volume, Done);
    if Movable(w, vm, volume) && !InPlace(w, vm, volume) {
      MoveSteps(w, vm, volume);
      TwoStepsComplete(w, plan.effect, plan.rest.effect);
    }
  }

  lemma TwoStepsComplete(w: World, e1: Effect, e2: Effect)
    ensures Completes(w, Then(e1, Then(e2, Done))) <==> Enabled(w, e1) && Enabled(Apply(w, e1), e2)
  {
    assert Completes(Apply(w, e1), Then(e2, Done)) <==> Enabled(Apply(w, e1), e2);
  }

  /** A volume can end up with two copies exactly when it is to be moved at all. */
  lemma DoublingWhen(w: World, vm: string, volume: string)
    requires Movable(w, vm, volume)
    ensures (exists w' :: CanStopAt(w, ColocatePlan(w, vm, volume, Done), w') && |w'.Copies(volume)| == 2) <==> !InPlace(w, vm, volume)
  {
    var plan := ColocatePlan(w, vm, volume, Done);
    if InPlace(w, vm, volume) {
      assert plan == Done;
    } else {
      var w' := DoublingStop(w, vm, volume);
      assert CanStopAt(w, plan, w');
    }
  }

  /** The stop between copy and deletion. */
  lemma DoublingStop(w: World, vm: string, volume: string) returns (w': World)
    requires Movable(w, vm, volume) && !InPlace(w, vm, volume)
    ensures var plan := ColocatePlan(w, vm, volume, Done);
      plan.Then? && Runs(w, plan, w', plan.rest)
    ensures w'.Copies(volume).Keys == {LocationOf(w, volume), w.instances[vm].location} && |w'.Copies(volume)| == 2
  {
    MoveSteps(w, vm, volume);
    var plan := ColocatePlan(w, vm, volume, Done);
    w' := Apply(w, plan.effect);
    assert Runs(w', plan.rest, w', plan.rest);
    assert w'.Copies(volume).Keys == {LocationOf(w, volume), w.instances[vm].location};
    assert |{LocationOf(w, volume), w.instances[vm].location}| == 2;
  }

  /** A volume still in use somewhere else ends up with two copies: the copy is made, the deletion
      of the original is refused. */
  lemma AttachedVolumeIsDoubled(w: World, vm: string, volume: string, w': World, rest: Plan)
    requires Movable(w, vm, volume) && !InPlace(w, vm, volume) && w.Attached(volume)
    requires Runs(w, ColocatePlan(w, vm, volume, Done), w', rest)
    ensures if rest == ColocatePlan(w, vm, volume, Done) then w' == w
      else rest == ColocatePlan(w, vm, volume, Done).rest && w'.Copies(volume).Keys == {LocationOf(w, volume), w.instances[vm].location}
  {
    MoveSteps(w, vm, volume);
    var plan := ColocatePlan(w, vm, volume, Done);
    assert (w' == w && rest == plan) || Runs(Apply(w, plan.effect), plan.rest, w', rest);
  }
}
