/** What every reachable state keeps: no dangling disk device, no configuration or ephemeral volume
    used twice, whatever call fails and wherever a process stops. */
module Safety {
  import opened Names
  import opened World
  import opened Plans

  /** Every disk device with a source names an existing volume. */
  ghost predicate SourcesExist(w: World) {
    forall vm, d :: w.HasDevice(vm, d) && w.instances[vm].devices[d].VolumeDisk? ==>
      w.instances[vm].devices[d].volume in w.volumes
  }

  /** A configuration or ephemeral volume is the source of at most one device of all instances. */
  ghost predicate SingleUse(w: World) {
    forall vm1, d1, vm2, d2 |
      && w.HasDevice(vm1, d1) && w.HasDevice(vm2, d2)
      && w.instances[vm1].devices[d1].Source() == w.instances[vm2].devices[d2].Source()
      && Transient(w.instances[vm1].devices[d1].Source()) :: vm1 == vm2 && d1 == d2
  }

  /** Device names and volume prefixes go together. */
  predicate NamedByUse(name: string, device: Device) {
    if device.VolumeDisk? then
      || (name == DISK_DEVICE_CONFIG && ClassOf(device.volume) == ConfigVolume)
      || (name == DISK_DEVICE_EPHEMERAL && ClassOf(device.volume) == EphemeralVolume)
      || ((name == DISK_DEVICE_PERSISTENT1 || name == DISK_DEVICE_PERSISTENT2) && ClassOf(device.volume) == PersistentVolume)
    else !ReservedDevice(name)
  }

  ghost predicate DevicesNamed(w: World) {
    forall vm, d :: w.HasDevice(vm, d) ==> NamedByUse(d, w.instances[vm].devices[d])
  }

  /** No volume bears a UUID that is still to come. */
  ghost predicate VolumesIssued(w: World) {
    forall n :: n in w.volumes && ClassOf(n) != ForeignVolume ==> UuidOf(n) in w.used
  }

  ghost predicate CopiesSound(w: World) {
    forall n :: n in w.volumes ==> w.volumes[n] != map[] && (Transient(n) ==> w.Unique(n))
  }

  ghost predicate FilesIssued(w: World) {
    forall vm :: vm in w.files ==> VmUuidOf(vm) in w.used
  }

  ghost predicate Located(w: World) {
    forall vm :: vm in w.instances ==> w.instances[vm].location != ""
  }

  ghost predicate Inv(w: World) {
    && SourcesExist(w) && SingleUse(w) && DevicesNamed(w) && VolumesIssued(w) && CopiesSound(w)
    && FilesIssued(w) && Located(w)
  }

  /** What the CPI respects when it asks for a mutation; the server checks none of this. */
  ghost predicate Lawful(w: World, e: Effect) {
    match e
    case PutFile(vm, _) => VmUuidOf(vm) in w.used
    case MakeInstance(_, instance) => FreshInstance(instance)
    case AddDevice(vm, name, device) =>
      && device.VolumeDisk? && NamedByUse(name, device) && device.volume in w.volumes
      && (Transient(device.volume) ==> !w.Attached(device.volume))
    case MakeVolume(volume, _, _) => ClassOf(volume) != ForeignVolume && UuidOf(volume) in w.used && volume !in w.volumes
    case CopyVolume(volume, _, _) => ClassOf(volume) == PersistentVolume
    case DropCopy(volume, location) => ClassOf(volume) == PersistentVolume && w.Copies(volume).Keys != {location}
    case _ => true
  }

  ghost predicate AllLawful(w: World, plan: Plan)
    decreases plan
  {
    plan.Then? && Enabled(w, plan.effect) ==> Lawful(w, plan.effect) && AllLawful(Apply(w, plan.effect), plan.rest)
  }

  lemma AttachedBy(w: World, vm: string, d: string)
    requires w.HasDevice(vm, d)
    ensures w.Attached(w.instances[vm].devices[d].Source())
  {
    assert w.UsedBy(vm, w.instances[vm].devices[d].Source());
  }

  lemma DevicesKeep(w: World, e: Effect)
    requires Inv(w) && Enabled(w, e) && Lawful(w, e)
    ensures DevicesNamed(Apply(w, e)) && Located(Apply(w, e))
  {
    var w' := Apply(w, e);
    forall vm, d | w'.HasDevice(vm, d)
      ensures NamedByUse(d, w'.instances[vm].devices[d])
    {
      assert (e.MakeInstance? && vm == e.vm) || (e.AddDevice? && vm == e.vm && d == e.name) || w.HasDevice(vm, d);
    }
  }

  lemma SourcesKeep(w: World, e: Effect)
    requires Inv(w) && Enabled(w, e) && Lawful(w, e)
    ensures SourcesExist(Apply(w, e))
  {
    var w' := Apply(w, e);
    forall vm, d | w'.HasDevice(vm, d) && w'.instances[vm].devices[d].VolumeDisk?
      ensures w'.instances[vm].devices[d].volume in w'.volumes
    {
      assert (e.AddDevice? && vm == e.vm && d == e.name) || w.HasDevice(vm, d);
      if w.HasDevice(vm, d) { AttachedBy(w, vm, d); }
    }
  }

  /** A device of the new state is an old one, or the one just added. */
  lemma DeviceOrigin(w: World, e: Effect, vm: string, d: string)
    requires Enabled(w, e) && Lawful(w, e) && Apply(w, e).HasDevice(vm, d)
    requires Transient(Apply(w, e).instances[vm].devices[d].Source())
    ensures var n := Apply(w, e).instances[vm].devices[d].Source();
      || (w.HasDevice(vm, d) && w.instances[vm].devices[d].Source() == n && w.Attached(n)
          && (e.AddDevice? ==> e.device.Source() != n))
      || (e.AddDevice? && vm == e.vm && d == e.name && e.device.Source() == n && !w.Attached(n))
  {
    if w.HasDevice(vm, d) { AttachedBy(w, vm, d); }
  }

  lemma SingleUseKeeps(w: World, e: Effect)
    requires Inv(w) && Enabled(w, e) && Lawful(w, e)
    ensures SingleUse(Apply(w, e))
  {
    var w' := Apply(w, e);
    forall vm1, d1, vm2, d2 |
      && w'.HasDevice(vm1, d1) && w'.HasDevice(vm2, d2)
      && w'.instances[vm1].devices[d1].Source() == w'.instances[vm2].devices[d2].Source()
      && Transient(w'.instances[vm1].devices[d1].Source())
      ensures vm1 == vm2 && d1 == d2
    {
      DeviceOrigin(w, e, vm1, d1);
      DeviceOrigin(w, e, vm2, d2);
    }
  }

  lemma NamesKeep(w: World, e: Effect)
    requires Inv(w) && Enabled(w, e) && Lawful(w, e)
    ensures VolumesIssued(Apply(w, e)) && FilesIssued(Apply(w, e))
  {
    var w' := Apply(w, e);
    forall n | n in w'.volumes && ClassOf(n) != ForeignVolume
      ensures UuidOf(n) in w'.used
    {
      assert n in w.volumes || (e.MakeVolume? && n == e.volume);
    }
  }

  lemma CopiesKeep(w: World, e: Effect)
    requires Inv(w) && Enabled(w, e) && Lawful(w, e)
    ensures CopiesSound(Apply(w, e))
  {
    var w' := Apply(w, e);
    forall n | n in w'.volumes
      ensures w'.volumes[n] != map[] && (Transient(n) ==> w'.Unique(n))
    {
      CopiesOf(w, e, n);
    }
  }

  lemma CopiesOf(w: World, e: Effect, n: string)
    requires CopiesSound(w) && Enabled(w, e) && Lawful(w, e) && n in Apply(w, e).volumes
    ensures Apply(w, e).volumes[n] != map[] && (Transient(n) ==> Apply(w, e).Unique(n))
  {
    var w' := Apply(w, e);
    match e
    case MakeVolume(volume, location, content) =>
      if n == volume { assert w.Copies(n) == map[]; assert w'.Copies(n).Keys == {location}; }
    case CopyVolume(volume, _, destination) =>
      if n == volume { assert destination in w'.Copies(n); }
    case AddSnapshot(volume, _, _) =>
      if n == volume { assert w'.Copies(n).Keys == w.Copies(n).Keys; }
    case DropSnapshot(volume, _) =>
      if n == volume { assert w'.Copies(n).Keys == w.Copies(n).Keys; }
    case _ =>
  }

  /** One lawful mutation keeps the invariant. */
  lemma StepKeepsInv(w: World, e: Effect)
    requires Inv(w) && Enabled(w, e) && Lawful(w, e)
    ensures Inv(Apply(w, e))
  {
    DevicesKeep(w, e);
    SourcesKeep(w, e);
    SingleUseKeeps(w, e);
    NamesKeep(w, e);
    CopiesKeep(w, e);
  }

  /** Wherever a lawful plan stops, the invariant holds. */
  lemma {:induction false} RunKeepsInv(w: World, plan: Plan, w': World, rest: Plan)
    requires Inv(w) && AllLawful(w, plan) && Runs(w, plan, w', rest)
    ensures Inv(w')
    decreases plan
  {
    if !(w' == w && rest == plan) {
      StepKeepsInv(w, plan.effect);
      RunKeepsInv(Apply(w, plan.effect), plan.rest, w', rest);
    }
  }
}
