/** What each CPI call asks for: the ordered mutations, computed from the state the call starts in
    and from the choices it does not control (UUIDs, map iteration order, placement). */
module Plans {
  import opened Names
  import opened World

  predicate IsStopped(status: Status) { status == Stopped || status == Stopping }

  predicate IsStarted(status: Status) { status == Started || status == Starting || status == Running }

  /** Replacing the configuration device of an instance by the new volume. */
  function ReplaceConfig(pool: string, vm: string, instance: Instance, volume: string, next: Plan): Plan {
    var attach := Then(AddDevice(vm, DISK_DEVICE_CONFIG, VolumeDisk(pool, volume)), next);
    if DISK_DEVICE_CONFIG in instance.devices && instance.devices[DISK_DEVICE_CONFIG].IsDisk() then
      var previous := instance.devices[DISK_DEVICE_CONFIG].Source();
      Then(RemoveDevice(vm, DISK_DEVICE_CONFIG),
           if IsStopped(instance.status) then Then(DropVolume(previous), attach) else attach)
    else attach
  }

  /** `writeAgentFileToVM`: the local file is written before anything else is known to work. */
  function WritePlan(w: World, pool: string, vm: string, env: AgentEnv, uuid: string, next: Plan): Plan {
    Then(TakeUuid(uuid), Then(PutFile(vm, env),
      if vm in w.instances then
        Then(MakeVolume(ConfigName(uuid), w.Home(w.instances[vm].location), ConfigImage(env)),
             ReplaceConfig(pool, vm, w.instances[vm], ConfigName(uuid), next))
      else Then(Refuse, next)))
  }

  predicate Disposable(name: string) {
    name == DISK_DEVICE_CONFIG || name == DISK_DEVICE_EPHEMERAL
  }

  /** The disk loop of `DeleteVM`, in the order the map happens to be ranged over. */
  function DropDisks(devices: map<string, Device>, order: seq<string>, next: Plan): Plan {
    if order == [] then next
    else if order[0] in devices && Disposable(order[0]) then
      Then(DropVolume(devices[order[0]].Source()), DropDisks(devices, order[1..], next))
    else DropDisks(devices, order[1..], next)
  }

  function DisksOf(devices: map<string, Device>): map<string, Device> {
    map name | name in devices && devices[name].IsDisk() :: devices[name]
  }

  function DeletePlan(w: World, vm: string, order: seq<string>): Plan {
    var dropFile := Then(DropFile(vm), Done);
    if vm !in w.instances then dropFile
    else
      var teardown := Then(DropInstance(vm), DropDisks(DisksOf(w.instances[vm].devices), order, dropFile));
      if IsStopped(w.instances[vm].status) then teardown else Then(SetStatus(vm, Stopped), teardown)
  }

  /** The slot `AttachDiskV2` chooses, from the paths that occur in the agent settings. */
  function FreeSlot(env: AgentEnv): Option<(DevicePath, string)> {
    if !env.Mentions(SDC) then Some((SDC, DISK_DEVICE_PERSISTENT1))
    else if !env.Mentions(SDD) then Some((SDD, DISK_DEVICE_PERSISTENT2))
    else None
  }

  /** Moving a volume next to the instance that is about to use it. */
  ghost function ColocatePlan(w: World, vm: string, volume: string, next: Plan): Plan {
    if vm in w.instances && w.Unique(volume) then
      var here := LocationOf(w, volume);
      var there := w.instances[vm].location;
      if here == there || here == "" then next
      else Then(CopyVolume(volume, here, there), Then(DropCopy(volume, here), next))
    else Then(Refuse, next)
  }

  ghost function LocationOf(w: World, volume: string): (location: string)
    requires w.Unique(volume)
    ensures location in w.Copies(volume)
    ensures forall l :: l in w.Copies(volume) ==> l == location
  {
    SingleKey(w.Copies(volume));
    var l :| w.Copies(volume).Keys == {l};
    l
  }

  lemma SingleKey<T>(m: map<string, T>)
    requires |m| == 1
    ensures exists l :: m.Keys == {l}
  {
    var l :| l in m.Keys;
    assert |m.Keys - {l}| == 0;
    assert m.Keys == {l};
  }

  ghost function AttachPlan(w: World, pool: string, vm: string, disk: string, uuid: string): Plan {
    if vm !in w.files || FreeSlot(w.files[vm]).None? then Then(Refuse, Done)
    else
      var (path, name) := FreeSlot(w.files[vm]).value;
      var env := w.files[vm];
      var attach := AddDevice(vm, name, VolumeDisk(pool, disk));
      ColocatePlan(w, vm, disk,
        Then(attach, WritePlan(Apply(w, attach), pool, vm, env.(persistent := env.persistent[disk := path]), uuid, Done)))
  }

  /** The device the search of `DetachDeviceBySource` may stop at; empty when there is none. */
  predicate PickedBy(devices: map<string, Device>, disk: string, pick: string) {
    || (pick in devices && devices[pick].Source() == disk)
    || (pick == "" && forall n :: n in devices ==> devices[n].Source() != disk)
  }

  function DetachPlan(w: World, pool: string, vm: string, disk: string, pick: string, uuid: string): Plan {
    if vm !in w.instances then Then(Refuse, Done)
    else
      var detached := if pick == "" then w else Apply(w, RemoveDevice(vm, pick));
      var rewrite := if vm !in w.files then Then(Refuse, Done)
        else var env := w.files[vm];
             WritePlan(detached, pool, vm, env.(persistent := env.persistent - {disk}), uuid, Done);
      if pick == "" then rewrite else Then(RemoveDevice(vm, pick), rewrite)
  }

  function CreateDiskPlan(w: World, vm: string, size: int, uuid: string): Plan {
    Then(TakeUuid(uuid),
      if vm in w.instances then
        Then(MakeVolume(PersistentName(uuid), w.Home(w.instances[vm].location), Block(size, "")), Done)
      else Then(Refuse, Done))
  }

  /** Everything `CreateVMV2` has settled when it calls for the instance, and the UUIDs it will draw. */
  datatype Launch = Launch(vmUuid: string, instance: Instance, ephemeralMB: int, env: AgentEnv,
                           ephemeralUuid: string, configUuid: string)
  {
    function Vm(): string { VmName(vmUuid) }

    function Ephemeral(): string { EphemeralName(ephemeralUuid) }

    function Config(): string { ConfigName(configUuid) }

    function WantsEphemeral(): bool { ephemeralMB > 0 }

    /** The settings as finally written. */
    function FinalEnv(): AgentEnv {
      if WantsEphemeral() then env.(ephemeral := Some(SDB)) else env
    }
  }

  /** Drawing the id and creating the instance. */
  function InstancePlan(launch: Launch, next: Plan): Plan {
    Then(TakeUuid(launch.vmUuid), Then(MakeInstance(launch.Vm(), launch.instance), next))
  }

  /** The block whose failures the deferred rollback does not see. */
  function EphemeralPlan(w: World, pool: string, launch: Launch, next: Plan): Plan {
    if !launch.WantsEphemeral() then next
    else
      Then(TakeUuid(launch.ephemeralUuid),
      Then(MakeVolume(launch.Ephemeral(), w.Home(launch.instance.location), Block(launch.ephemeralMB, "")),
      Then(AddDevice(launch.Vm(), DISK_DEVICE_EPHEMERAL, VolumeDisk(pool, launch.Ephemeral())), next)))
  }

  function WithInstance(w: World, launch: Launch): World {
    w.(instances := w.instances[launch.Vm() := launch.instance])
  }

  /** Writing the agent settings and starting the VM. */
  function StartPlan(w: World, pool: string, launch: Launch): Plan {
    WritePlan(WithInstance(w, launch), pool, launch.Vm(), launch.FinalEnv(), launch.configUuid,
      if IsStarted(launch.instance.status) then Done else Then(SetStatus(launch.Vm(), Running), Done))
  }

  function CreatePlan(w: World, pool: string, launch: Launch): Plan {
    InstancePlan(launch, EphemeralPlan(w, pool, launch, StartPlan(w, pool, launch)))
  }

  /** The volumes the nightly cleanup managed to delete, in the order it came to them. */
  function SweepPlan(chosen: seq<string>): Plan {
    if chosen == [] then Done else Then(DropVolume(chosen[0]), SweepPlan(chosen[1..]))
  }

  /** A stemcell that is not there yet: an image, its alias, and the predeployed VM if asked for. */
  function UploadPlan(alias: string, fingerprint: string, text: string, predeploy: Option<(string, Instance)>): Plan {
    Then(MakeImage(fingerprint, text), Then(MakeAlias(alias, fingerprint),
      match predeploy
      case None => Done
      case Some((vm, instance)) =>
        Then(MakeInstance(vm, instance), Then(SetDescription(vm, "predeploy vm for " + text), Done))))
  }

  function CreateStemcellPlan(uuid: string, existing: string, fingerprint: string, text: string,
                              predeploy: Option<(string, Instance)>): Plan {
    Then(TakeUuid(uuid), if existing != "" then Done else UploadPlan("img-" + uuid, fingerprint, text, predeploy))
  }

  function DeleteStemcellPlan(w: World, alias: string, predeployed: string): Plan {
    var dropImage := if alias in w.aliases then Then(DropImage(w.aliases[alias]), Done) else Then(Refuse, Done);
    if predeployed in w.instances then Then(DropInstance(predeployed), dropImage) else dropImage
  }

  /** One call of the CPI, of the cleanup job, or a change of power state from inside the guest. */
  datatype Op =
    | CreateVM(launch: Launch)
    | DeleteVM(vm: string, order: seq<string>)
    | AttachDisk(vm: string, disk: string, uuid: string)
    | DetachDisk(vm: string, disk: string, pick: string, uuid: string)
    | CreateDisk(vm: string, size: int, uuid: string)
    | DeleteDisk(disk: string)
    | Sweep(chosen: seq<string>)
    | SnapshotDisk(disk: string, uuid: string)
    | DeleteSnapshot(disk: string, snapshot: string)
    | CreateStemcell(uuid: string, existing: string, fingerprint: string, text: string, predeploy: Option<(string, Instance)>)
    | DeleteStemcell(alias: string, predeployed: string)
    | SetVMMetadata(vm: string, text: string)
    | PowerChange(vm: string, status: Status)

  ghost function PlanOf(w: World, pool: string, op: Op): Plan {
    match op
    case CreateVM(launch) => CreatePlan(w, pool, launch)
    case DeleteVM(vm, order) => DeletePlan(w, vm, order)
    case AttachDisk(vm, disk, uuid) => AttachPlan(w, pool, vm, disk, uuid)
    case DetachDisk(vm, disk, pick, uuid) => DetachPlan(w, pool, vm, disk, pick, uuid)
    case CreateDisk(vm, size, uuid) => CreateDiskPlan(w, vm, size, uuid)
    case DeleteDisk(disk) => Then(DropVolume(disk), Done)
    case Sweep(chosen) => SweepPlan(chosen)
    case SnapshotDisk(disk, uuid) => Then(TakeUuid(uuid), Then(AddSnapshot(disk, "snap-" + uuid, disk), Done))
    case DeleteSnapshot(disk, snapshot) => Then(DropSnapshot(disk, snapshot), Done)
    case CreateStemcell(uuid, existing, fingerprint, text, predeploy) =>
      CreateStemcellPlan(uuid, existing, fingerprint, text, predeploy)
    case DeleteStemcell(alias, predeployed) => DeleteStemcellPlan(w, alias, predeployed)
    case SetVMMetadata(vm, text) => Then(SetDescription(vm, text), Done)
    case PowerChange(vm, status) => Then(SetStatus(vm, status), Done)
  }

  /** An instance as the server makes it: placed somewhere, with a root disk and network cards only. */
  predicate FreshInstance(instance: Instance) {
    && instance.location != "" && instance.status == Stopped
    && forall n :: n in instance.devices ==> !ReservedDevice(n) && !instance.devices[n].VolumeDisk?
  }

  /** The agent settings of a VM with no data disk yet. */
  predicate FreshEnv(env: AgentEnv) {
    env.system == Some(SDA) && env.ephemeral == None && env.persistent == map[]
  }

  /** What the callers and the CPI itself guarantee of a call's arguments. */
  ghost predicate ValidOp(w: World, op: Op) {
    match op
    case CreateVM(launch) => FreshInstance(launch.instance) && FreshEnv(launch.env)
    case DeleteVM(vm, order) => vm in w.instances ==> IsOrder(order, DisksOf(w.instances[vm].devices).Keys)
    case AttachDisk(_, disk, _) => ClassOf(disk) == PersistentVolume
    case DetachDisk(vm, disk, pick, _) =>
      ClassOf(disk) == PersistentVolume && (vm in w.instances ==> PickedBy(w.instances[vm].devices, disk, pick))
    case DeleteDisk(disk) => ClassOf(disk) == PersistentVolume
    case Sweep(chosen) => forall n :: n in chosen ==> ClassOf(n) == ConfigVolume
    case CreateStemcell(_, _, _, _, predeploy) => predeploy.Some? ==> FreshInstance(predeploy.value.1)
    case _ => true
  }
}
