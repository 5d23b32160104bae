/** The state the CPI works on, and the single server-side mutations its calls are made of. */
module World {
  import opened Names

  /** The device paths the CPI hands out as disk hints. */
  datatype DevicePath = SDA | SDB | SDC | SDD

  datatype Network = Network(kind: string, ip: string, netmask: string, gateway: string,
                             dns: seq<string>, defaults: seq<string>, target: string)

  /** The part of the agent settings no disk operation changes. `mentioned` holds the device
      paths that happen to occur in the JSON text of these fields. */
  datatype AgentSettings = AgentSettings(agentId: string, vm: string, networks: map<string, Network>,
                                         mentioned: set<DevicePath>)

  datatype AgentEnv = AgentEnv(settings: AgentSettings, system: Option<DevicePath>,
                               ephemeral: Option<DevicePath>, persistent: map<string, DevicePath>)
  {
    /** Whether the path occurs anywhere in the serialised settings. */
    predicate Mentions(path: DevicePath) {
      || path in settings.mentioned || system == Some(path) || ephemeral == Some(path)
      || path in persistent.Values
    }
  }

  datatype Device =
    | Nic(name: string, parent: string, ipv4: Option<string>)
    | RootDisk(pool: string)
    | VolumeDisk(pool: string, volume: string)
  {
    /** The attribute "type" is "disk". */
    predicate IsDisk() { !Nic? }

    /** The attribute "source", empty when it is missing. */
    function Source(): string { if VolumeDisk? then volume else "" }
  }

  datatype Status = Stopped | Stopping | Started | Starting | Running | Frozen | Error

  datatype Instance = Instance(location: string, status: Status, devices: map<string, Device>,
                               description: string, image: string, config: map<string, string>)

  /** The content of a configuration volume is the encoding of one agent environment. */
  datatype Content = Block(size: int, data: string) | ConfigImage(env: AgentEnv)

  datatype Snapshot = Snapshot(content: Content, description: string)

  datatype Volume = Volume(content: Content, snapshots: map<string, Snapshot>)

  datatype Image = Image(description: Option<string>)

  datatype World = World(
    remotePool: bool,                              // a shared pool (such as ceph) reports no location
    instances: map<string, Instance>,
    volumes: map<string, map<string, Volume>>,     // name, then location
    images: map<string, Image>,                    // by fingerprint
    aliases: map<string, string>,                  // alias to fingerprint
    files: map<string, AgentEnv>,                  // the local agent files, by VM
    used: set<string>)                             // the UUIDs handed out so far
  {
    predicate HasDevice(vm: string, name: string) {
      vm in instances && name in instances[vm].devices
    }

    /** Some device of the instance has the volume as its source. */
    predicate UsedBy(vm: string, volume: string) {
      && vm in instances
      && exists d :: d in instances[vm].devices && instances[vm].devices[d].Source() == volume
    }

    predicate Attached(volume: string) {
      exists vm :: vm in instances && UsedBy(vm, volume)
    }

    function Copies(volume: string): map<string, Volume> {
      if volume in volumes then volumes[volume] else map[]
    }

    /** A request that names no location finds a volume only when it has exactly one copy. */
    predicate Unique(volume: string) {
      |Copies(volume)| == 1
    }

    /** Where a volume created for an instance at `location` ends up. */
    function Home(location: string): string {
      if remotePool then "" else location
    }
  }

  function WithCopies(volumes: map<string, map<string, Volume>>, name: string, copies: map<string, Volume>): map<string, map<string, Volume>> {
    if copies == map[] then volumes - {name} else volumes[name := copies]
  }

  /** One mutation: of the server, of the local agent files, or of the UUID source. `Refuse`
      stands for a call that cannot succeed. */
  datatype Effect =
    | Refuse
    | TakeUuid(uuid: string)
    | PutFile(vm: string, env: AgentEnv)
    | DropFile(vm: string)
    | MakeInstance(vm: string, instance: Instance)
    | DropInstance(vm: string)
    | SetStatus(vm: string, status: Status)
    | SetDescription(vm: string, text: string)
    | AddDevice(vm: string, name: string, device: Device)
    | RemoveDevice(vm: string, name: string)
    | MakeVolume(volume: string, location: string, content: Content)
    | DropVolume(volume: string)
    | CopyVolume(volume: string, source: string, destination: string)
    | DropCopy(volume: string, location: string)
    | AddSnapshot(volume: string, snapshot: string, text: string)
    | DropSnapshot(volume: string, snapshot: string)
    | MakeImage(fingerprint: string, text: string)
    | MakeAlias(alias: string, fingerprint: string)
    | DropImage(fingerprint: string)

  /** The server's contract: what it refuses outright. Any call may fail besides. */
  predicate Enabled(w: World, e: Effect) {
    match e
    case Refuse => false
    case TakeUuid(uuid) => uuid !in w.used
    case PutFile(_, _) => true
    case DropFile(_) => true
    case MakeInstance(vm, instance) => vm !in w.instances && instance.location != ""
    case DropInstance(vm) => vm in w.instances
    case SetStatus(vm, _) => vm in w.instances
    case SetDescription(vm, _) => vm in w.instances
    case AddDevice(vm, name, _) => vm in w.instances && name !in w.instances[vm].devices
    case RemoveDevice(vm, name) => w.HasDevice(vm, name)
    case MakeVolume(volume, location, _) => location !in w.Copies(volume)
    case DropVolume(volume) => w.Unique(volume) && !w.Attached(volume)
    case CopyVolume(volume, source, destination) => source in w.Copies(volume) && destination !in w.Copies(volume)
    case DropCopy(volume, location) => location in w.Copies(volume) && !w.Attached(volume)
    case AddSnapshot(volume, snapshot, _) =>
      w.Unique(volume) && forall l :: l in w.Copies(volume) ==> snapshot !in w.Copies(volume)[l].snapshots
    case DropSnapshot(volume, snapshot) =>
      w.Unique(volume) && forall l :: l in w.Copies(volume) ==> snapshot in w.Copies(volume)[l].snapshots
    case MakeImage(fingerprint, _) => fingerprint !in w.images
    case MakeAlias(alias, fingerprint) => alias !in w.aliases && fingerprint in w.images
    case DropImage(fingerprint) => fingerprint in w.images
  }

  function WithDevices(w: World, vm: string, devices: map<string, Device>): World
    requires vm in w.instances
  {
    w.(instances := w.instances[vm := w.instances[vm].(devices := devices)])
  }

  /** The state after the mutation; a refused one leaves everything as it was. */
  function Apply(w: World, e: Effect): World {
    if !Enabled(w, e) then w else
    match e
    case Refuse => w
    case TakeUuid(uuid) => w.(used := w.used + {uuid})
    case PutFile(vm, env) => w.(files := w.files[vm := env])
    case DropFile(vm) => w.(files := w.files - {vm})
    case MakeInstance(vm, instance) => w.(instances := w.instances[vm := instance])
    case DropInstance(vm) => w.(instances := w.instances - {vm})
    case SetStatus(vm, status) => w.(instances := w.instances[vm := w.instances[vm].(status := status)])
    case SetDescription(vm, text) => w.(instances := w.instances[vm := w.instances[vm].(description := text)])
    case AddDevice(vm, name, device) => WithDevices(w, vm, w.instances[vm].devices[name := device])
    case RemoveDevice(vm, name) => WithDevices(w, vm, w.instances[vm].devices - {name})
    case MakeVolume(volume, location, content) =>
      w.(volumes := w.volumes[volume := w.Copies(volume)[location := Volume(content, map[])]])
    case DropVolume(volume) => w.(volumes := w.volumes - {volume})
    case CopyVolume(volume, source, destination) =>
      w.(volumes := w.volumes[volume := w.Copies(volume)[destination := w.Copies(volume)[source]]])
    case DropCopy(volume, location) => w.(volumes := WithCopies(w.volumes, volume, w.Copies(volume) - {location}))
    case AddSnapshot(volume, snapshot, text) =>
      w.(volumes := w.volumes[volume := map l | l in w.Copies(volume) ::
        var v := w.Copies(volume)[l]; v.(snapshots := v.snapshots[snapshot := Snapshot(v.content, text)])])
    case DropSnapshot(volume, snapshot) =>
      w.(volumes := w.volumes[volume := map l | l in w.Copies(volume) ::
        var v := w.Copies(volume)[l]; v.(snapshots := v.snapshots - {snapshot})])
    case MakeImage(fingerprint, text) => w.(images := w.images[fingerprint := Image(Some(text))])
    case MakeAlias(alias, fingerprint) => w.(aliases := w.aliases[alias := fingerprint])
    case DropImage(fingerprint) =>
      w.(images := w.images - {fingerprint}, aliases := map a | a in w.aliases && w.aliases[a] != fingerprint :: w.aliases[a])
  }

  /** What one CPI call asks the server to do, in order. */
  datatype Plan = Done | Then(effect: Effect, rest: Plan)

  /** The plan was carried out from `w` up to the point where `rest` was still to do. A failed
      call, a refused call and a crash all leave such a state. */
  ghost predicate Runs(w: World, plan: Plan, w': World, rest: Plan)
    decreases plan
  {
    || (w' == w && rest == plan)
    || (plan.Then? && Enabled(w, plan.effect) && Runs(Apply(w, plan.effect), plan.rest, w', rest))
  }

  /** The plan can stop in this state. */
  ghost predicate CanStopAt(w: World, plan: Plan, w': World) {
    exists rest :: Runs(w, plan, w', rest)
  }

  /** Every mutation of the plan goes through. */
  ghost predicate Completes(w: World, plan: Plan)
    decreases plan
  {
    plan.Then? ==> Enabled(w, plan.effect) && Completes(Apply(w, plan.effect), plan.rest)
  }

  ghost function Final(w: World, plan: Plan): World
    decreases plan
  {
    if plan.Done? then w else Final(Apply(w, plan.effect), plan.rest)
  }

  /** A run that leaves nothing to do is a completed one, and conversely. */
  lemma {:induction false} RunsToTheEnd(w: World, plan: Plan, w': World)
    ensures Runs(w, plan, w', Done) <==> Completes(w, plan) && w' == Final(w, plan)
    decreases plan
  {
    if plan.Then? {
      RunsToTheEnd(Apply(w, plan.effect), plan.rest, w');
    }
  }

  /** A completed plan, one mutation further on. */
  lemma StepOff(w: World, plan: Plan)
    requires plan.Then? && Completes(w, plan)
    ensures Enabled(w, plan.effect) && Completes(Apply(w, plan.effect), plan.rest)
    ensures Final(w, plan) == Final(Apply(w, plan.effect), plan.rest)
  {
  }

  lemma OneBefore(w: World, e: Effect, rest: Plan)
    requires Enabled(w, e) && Completes(Apply(w, e), rest)
    ensures Completes(w, Then(e, rest))
  {
  }

  /** One more call went through. */
  lemma {:induction false} Advance(w: World, plan: Plan, w1: World, e: Effect, rest: Plan)
    requires Runs(w, plan, w1, Then(e, rest)) && Enabled(w1, e)
    ensures Runs(w, plan, Apply(w1, e), rest)
    decreases plan
  {
    if w1 == w && plan == Then(e, rest) {
      assert Runs(Apply(w, e), rest, Apply(w1, e), rest);
    } else {
      Advance(Apply(w, plan.effect), plan.rest, w1, e, rest);
    }
  }

  /** A run of what was left continues the run so far. */
  lemma {:induction false} Continue(w: World, plan: Plan, w1: World, plan1: Plan, w2: World, rest: Plan)
    requires Runs(w, plan, w1, plan1) && Runs(w1, plan1, w2, rest)
    ensures Runs(w, plan, w2, rest)
    decreases plan
  {
    if !(w1 == w && plan1 == plan) {
      Continue(Apply(w, plan.effect), plan.rest, w1, plan1, w2, rest);
    }
  }

  /** One plan after the other. */
  function AndThen(plan: Plan, next: Plan): Plan {
    if plan.Done? then next else Then(plan.effect, AndThen(plan.rest, next))
  }

  /** A run of the first plan is the beginning of a run of both. */
  lemma {:induction false} RunsAndThen(w: World, plan: Plan, w': World, rest: Plan, next: Plan)
    requires Runs(w, plan, w', rest)
    ensures Runs(w, AndThen(plan, next), w', AndThen(rest, next))
    decreases plan
  {
    if !(w' == w && rest == plan) {
      RunsAndThen(Apply(w, plan.effect), plan.rest, w', rest, next);
    }
  }
}
