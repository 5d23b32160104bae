/** How the stages of `CreateVMV2` fit together, and where it can stop. */
module Provisioning {
  import opened Names
  import opened World
  import opened Plans
  import opened Safety
  import opened SystemRuns
  import opened Placement
  import opened Creation
  import opened Rollback
  import opened Adapter
  import opened Steps

  /** The global configuration, as far as the calls use it. */
  datatype Config = Config(target: string, network: string, assignment: string, instanceConfig: map<string, Settings>,
                           lockEnabled: bool, predeploy: bool)

  /** What the cloud properties of a VM say; what they leave out comes from the configuration. */
  datatype VMProps = VMProps(target: Option<string>, network: Option<string>, ephemeralMB: int)

  /** Where the part of `CreateVMV2` after the creation of the instance ended: the location could not
      be read; a request of the ephemeral block failed; one of writing and starting failed; not at all. */
  datatype Stage = LocationUnread | BlockUnfinished | StartUnfinished | Finished

  /** The failures the deferred rollback sees. */
  predicate SeenByRollback(stage: Stage) {
    stage == LocationUnread || stage == StartUnfinished
  }

  ghost function ProvisionPlan(w: World, pool: string, launch: Launch): Plan {
    EphemeralPlan(w, pool, launch, StartPlan(w, pool, launch))
  }

  lemma EphemeralAndThen(w: World, pool: string, launch: Launch, next: Plan)
    ensures EphemeralPlan(w, pool, launch, next) == AndThen(EphemeralPlan(w, pool, launch, Done), next)
  {
    var plan := EphemeralPlan(w, pool, launch, Done);
    if plan.Then? {
      ThenAndThen(plan.effect, plan.rest, next);
      ThenAndThen(plan.rest.effect, plan.rest.rest, next);
      ThenAndThen(plan.rest.rest.effect, Done, next);
    }
  }

  lemma ProvisionHasSteps(w: World, pool: string, launch: Launch)
    ensures ProvisionPlan(w, pool, launch).Then? && StartPlan(w, pool, launch).Then?
  {
  }

  /** The block is where it is, with the start still to come. */
  lemma EphemeralRuns(w: World, pool: string, launch: Launch, w1: World, rest: Plan) returns (todo: Plan)
    requires Runs(AfterInstance(w, launch), EphemeralPlan(AfterInstance(w, launch), pool, launch, Done), w1, rest)
    ensures Runs(AfterInstance(w, launch), EphemeralPlan(w, pool, launch, Done), w1, rest)
    ensures Runs(AfterInstance(w, launch), ProvisionPlan(w, pool, launch), w1, todo) && todo.Then?
    ensures rest == Done ==> todo == StartPlan(w, pool, launch)
  {
    var next := StartPlan(w, pool, launch);
    ProvisionHasSteps(w, pool, launch);
    assert EphemeralPlan(AfterInstance(w, launch), pool, launch, Done) == EphemeralPlan(w, pool, launch, Done);
    RunsAndThen(AfterInstance(w, launch), EphemeralPlan(w, pool, launch, Done), w1, rest, next);
    EphemeralAndThen(w, pool, launch, next);
    todo := AndThen(rest, next);
  }

  /** The block is done. */
  lemma EphemeralReached(w: World, pool: string, launch: Launch, w1: World)
    requires Inv(w) && FreshInstance(launch.instance) && InstanceMade(w, launch)
    requires Runs(AfterInstance(w, launch), EphemeralPlan(w, pool, launch, Done), w1, Done)
    ensures Completes(AfterInstance(w, launch), EphemeralPlan(w, pool, launch, Done))
    ensures w1 == AfterEphemeral(w, pool, launch) && Inv(w1)
    ensures launch.Vm() in w1.instances && w1.instances[launch.Vm()].status == Stopped
  {
    RunsToTheEnd(AfterInstance(w, launch), EphemeralPlan(w, pool, launch, Done), w1);
    EphemeralBuilds(w, pool, launch, Done);
    AfterEphemeralInv(w, pool, launch);
  }

  lemma StartIsWrite(w: World, pool: string, launch: Launch)
    requires FreshInstance(launch.instance)
    ensures launch.Vm() in AfterEphemeral(w, pool, launch).instances
    ensures StartPlan(w, pool, launch)
      == WritePlan(AfterEphemeral(w, pool, launch), pool, launch.Vm(), launch.FinalEnv(), launch.configUuid, Then(SetStatus(launch.Vm(), Running), Done))
  {
    DeviceNamesDistinct();
    SamePlan(WithInstance(w, launch), AfterEphemeral(w, pool, launch), pool, launch.Vm(), launch.FinalEnv(), launch.configUuid,
             Then(SetStatus(launch.Vm(), Running), Done));
  }

  /** The write and the start, after the block. */
  lemma StartRuns(w: World, pool: string, launch: Launch, w1: World, rest: Plan)
    requires FreshInstance(launch.instance) && InstanceMade(w, launch)
    requires Completes(AfterInstance(w, launch), EphemeralPlan(w, pool, launch, Done))
    requires Runs(AfterInstance(w, launch), EphemeralPlan(w, pool, launch, Done), AfterEphemeral(w, pool, launch), Done)
    requires Runs(AfterEphemeral(w, pool, launch),
      WritePlan(AfterEphemeral(w, pool, launch), pool, launch.Vm(), launch.FinalEnv(), launch.configUuid, Then(SetStatus(launch.Vm(), Running), Done)), w1, rest)
    ensures Runs(AfterInstance(w, launch), ProvisionPlan(w, pool, launch), w1, rest)
    ensures Runs(AfterEphemeral(w, pool, launch), StartPlan(w, pool, launch), w1, rest) && RollbackPoint(w, pool, launch, w1)
  {
    StartIsWrite(w, pool, launch);
    var todo := EphemeralRuns(w, pool, launch, AfterEphemeral(w, pool, launch), Done);
    Continue(AfterInstance(w, launch), ProvisionPlan(w, pool, launch), AfterEphemeral(w, pool, launch), todo, w1, rest);
  }

  /** The same settings with other UUIDs for the volumes. */
  predicate SameLaunch(a: Launch, b: Launch) {
    b == a.(ephemeralUuid := b.ephemeralUuid, configUuid := b.configUuid)
  }

  /** How `CreateVMV2` can end. */
  datatype Ending = NoInstance | Complete | Shadowed | RolledBack

  /** What is not under the control of `CreateVMV2`: the kind of network, the stemcell's description
      and the order in which the networks are ranged over. */
  datatype Circumstances = Circumstances(managed: bool, description: string, order: seq<string>)

  /** The settings are a correct outcome of the two loops over maps. */
  ghost predicate Settles(config: Config, networks: map<string, Network>, initial: string, parent: string, c: Circumstances,
                          plan: NetworkPlan, settings: Settings) {
    && OrderOf(c.order, networks)
    && CardsInOrder(plan.devices, networks, c.order, |c.order|, c.managed, parent)
    && AllReported(plan.networks, c.managed, config.assignment, networks)
    && (if c.managed then CommonTarget(plan.target, Targets(initial, networks)) else plan.target == initial)
    && Possible(config.instanceConfig, c.description, Some(settings))
  }

  lemma SettledIsFresh(pool: string, config: Config, networks: map<string, Network>, initial: string, parent: string, c: Circumstances,
                       plan: NetworkPlan, settings: Settings, instance: Instance)
    requires Settles(config, networks, initial, parent, c, plan, settings)
    requires instance.devices == plan.devices[DEVICE_ROOT := RootDisk(pool)] && instance.location != "" && instance.status == Stopped
    ensures FreshInstance(instance)
  {
    CardsAreABijection(plan.devices, networks, c.order, c.managed, parent);
    DeviceNamesDistinct();
    forall n | n in instance.devices ensures !ReservedDevice(n) && !instance.devices[n].VolumeDisk? {
      assert n == DEVICE_ROOT || IsNic(plan.devices, n);
    }
  }

  /** A launch that came to nothing. */
  function Unlaunched(uuid: string): Launch {
    Launch(uuid, Instance("none", Stopped, map[], "", "", map[]), 0,
           AgentEnv(AgentSettings("", "", map[], {}), Some(SDA), None, map[]), "", "")
  }

  /** Nothing but an id was used up. */
  lemma NothingLaunched(w: World, pool: string, uuid: Option<string>, w1: World) returns (rest: Plan)
    requires uuid.Some? ==> AllOrNothing(w, TakeUuid(uuid.value), w1, true)
    requires uuid.None? ==> w1 == w
    ensures Performs(pool, Op.CreateVM(Unlaunched(if uuid.Some? then uuid.value else "")), w, w1, rest)
    ensures w1 == w.(used := w1.used) && rest.Then?
  {
    var plan := CreatePlan(w, pool, Unlaunched(if uuid.Some? then uuid.value else ""));
    rest := if uuid.Some? then plan.rest else plan;
    assert Runs(w1, rest, w1, rest);
  }

  lemma InstanceLaunched(w: World, pool: string, launch: Launch, w1: World, rest: Plan)
    requires InstanceMade(w, launch) && FreshInstance(launch.instance) && FreshEnv(launch.env)
    requires Runs(AfterInstance(w, launch), ProvisionPlan(w, pool, launch), w1, rest)
    ensures Performs(pool, Op.CreateVM(launch), w, w1, rest)
  {
    var plan := CreatePlan(w, pool, launch);
    var wU := Apply(w, TakeUuid(launch.vmUuid));
    assert Apply(wU, plan.rest.effect) == AfterInstance(w, launch);
    assert Runs(wU, plan.rest, w1, rest);
  }

  /** What a failure inside the ephemeral block leaves. */
  predicate InstanceLeft(w: World, launch: Launch, w1: World) {
    && w1 == w.(instances := w.instances[launch.Vm() := launch.instance], volumes := w1.volumes, used := w1.used)
    && launch.Vm() !in w1.files
    && (w1.volumes == w.volumes
        || (launch.Ephemeral() !in w.volumes && !w1.Attached(launch.Ephemeral())
            && w1.volumes == w.volumes[launch.Ephemeral() := Blank(w, launch)]))
  }

  lemma UnseenLeaves(w: World, pool: string, launch: Launch, w1: World)
    requires Inv(w) && FreshInstance(launch.instance) && Unseen(w, pool, launch, w1)
    ensures InstanceLeft(w, launch, w1) && launch.ephemeralMB > 0
  {
    var rest :| rest != Done && Runs(AfterInstance(w, launch), EphemeralPlan(w, pool, launch, Done), w1, rest);
    ShadowedFailure(w, pool, launch, w1, rest);
  }

  lemma InstanceAtRollback(w: World, pool: string, launch: Launch, w1: World)
    requires Inv(w) && FreshInstance(launch.instance) && RollbackPoint(w, pool, launch, w1)
    ensures launch.Vm() in w1.instances
  {
    if w1 != AfterInstance(w, launch) { var k := StageAtRollback(w, pool, launch, w1); }
  }
}
