/** The local copies of the agent settings, one file for each VM, and the UUID source. */
module AgentFiles {
  import opened Names
  import opened World
  import opened Adapter

  method Read(cloud: Cloud, vm: string) returns (env: Option<AgentEnv>)
    ensures env.Some? ==> vm in cloud.w.files && env.value == cloud.w.files[vm]
  {
    var readable: bool := *;
    return if readable && vm in cloud.w.files then Some(cloud.w.files[vm]) else None;
  }

  /** Deleting a file that is not there is not an error. */
  method Delete(cloud: Cloud, vm: string) returns (ok: bool)
    modifies cloud
    ensures AllOrNothing(old(cloud.w), DropFile(vm), cloud.w, ok)
  {
    ok := cloud.Request(DropFile(vm));
  }

  /** The file is stored first; the image for the configuration volume may still fail. */
  method Write(cloud: Cloud, vm: string, env: AgentEnv) returns (image: Option<AgentEnv>, ghost stored: bool)
    modifies cloud
    ensures AllOrNothing(old(cloud.w), PutFile(vm, env), cloud.w, stored)
    ensures image.Some? ==> stored && image.value == env
  {
    var written := cloud.Request(PutFile(vm, env));
    stored := written;
    var built: bool := *;
    image := if written && built then Some(env) else None;
  }

  method Generate(cloud: Cloud) returns (uuid: Option<string>)
    modifies cloud
    ensures uuid.Some? ==> AllOrNothing(old(cloud.w), TakeUuid(uuid.value), cloud.w, true)
    ensures uuid.None? ==> cloud.w == old(cloud.w)
  {
    var drawn: string := *;
    var ok := cloud.Request(TakeUuid(drawn));
    uuid := if ok then Some(drawn) else None;
  }
}
