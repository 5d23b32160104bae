/** The adapter between the CPI and the server: each call reads what it needs and asks for one or
    two mutations. Any request may fail, and a failed one has no effect. */
module Adapter {
  import opened Names
  import opened World
  import opened Plans
  import opened Etag
  import opened Stemcells

  /** Reading an instance. The etag stands for the value of its writable part. */
  datatype Fetch = Present(instance: Instance, etag: Writable) | NotFound | Unreadable

  function WritableOf(instance: Instance): Writable {
    Writable(instance.devices, instance.description)
  }

  /** The state once an update of the instance went through. */
  function Updated(w: World, vm: string, writable: Writable): World
    requires vm in w.instances
  {
    w.(instances := w.instances[vm := w.instances[vm].(devices := writable.devices, description := writable.description)])
  }

  /** An update with an etag is what the concurrent model of these calls says it is. */
  lemma UpdatePerforms(w: World, vm: string, call: Call)
    requires vm in w.instances
    ensures var s := WritableOf(w.instances[vm]);
      var e := match call case Attach(name, device) => AddDevice(vm, name, device) case Describe(text) => SetDescription(vm, text);
      && (Accepts(s, call) <==> Enabled(w, e))
      && (Accepts(s, call) ==> Updated(w, vm, Perform(s, call)) == Apply(w, e))
  {
  }

  /** What a single mutation did: all of it, or nothing. */
  predicate AllOrNothing(w: World, e: Effect, w': World, ok: bool) {
    && (ok ==> Enabled(w, e))
    && w' == if ok then Apply(w, e) else w
  }

  class Cloud {
    var w: World

    constructor (w: World)
      ensures this.w == w
    {
      this.w := w;
    }

    // ---- requests to the server

    method IsConnected() returns (ok: bool)
    {
      ok := *;
    }

    method Request(e: Effect) returns (ok: bool)
      modifies this
      ensures AllOrNothing(old(w), e, w, ok)
    {
      var reached: bool := *;
      ok := reached && Enabled(w, e);
      if ok {
        w := Apply(w, e);
      }
    }

    method GetInstance(vm: string) returns (r: Fetch)
      ensures r.Present? ==> vm in w.instances && r.instance == w.instances[vm] && r.etag == WritableOf(r.instance)
      ensures r.NotFound? ==> vm !in w.instances
    {
      var reached: bool := *;
      if !reached { return Unreadable; }
      return if vm in w.instances then Present(w.instances[vm], WritableOf(w.instances[vm])) else NotFound;
    }

    /** No etag is the empty one, which matches everything. */
    method UpdateInstance(vm: string, writable: Writable, etag: Option<Writable>) returns (ok: bool)
      modifies this
      ensures ok ==> vm in old(w).instances && (etag.Some? ==> etag.value == WritableOf(old(w).instances[vm]))
      ensures w == if ok then Updated(old(w), vm, writable) else old(w)
    {
      var reached: bool := *;
      ok := reached && vm in w.instances && (etag.Some? ==> etag.value == WritableOf(w.instances[vm]));
      if ok {
        w := Updated(w, vm, writable);
      }
    }

    // ---- instances

    /** The server places the instance; a requested target is where it ends up. */
    method CreateInstance(vm: string, alias: string, target: string, devices: map<string, Device>, config: map<string, string>)
      returns (ok: bool, ghost instance: Instance)
      modifies this
      ensures AllOrNothing(old(w), MakeInstance(vm, instance), w, ok)
      ensures instance.location != "" && (target != "" ==> instance.location == target)
      ensures instance.status == Stopped && instance.devices == devices && instance.config == config
      ensures alias in old(w).aliases ==> instance.image == old(w).aliases[alias]
      ensures ok ==> alias in old(w).aliases
    {
      var location := target;
      if target == "" {
        location :| location != "" by { assert "member" != ""; }
      }
      var made := Instance(location, Stopped, devices, "", if alias in w.aliases then w.aliases[alias] else "", config);
      instance := made;
      ok := false;
      if alias in w.aliases {
        ok := Request(MakeInstance(vm, made));
      }
    }

    method DeleteInstance(vm: string) returns (ok: bool)
      modifies this
      ensures AllOrNothing(old(w), DropInstance(vm), w, ok)
    {
      ok := Request(DropInstance(vm));
    }

    /** A missing instance is told apart from a failed request. */
    method GetInstanceLocation(vm: string) returns (location: Option<string>, missing: bool)
      ensures location.Some? ==> vm in w.instances && location.value == w.instances[vm].location
      ensures missing ==> location.None? && vm !in w.instances
    {
      var r := GetInstance(vm);
      match r
      case Present(instance, _) => return Some(instance.location), false;
      case NotFound => return None, true;
      case Unreadable => return None, false;
    }

    method UpdateInstanceDescription(vm: string, text: string) returns (ok: bool)
      modifies this
      ensures AllOrNothing(old(w), SetDescription(vm, text), w, ok)
    {
      var r := GetInstance(vm);
      if !r.Present? { return false; }
      ok := UpdateInstance(vm, WritableOf(r.instance.(description := text)), Some(r.etag));
    }

    method IsInstanceStopped(vm: string) returns (stopped: Option<bool>)
      ensures stopped.Some? ==> vm in w.instances
      ensures stopped.Some? ==> (stopped.value <==> w.instances[vm].status == Stopped || w.instances[vm].status == Stopping)
    {
      var r := GetInstance(vm);
      return if r.Present? then Some(IsStopped(r.instance.status)) else None;
    }

    /** Nothing is asked of an instance that is already where it should be. */
    method SetInstanceAction(vm: string, start: bool) returns (ok: bool)
      modifies this
      ensures ok ==> vm in old(w).instances
      ensures !ok ==> w == old(w)
      ensures ok && start ==> var status := old(w).instances[vm].status;
        w == if status == Started || status == Starting || status == Running then old(w) else Apply(old(w), SetStatus(vm, Running))
      ensures ok && !start ==> var status := old(w).instances[vm].status;
        w == if status == Stopped || status == Stopping then old(w) else Apply(old(w), SetStatus(vm, Stopped))
    {
      var r := GetInstance(vm);
      if !r.Present? { return false; }
      ok := true;
      if !AtState(r.instance.status, start) {
        ok := Request(SetStatus(vm, StateOf(start)));
      }
    }

    // ---- devices

    method AttachDevice(vm: string, name: string, device: Device) returns (ok: bool)
      modifies this
      ensures AllOrNothing(old(w), AddDevice(vm, name, device), w, ok)
    {
      var r := GetInstance(vm);
      if !r.Present? || name in r.instance.devices { return false; }
      ok := UpdateInstance(vm, Writable(r.instance.devices[name := device], r.instance.description), Some(r.etag));
    }

    /** A device that is not there is as good as detached. */
    method DetachDeviceByName(vm: string, name: string) returns (ok: bool)
      modifies this
      ensures ok ==> vm in old(w).instances
      ensures w == if ok then Apply(old(w), RemoveDevice(vm, name)) else old(w)
    {
      var r := GetInstance(vm);
      if !r.Present? { return false; }
      ok := true;
      if name in r.instance.devices {
        ok := UpdateInstance(vm, Writable(r.instance.devices - {name}, r.instance.description), None);
      }
    }

    /** The first device found with that source goes; with none, nothing changes. */
    method DetachDeviceBySource(vm: string, source: string) returns (ok: bool, ghost pick: string)
      modifies this
      ensures vm in old(w).instances ==> PickedBy(old(w).instances[vm].devices, source, pick)
      ensures ok ==> vm in old(w).instances
      ensures w == if ok && pick != "" then Apply(old(w), RemoveDevice(vm, pick)) else old(w)
    {
      pick := if vm in w.instances then SomePick(w.instances[vm].devices, source) else "";
      var r := GetInstance(vm);
      if !r.Present? { return false, pick; }
      var devices := r.instance.devices;
      var order := RangeOrder(devices.Keys);
      var deviceName := "";
      var i := 0;
      while i < |order|
        invariant 0 <= i <= |order| && deviceName == ""
        invariant forall j :: 0 <= j < i ==> order[j] in devices && devices[order[j]].Source() != source
      {
        assert order[i] in order;
        if devices[order[i]].Source() == source {
          deviceName := order[i];
          break;
        }
        i := i + 1;
      }
      pick := deviceName;
      if deviceName == "" {
        return true, pick;
      }
      ok := UpdateInstance(vm, Writable(devices - {deviceName}, r.instance.description), None);
    }

    method GetDevices(vm: string) returns (devices: Option<map<string, Device>>)
      ensures devices.Some? ==> vm in w.instances && devices.value == w.instances[vm].devices
    {
      var r := GetInstance(vm);
      return if r.Present? then Some(r.instance.devices) else None;
    }

    // ---- volumes

    /** Without a target the server chooses the place. */
    method CreateStoragePoolVolume(target: string, volume: string, size: int) returns (ok: bool, ghost at: string)
      modifies this
      ensures AllOrNothing(old(w), MakeVolume(volume, at, Block(size, "")), w, ok)
      ensures target != "" ==> at == old(w).Home(target)
    {
      var place := w.Home(target);
      if target == "" { place := *; }
      at := place;
      ok := Request(MakeVolume(volume, place, Block(size, "")));
    }

    method CreateStoragePoolVolumeFromISO(target: string, volume: string, env: AgentEnv) returns (ok: bool, ghost at: string)
      modifies this
      ensures AllOrNothing(old(w), MakeVolume(volume, at, ConfigImage(env)), w, ok)
      ensures target != "" ==> at == old(w).Home(target)
    {
      var place := w.Home(target);
      if target == "" { place := *; }
      at := place;
      ok := Request(MakeVolume(volume, place, ConfigImage(env)));
    }

    method DeleteStoragePoolVolume(volume: string) returns (ok: bool)
      modifies this
      ensures AllOrNothing(old(w), DropVolume(volume), w, ok)
    {
      ok := Request(DropVolume(volume));
    }

    method GetStoragePoolVolume(volume: string) returns (location: Option<string>)
      ensures location.Some? ==> w.Unique(volume) && location.value == LocationOf(w, volume)
    {
      var reached: bool := *;
      if !reached || !w.Unique(volume) { return None; }
      var l :| l in w.Copies(volume).Keys by { SingleKey(w.Copies(volume)); }
      return Some(l);
    }

    /** The copy is made before the original is deleted; the deletion may fail on its own. */
    method ColocateStoragePoolVolumeWithInstance(vm: string, volume: string) returns (ok: bool, ghost rest: Plan)
      modifies this
      ensures Runs(old(w), ColocatePlan(old(w), vm, volume, Done), w, rest)
      ensures if ok then rest == Done else w == old(w) || rest.Then?
      ensures w == old(w).(volumes := w.volumes)
    {
      ghost var start := w;
      ghost var plan := ColocatePlan(w, vm, volume, Done);
      ok, rest := false, plan;
      var there, _ := GetInstanceLocation(vm);
      if there.None? { return; }
      var here := GetStoragePoolVolume(volume);
      if here.None? { return; }
      if there.value == here.value || here.value == "" { return true, Done; }
      ok := Request(CopyVolume(volume, here.value, there.value));
      if !ok { return; }
      ghost var copied := w;
      rest := rest.rest;
      ok := Request(DropCopy(volume, here.value));
      if ok {
        Advance(start, plan, copied, rest.effect, Done);
        rest := Done;
      }
    }

    /** How many instances use each volume of the pool. */
    method GetStoragePoolVolumeUsage() returns (usage: Option<map<string, nat>>)
      ensures usage.Some? ==> usage.value.Keys == w.volumes.Keys
      ensures usage.Some? ==> forall n :: n in usage.value ==> (usage.value[n] == 0 <==> !w.Attached(n))
    {
      var reached: bool := *;
      if !reached { return None; }
      var volumes := RangeOrder(w.volumes.Keys);
      var data: map<string, nat> := map[];
      for i := 0 to |volumes|
        invariant forall n :: n in data <==> n in volumes[..i]
        invariant forall n :: n in data ==> data[n] == |UsersOf(w, n)|
      {
        data := data[volumes[i] := |UsersOf(w, volumes[i])|];
        assert volumes[..i + 1] == volumes[..i] + [volumes[i]];
      }
      assert volumes[..|volumes|] == volumes;
      forall n | n in data ensures data[n] == 0 <==> !w.Attached(n) { NoUsers(w, n); }
      return Some(data);
    }

    method CreateStoragePoolVolumeSnapshot(volume: string, snapshot: string, text: string) returns (ok: bool)
      modifies this
      ensures AllOrNothing(old(w), AddSnapshot(volume, snapshot, text), w, ok)
    {
      ok := Request(AddSnapshot(volume, snapshot, text));
    }

    method DeleteStoragePoolVolumeSnapshot(volume: string, snapshot: string) returns (ok: bool)
      modifies this
      ensures AllOrNothing(old(w), DropSnapshot(volume, snapshot), w, ok)
    {
      ok := Request(DropSnapshot(volume, snapshot));
    }

    // ---- images

    /** The images are searched in the order the server lists them. */
    method FindExistingImage(text: string) returns (alias: Option<string>)
      requires AliasesTarget(w)
      ensures alias.Some? ==> Found(w, text, alias.value)
      ensures alias.Some? && alias.value != "" ==>
        alias.value in w.aliases && w.images[w.aliases[alias.value]].description in (if text == "" then {None, Some("")} else {Some(text)})
      ensures alias == Some("") ==> forall a :: a in w.aliases ==> w.images[w.aliases[a]].description != Some(text)
    {
      var reached: bool := *;
      if !reached { return None; }
      var images := RangeOrder(w.images.Keys);
      for i := 0 to |images|
        invariant forall a :: Describes(w, a, text) ==> w.aliases[a] !in images[..i]
      {
        var image := images[i];
        assert image in images;
        var aliases := set a | a in w.aliases && w.aliases[a] == image;
        if DescriptionOf(w.images[image]) == text && aliases != {} {
          var first :| first in aliases;
          return Some(first);
        }
        assert images[..i + 1] == images[..i] + [image];
        forall a | Describes(w, a, text) ensures w.aliases[a] !in images[..i + 1] { assert a in aliases || w.aliases[a] != image; }
      }
      assert images[..|images|] == images;
      return Some("");
    }

    method GetStemcellDescription(alias: string) returns (text: Option<string>)
      ensures text.Some? ==> Describes(w, alias, text.value)
      ensures text.Some? ==> alias in w.aliases && w.aliases[alias] in w.images && w.images[w.aliases[alias]].description == text
    {
      var reached: bool := *;
      if !reached || alias !in w.aliases || w.aliases[alias] !in w.images { return None; }
      return w.images[w.aliases[alias]].description;
    }

    /** The image first, its alias afterwards. */
    method CreateAndUploadImage(alias: string, text: string) returns (ok: bool, ghost fingerprint: string, ghost rest: Plan)
      modifies this
      ensures Runs(old(w), UploadPlan(alias, fingerprint, text, None), w, rest)
      ensures ok <==> rest == Done
      ensures ok ==> alias in w.aliases && w.aliases[alias] == fingerprint
    {
      var computed: string := *;
      fingerprint := computed;
      rest := UploadPlan(alias, fingerprint, text, None);
      ok := Request(MakeImage(computed, text));
      if !ok { return; }
      rest := rest.rest;
      ok := Request(MakeAlias(alias, computed));
      if ok { rest := Done; }
    }

    method DeleteImage(alias: string) returns (ok: bool)
      modifies this
      ensures ok ==> alias in old(w).aliases && Enabled(old(w), DropImage(old(w).aliases[alias]))
      ensures w == if ok then Apply(old(w), DropImage(old(w).aliases[alias])) else old(w)
    {
      var reached: bool := *;
      if !reached || alias !in w.aliases { return false; }
      ok := Request(DropImage(w.aliases[alias]));
    }

    method IsManagedNetwork(name: string) returns (managed: Option<bool>)
    {
      managed := *;
    }
  }

  predicate AtState(status: Status, start: bool) {
    if start then IsStarted(status) else IsStopped(status)
  }

  function StateOf(start: bool): Status {
    if start then Running else Stopped
  }

  function UsersOf(w: World, volume: string): set<string> {
    set vm | vm in w.instances && w.UsedBy(vm, volume)
  }

  lemma NoUsers(w: World, volume: string)
    ensures |UsersOf(w, volume)| == 0 <==> !w.Attached(volume)
  {
    if vm :| vm in w.instances && w.UsedBy(vm, volume) { assert vm in UsersOf(w, volume); }
    if vm :| vm in UsersOf(w, volume) { assert w.UsedBy(vm, volume); }
  }

  /** Some outcome of the search: a device with the source, or the empty name. */
  ghost function SomePick(devices: map<string, Device>, source: string): (pick: string)
    ensures PickedBy(devices, source, pick)
  {
    if exists d :: d in devices && devices[d].Source() == source then
      var d :| d in devices && devices[d].Source() == source; d
    else ""
  }
}
