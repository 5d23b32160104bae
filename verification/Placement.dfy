/** The two loops of `CreateVMV2` over Go maps: the networks, with the target they pin the VM to,
    and the instance configurations, of which one is chosen by the stemcell's description. */
module Placement {
  import opened Names
  import opened World

  // ---- names of network cards

  function Digit(n: nat): char
    requires n < 10
  {
    "0123456789"[n]
  }

  function Decimal(n: nat): string {
    if n < 10 then [Digit(n)] else Decimal(n / 10) + [Digit(n % 10)]
  }

  function DigitValue(c: char): int { c as int - '0' as int }

  function Value(s: string): int {
    if s == "" then 0 else 10 * Value(s[..|s| - 1]) + DigitValue(s[|s| - 1])
  }

  lemma {:induction false} DecimalRoundTrip(n: nat)
    ensures Value(Decimal(n)) == n
  {
    var s := Decimal(n);
    if n < 10 {
      assert s[..0] == "" && s[0] == Digit(n);
    } else {
      DecimalRoundTrip(n / 10);
      assert s[..|s| - 1] == Decimal(n / 10) && s[|s| - 1] == Digit(n % 10);
    }
  }

  function EthName(i: nat): string { "eth" + Decimal(i) }

  /** Different cards have different names, none of them a disk device's. */
  lemma EthNames(i: nat, j: nat)
    ensures EthName(i) == EthName(j) ==> i == j
    ensures EthName(i)[..3] == "eth" && Value(EthName(i)[3..]) == i
    ensures EthName(i) != DEVICE_ROOT && !ReservedDevice(EthName(i))
  {
    DecimalRoundTrip(i);
    DecimalRoundTrip(j);
    assert EthName(i)[3..] == Decimal(i) && EthName(j)[3..] == Decimal(j);
    assert EthName(i)[0] == 'e' && EthName(i)[1] == 't';
    assert DISK_DEVICE_EPHEMERAL[1] == 'p' && DISK_DEVICE_CONFIG[0] == 'c';
    assert DISK_DEVICE_PERSISTENT1[0] == 'p' && DISK_DEVICE_PERSISTENT2[0] == 'p' && DEVICE_ROOT[0] == 'r';
  }

  // ---- the network loop

  function PlannedIP(net: Network): string {
    if net.kind == "dynamic" then "" else net.ip
  }

  function NicFor(managed: bool, parent: string, i: nat, net: Network): Device {
    Nic(EthName(i), parent, if managed && PlannedIP(net) != "" then Some(PlannedIP(net)) else None)
  }

  /** What BOSH is told about the network. */
  function Reported(managed: bool, assignment: string, net: Network): Network {
    if managed && assignment == "dhcp" then
      Network("dynamic", PlannedIP(net), net.netmask, net.gateway, net.dns, net.defaults, "")
    else net
  }

  /** The targets anybody asks for. */
  function Targets(initial: string, networks: map<string, Network>): set<string> {
    (if initial == "" then {} else {initial}) + (set k | k in networks && networks[k].target != "" :: networks[k].target)
  }

  ghost predicate Reconcilable(targets: set<string>) {
    forall a, b :: a in targets && b in targets ==> a == b
  }

  /** The one target everybody agrees on; empty when nobody asks for one. */
  ghost predicate CommonTarget(target: string, targets: set<string>) {
    targets == if target == "" then {} else {target}
  }

  datatype NetworkPlan = NetworkPlan(devices: map<string, Device>, networks: map<string, Network>, target: string)

  ghost predicate OrderOf(order: seq<string>, networks: map<string, Network>) {
    IsOrder(order, networks.Keys)
  }

  /** `eth0` to `eth(n-1)`. */
  function CardNames(n: nat): set<string> {
    if n == 0 then {} else CardNames(n - 1) + {EthName(n - 1)}
  }

  lemma {:induction false} CardNamed(n: nat, name: string) returns (i: nat)
    requires name in CardNames(n)
    ensures i < n && name == EthName(i)
  {
    if name == EthName(n - 1) { i := n - 1; } else { i := CardNamed(n - 1, name); }
  }

  /** The first `n` cards are `eth0` to `eth(n-1)`, one for each network in the order given. */
  ghost predicate CardsInOrder(devices: map<string, Device>, networks: map<string, Network>, order: seq<string>, n: nat,
                               managed: bool, parent: string)
    requires n <= |order| && forall k :: k in order ==> k in networks
  {
    && devices.Keys == CardNames(n)
    && (forall i: nat :: i < n ==> EthName(i) in devices && CardFits(devices[EthName(i)], managed, parent, i, networks[order[i]]))
  }

  /** A bridged card with a fixed address exactly when the network is managed, is not a dynamic one,
      and names an address. */
  predicate CardFits(device: Device, managed: bool, parent: string, i: nat, net: Network) {
    device == Nic(EthName(i), parent, if managed && net.kind != "dynamic" && net.ip != "" then Some(net.ip) else None)
  }

  /** BOSH is told the network as it is, unless addresses are assigned by a managed network: then it is
      told a dynamic one, with the planned address and everything else the same. */
  predicate ReportFits(reported: Network, managed: bool, assignment: string, net: Network) {
    if managed && assignment == "dhcp" then
      && reported.kind == "dynamic" && reported.ip == (if net.kind == "dynamic" then "" else net.ip)
      && reported.netmask == net.netmask && reported.gateway == net.gateway && reported.dns == net.dns
      && reported.defaults == net.defaults && reported.target == ""
    else reported == net
  }

  ghost predicate AllReported(reported: map<string, Network>, managed: bool, assignment: string, networks: map<string, Network>) {
    reported.Keys == networks.Keys && forall k :: k in networks ==> ReportFits(reported[k], managed, assignment, networks[k])
  }

  function ReportedAll(managed: bool, assignment: string, networks: map<string, Network>): map<string, Network> {
    map k | k in networks :: Reported(managed, assignment, networks[k])
  }

  /** The outcome of the loop: it succeeds on an unmanaged network, or when all targets agree; then it
      gives the common target, the networks as reported, and one card for each. */
  ghost predicate Reconciles(networks: map<string, Network>, managed: bool, assignment: string, parent: string, initial: string,
                             order: seq<string>, r: Option<NetworkPlan>) {
    && OrderOf(order, networks)
    && (r.Some? <==> (managed ==> Reconcilable(Targets(initial, networks))))
    && (r.Some? ==>
         && (if managed then CommonTarget(r.value.target, Targets(initial, networks)) else r.value.target == initial)
         && AllReported(r.value.networks, managed, assignment, networks)
         && CardsInOrder(r.value.devices, networks, order, |order|, managed, parent))
  }

  /** The loop ranges over the networks in some order. Whether it succeeds, the target and the
      reported networks do not depend on that order; it decides only which card is whose. */
  method ReconcileNetworks(networks: map<string, Network>, managed: bool, assignment: string, parent: string, initial: string)
    returns (r: Option<NetworkPlan>, order: seq<string>)
    ensures Reconciles(networks, managed, assignment, parent, initial, order, r)
  {
    order := RangeOrder(networks.Keys);
    var plan := NetworkPlan(map[], map[], initial);
    var eth := 0;
    FirstState(networks, order, managed, assignment, parent, initial);
    while eth < |order|
      invariant 0 <= eth <= |order|
      invariant LoopState(networks, order, eth, managed, assignment, parent, initial, plan)
    {
      var key := order[eth];
      assert key in order;
      var ok, next := AddNetwork(plan, key, networks[key], eth, managed, assignment, parent);
      if !ok {
        Conflict(networks, order, eth, managed, assignment, parent, initial, plan);
        return None, order;
      }
      NextState(networks, order, eth, managed, assignment, parent, initial, plan);
      plan := next;
      eth := eth + 1;
    }
    LastState(networks, order, managed, assignment, parent, initial, plan);
    return Some(plan), order;
  }

  /** One round of the loop: what is reported, the target, the card. */
  method AddNetwork(plan: NetworkPlan, key: string, net: Network, eth: nat, managed: bool, assignment: string, parent: string)
    returns (ok: bool, next: NetworkPlan)
    ensures ok <==> Agrees(managed, net, plan)
    ensures ok ==> next == WithNetwork(managed, assignment, parent, eth, key, net, plan)
  {
    next := plan.(networks := plan.networks[key := Reported(managed, assignment, net)]);
    var target;
    ok, target := PinTarget(managed, plan.target, net.target);
    if !ok {
      return;
    }
    next := next.(target := target);
    next := next.(devices := next.devices[EthName(eth) := NicFor(managed, parent, eth, net)]);
  }

  /** The target after one more network has been heard; it fails when the two differ. */
  method PinTarget(managed: bool, target: string, wanted: string) returns (ok: bool, pinned: string)
    ensures ok <==> !managed || wanted == "" || target == "" || target == wanted
    ensures ok ==> pinned == if managed && wanted != "" then wanted else target
  {
    if managed {
      if wanted != "" {
        if target != "" && target != wanted {
          return false, target;
        }
        return true, wanted;
      }
    }
    return true, target;
  }

  /** What the loop has worked out after `n` networks. */
  ghost predicate LoopState(networks: map<string, Network>, order: seq<string>, n: nat, managed: bool, assignment: string,
                            parent: string, initial: string, plan: NetworkPlan)
    requires n <= |order| && OrderOf(order, networks)
  {
    && plan.networks == ReportedAll(managed, assignment, Seen(networks, order, n))
    && (if managed then CommonTarget(plan.target, Targets(initial, Seen(networks, order, n))) else plan.target == initial)
    && CardsInOrder(plan.devices, networks, order, n, managed, parent)
  }

  lemma FirstState(networks: map<string, Network>, order: seq<string>, managed: bool, assignment: string, parent: string, initial: string)
    requires OrderOf(order, networks)
    ensures LoopState(networks, order, 0, managed, assignment, parent, initial, NetworkPlan(map[], map[], initial))
  {
    SeenNone(managed, assignment, networks, order);
  }

  /** One network more. */
  function WithNetwork(managed: bool, assignment: string, parent: string, n: nat, key: string, net: Network, plan: NetworkPlan): NetworkPlan {
    NetworkPlan(plan.devices[EthName(n) := NicFor(managed, parent, n, net)],
                plan.networks[key := Reported(managed, assignment, net)],
                if managed && net.target != "" then net.target else plan.target)
  }

  predicate Agrees(managed: bool, net: Network, plan: NetworkPlan) {
    managed && net.target != "" ==> plan.target == "" || plan.target == net.target
  }

  lemma NextState(networks: map<string, Network>, order: seq<string>, n: nat, managed: bool, assignment: string,
                  parent: string, initial: string, plan: NetworkPlan)
    requires n < |order| && OrderOf(order, networks)
    requires LoopState(networks, order, n, managed, assignment, parent, initial, plan)
    requires order[n] in networks && Agrees(managed, networks[order[n]], plan)
    ensures LoopState(networks, order, n + 1, managed, assignment, parent, initial,
                      WithNetwork(managed, assignment, parent, n, order[n], networks[order[n]], plan))
  {
    assert order[n] in order;
    SeenNext(networks, order, n, initial);
    ReportedNext(managed, assignment, Seen(networks, order, n), order[n], networks[order[n]]);
    CardsNext(plan.devices, networks, order, n, managed, parent);
  }

  lemma LastState(networks: map<string, Network>, order: seq<string>, managed: bool, assignment: string,
                  parent: string, initial: string, plan: NetworkPlan)
    requires OrderOf(order, networks) && LoopState(networks, order, |order|, managed, assignment, parent, initial, plan)
    ensures Reconciles(networks, managed, assignment, parent, initial, order, Some(plan))
  {
    SeenAll(networks, order);
  }

  lemma Conflict(networks: map<string, Network>, order: seq<string>, n: nat, managed: bool, assignment: string,
                 parent: string, initial: string, plan: NetworkPlan)
    requires n < |order| && OrderOf(order, networks) && order[n] in networks
    requires LoopState(networks, order, n, managed, assignment, parent, initial, plan)
    requires !Agrees(managed, networks[order[n]], plan)
    ensures Reconciles(networks, managed, assignment, parent, initial, order, None)
  {
    Irreconcilable(networks, order, n, initial, plan.target);
  }

  /** The networks the loop has come to. */
  function Seen(networks: map<string, Network>, order: seq<string>, n: nat): map<string, Network>
    requires n <= |order|
  {
    map k | k in networks && k in order[..n] :: networks[k]
  }

  lemma SeenNone(managed: bool, assignment: string, networks: map<string, Network>, order: seq<string>)
    ensures Seen(networks, order, 0) == map[]
    ensures ReportedAll(managed, assignment, map[]) == map[]
  {
  }

  lemma SeenAll(networks: map<string, Network>, order: seq<string>)
    requires OrderOf(order, networks)
    ensures Seen(networks, order, |order|) == networks
  {
    assert order[..|order|] == order;
  }

  lemma ReportedNext(managed: bool, assignment: string, networks: map<string, Network>, k: string, net: Network)
    ensures ReportedAll(managed, assignment, networks[k := net])
         == ReportedAll(managed, assignment, networks)[k := Reported(managed, assignment, net)]
  {
  }

  lemma SeenNext(networks: map<string, Network>, order: seq<string>, n: nat, initial: string)
    requires n < |order| && order[n] in networks
    ensures Seen(networks, order, n + 1) == Seen(networks, order, n)[order[n] := networks[order[n]]]
    ensures Targets(initial, Seen(networks, order, n + 1)) == Targets(initial, Seen(networks, order, n))
      + (if networks[order[n]].target == "" then {} else {networks[order[n]].target})
  {
    var before, after := Seen(networks, order, n), Seen(networks, order, n + 1);
    assert order[..n + 1] == order[..n] + [order[n]];
    assert after == before[order[n] := networks[order[n]]];
    assert order[n] in after;
    forall t | t in Targets(initial, before) ensures t in Targets(initial, after) {
      if t != initial {
        var k :| k in before && before[k].target != "" && before[k].target == t;
        assert k in after && after[k].target == t;
      }
    }
  }

  lemma Irreconcilable(networks: map<string, Network>, order: seq<string>, n: nat, initial: string, target: string)
    requires n < |order| && order[n] in networks
    requires target in Targets(initial, Seen(networks, order, n))
    requires networks[order[n]].target != "" && networks[order[n]].target != target
    ensures !Reconcilable(Targets(initial, networks))
  {
    assert Targets(initial, Seen(networks, order, n)) <= Targets(initial, networks);
    assert networks[order[n]].target in Targets(initial, networks);
  }

  lemma CardsNext(devices: map<string, Device>, networks: map<string, Network>, order: seq<string>, n: nat, managed: bool, parent: string)
    requires n < |order| && forall k :: k in order ==> k in networks
    requires CardsInOrder(devices, networks, order, n, managed, parent)
    ensures order[n] in networks
    ensures CardsInOrder(devices[EthName(n) := NicFor(managed, parent, n, networks[order[n]])], networks, order, n + 1, managed, parent)
  {
    assert order[n] in order;
    var devices' := devices[EthName(n) := NicFor(managed, parent, n, networks[order[n]])];
    forall i: nat | i < n + 1 ensures EthName(i) in devices' && CardFits(devices'[EthName(i)], managed, parent, i, networks[order[i]]) {
      EthNames(i, n);
    }
  }

  /** Every network has exactly one card, and no card takes the name of a disk device. */
  lemma CardsAreABijection(devices: map<string, Device>, networks: map<string, Network>, order: seq<string>, managed: bool, parent: string)
    requires OrderOf(order, networks) && CardsInOrder(devices, networks, order, |order|, managed, parent)
    ensures |devices| == |networks| == |order|
    ensures forall name :: name in devices ==> IsNic(devices, name)
  {
    CountNames(|order|);
    CountKeys(order, networks.Keys);
    forall name | name in devices ensures IsNic(devices, name) {
      var i := CardNamed(|order|, name);
      EthNames(i, i);
    }
  }

  /** A network card under its own name. */
  predicate IsNic(devices: map<string, Device>, name: string)
    requires name in devices
  {
    name != DEVICE_ROOT && !ReservedDevice(name) && devices[name].Nic? && devices[name].name == name
  }

  lemma {:induction false} CountNames(n: nat)
    ensures |CardNames(n)| == n
  {
    if n > 0 {
      CountNames(n - 1);
      if EthName(n - 1) in CardNames(n - 1) {
        var i := CardNamed(n - 1, EthName(n - 1));
        EthNames(i, n - 1);
      }
    }
  }

  lemma {:induction false} CountKeys(order: seq<string>, keys: set<string>)
    requires IsOrder(order, keys)
    ensures |order| == |keys|
    decreases order
  {
    if order == [] {
      assert keys == {};
    } else {
      var k := order[0];
      assert k in order;
      forall x ensures x in order[1..] <==> x in keys - {k} { assert order == [k] + order[1..]; }
      CountKeys(order[1..], keys - {k});
    }
  }

  // ---- the instance configuration

  predicate OccursAt(s: string, sub: string, i: nat) {
    i + |sub| <= |s| && s[i..i + |sub|] == sub
  }

  /** `strings.Contains`. */
  predicate Contains(s: string, sub: string) {
    exists i :: 0 <= i <= |s| && OccursAt(s, sub, i)
  }

  /** The text contains the key exactly when the key stands somewhere in the middle of it. */
  lemma ContainsMiddle(a: string, key: string, b: string)
    ensures Contains(a + key + b, key)
  {
    var s := a + key + b;
    assert s[|a|..|a| + |key|] == key;
    assert OccursAt(s, key, |a|);
  }

  lemma ContainsSplit(s: string, key: string) returns (a: string, b: string)
    requires Contains(s, key)
    ensures s == a + key + b
  {
    var i :| 0 <= i <= |s| && OccursAt(s, key, i);
    a, b := s[..i], s[i + |key|..];
  }

  type Settings = map<string, string>

  /** A key other than "default" that occurs in the description. */
  predicate Matches(description: string, key: string) {
    key != "default" && Contains(description, key)
  }

  function DefaultOf(configs: map<string, Settings>): Settings {
    if "default" in configs then configs["default"] else map[]
  }

  /** The value of the last matching key. */
  function LastMatch(configs: map<string, Settings>, description: string, order: seq<string>): Settings {
    if order == [] then map[]
    else
      var key := order[|order| - 1];
      if key in configs && Matches(description, key) then configs[key]
      else LastMatch(configs, description, order[..|order| - 1])
  }

  /** The configuration for one iteration order; none is the error of `CreateVMV2`. */
  function Choice(configs: map<string, Settings>, description: string, order: seq<string>): Option<Settings> {
    var matched := LastMatch(configs, description, order);
    var chosen := if matched == map[] then DefaultOf(configs) else matched;
    if chosen == map[] then None else Some(chosen)
  }

  method ChooseConfig(configs: map<string, Settings>, description: string) returns (r: Option<Settings>, order: seq<string>)
    ensures IsOrder(order, configs.Keys)
    ensures r == Choice(configs, description, order)
  {
    order := RangeOrder(configs.Keys);
    var instanceConfig: Settings := map[];
    var defaultConfig: Settings := map[];
    var i := 0;
    NothingChosen(configs, description, order);
    while i < |order|
      invariant 0 <= i <= |order|
      invariant ChosenFrom(configs, description, order, i, instanceConfig, defaultConfig)
    {
      var k := order[i];
      NextChosen(configs, description, order, i, instanceConfig, defaultConfig);
      if "default" == k {
        defaultConfig := configs[k];
      } else if Contains(description, k) {
        instanceConfig := configs[k];
      }
      i := i + 1;
    }
    AllChosen(configs, description, order, instanceConfig, defaultConfig);
    if instanceConfig == map[] {
      instanceConfig := defaultConfig;
    }
    if instanceConfig == map[] {
      return None, order;
    }
    return Some(instanceConfig), order;
  }

  /** What the loop has chosen after `n` keys. */
  ghost predicate ChosenFrom(configs: map<string, Settings>, description: string, order: seq<string>, n: nat,
                             instanceConfig: Settings, defaultConfig: Settings)
  {
    && n <= |order| && IsOrder(order, configs.Keys)
    && instanceConfig == LastMatch(configs, description, order[..n])
    && defaultConfig == if "default" in order[..n] then DefaultOf(configs) else map[]
  }

  lemma NothingChosen(configs: map<string, Settings>, description: string, order: seq<string>)
    requires IsOrder(order, configs.Keys)
    ensures ChosenFrom(configs, description, order, 0, map[], map[])
  {
  }

  lemma NextChosen(configs: map<string, Settings>, description: string, order: seq<string>, n: nat,
                   instanceConfig: Settings, defaultConfig: Settings)
    requires n < |order| && ChosenFrom(configs, description, order, n, instanceConfig, defaultConfig)
    ensures order[n] in configs
    ensures var k := order[n];
      ChosenFrom(configs, description, order, n + 1,
        if "default" != k && Contains(description, k) then configs[k] else instanceConfig,
        if "default" == k then configs[k] else defaultConfig)
  {
    var k := order[n];
    assert k in order;
    assert order[..n + 1][..n] == order[..n] && order[..n + 1] == order[..n] + [k];
  }

  lemma AllChosen(configs: map<string, Settings>, description: string, order: seq<string>, instanceConfig: Settings, defaultConfig: Settings)
    requires ChosenFrom(configs, description, order, |order|, instanceConfig, defaultConfig)
    ensures instanceConfig == LastMatch(configs, description, order) && defaultConfig == DefaultOf(configs)
  {
    assert order[..|order|] == order;
  }

  /** What the choice can be: a non-empty value of a matching key, or, if no key matches or some
      matching value is empty, the default (the error when that is empty). */
  ghost predicate Possible(configs: map<string, Settings>, description: string, r: Option<Settings>) {
    || (r.Some? && r.value != map[] && exists k :: k in configs && Matches(description, k) && configs[k] == r.value)
    || (((forall k :: k in configs ==> !Matches(description, k))
         || (exists k :: k in configs && Matches(description, k) && configs[k] == map[]))
        && r == if DefaultOf(configs) == map[] then None else Some(DefaultOf(configs)))
  }

  lemma {:induction false} LastMatchIsAMatch(configs: map<string, Settings>, description: string, order: seq<string>)
    ensures (exists k :: k in order && k in configs && Matches(description, k) && configs[k] == LastMatch(configs, description, order))
      || ((forall k :: k in order && k in configs ==> !Matches(description, k)) && LastMatch(configs, description, order) == map[])
    decreases order
  {
    if order != [] {
      var n := |order| - 1;
      assert order == order[..n] + [order[n]];
      LastMatchIsAMatch(configs, description, order[..n]);
    }
  }

  lemma OrderEndingIn(keys: set<string>, k: string) returns (order: seq<string>)
    requires k in keys
    ensures IsOrder(order, keys) && order[|order| - 1] == k
  {
    var tail := SomeOrder(keys - {k});
    order := tail + [k];
    forall x ensures x in order <==> x in keys { }
  }

  /** Over all iteration orders, the choices are exactly the possible ones. */
  lemma ChoicesExactly(configs: map<string, Settings>, description: string, r: Option<Settings>)
    ensures (exists order :: IsOrder(order, configs.Keys) && Choice(configs, description, order) == r) <==> Possible(configs, description, r)
  {
    if order :| IsOrder(order, configs.Keys) && Choice(configs, description, order) == r {
      LastMatchIsAMatch(configs, description, order);
      assert forall k :: k in order <==> k in configs;
    }
    if Possible(configs, description, r) {
      var order := Realised(configs, description, r);
    }
  }

  lemma Realised(configs: map<string, Settings>, description: string, r: Option<Settings>) returns (order: seq<string>)
    requires Possible(configs, description, r)
    ensures IsOrder(order, configs.Keys) && Choice(configs, description, order) == r
  {
    if k :| k in configs && Matches(description, k) && r == Some(configs[k]) && configs[k] != map[] {
      order := OrderEndingIn(configs.Keys, k);
    } else if k :| k in configs && Matches(description, k) && configs[k] == map[] {
      order := OrderEndingIn(configs.Keys, k);
    } else {
      order := SomeOrder(configs.Keys);
      LastMatchIsAMatch(configs, description, order);
    }
  }

  /** With at most one matching key the order does not matter. */
  lemma OneMatchOneChoice(configs: map<string, Settings>, description: string, order1: seq<string>, order2: seq<string>)
    requires IsOrder(order1, configs.Keys) && IsOrder(order2, configs.Keys)
    requires forall a, b :: a in configs && b in configs && Matches(description, a) && Matches(description, b) ==> a == b
    ensures Choice(configs, description, order1) == Choice(configs, description, order2)
  {
    LastMatchIsAMatch(configs, description, order1);
    LastMatchIsAMatch(configs, description, order2);
  }
}
