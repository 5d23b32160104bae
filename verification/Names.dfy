/** Names by which the CPI recognises what it owns: volume prefixes, device names and the
    string helpers of the Go standard library that the CPI relies on. */
module Names {

  datatype Option<+T> = None | Some(value: T)

  const DISK_EPHEMERAL_PREFIX := "vol-e-"
  const DISK_PERSISTENT_PREFIX := "vol-p-"
  const DISK_CONFIGURATION_PREFIX := "vol-c-"
  const DISK_DEVICE_CONFIG := "config"
  const DISK_DEVICE_EPHEMERAL := "ephemeral"
  const DISK_DEVICE_PERSISTENT1 := "persistent-1"
  const DISK_DEVICE_PERSISTENT2 := "persistent-2"
  const DEVICE_ROOT := "root"

  /** The owner of a volume, as its name prefix encodes it. */
  datatype VolumeClass = ConfigVolume | EphemeralVolume | PersistentVolume | ForeignVolume

  function ClassOf(name: string): VolumeClass {
    if DISK_CONFIGURATION_PREFIX <= name then ConfigVolume
    else if DISK_EPHEMERAL_PREFIX <= name then EphemeralVolume
    else if DISK_PERSISTENT_PREFIX <= name then PersistentVolume
    else ForeignVolume
  }

  /** A volume that lives and dies with one VM. */
  predicate Transient(name: string) {
    ClassOf(name) == ConfigVolume || ClassOf(name) == EphemeralVolume
  }

  /** What follows the six-character prefix. */
  function UuidOf(name: string): string {
    if |name| < 6 then "" else name[6..]
  }

  function ConfigName(uuid: string): string { DISK_CONFIGURATION_PREFIX + uuid }

  function EphemeralName(uuid: string): string { DISK_EPHEMERAL_PREFIX + uuid }

  function PersistentName(uuid: string): string { DISK_PERSISTENT_PREFIX + uuid }

  function VmName(uuid: string): string { "vm-" + uuid }

  function VmUuidOf(name: string): string {
    if |name| < 3 then "" else name[3..]
  }

  /** The three prefixes exclude each other, and every generated name gives its UUID back. */
  lemma VolumeNames(uuid: string)
    ensures ClassOf(ConfigName(uuid)) == ConfigVolume && UuidOf(ConfigName(uuid)) == uuid
    ensures ClassOf(EphemeralName(uuid)) == EphemeralVolume && UuidOf(EphemeralName(uuid)) == uuid
    ensures ClassOf(PersistentName(uuid)) == PersistentVolume && UuidOf(PersistentName(uuid)) == uuid
    ensures VmUuidOf(VmName(uuid)) == uuid
  {
    assert ConfigName(uuid)[4] == 'c' && EphemeralName(uuid)[4] == 'e' && PersistentName(uuid)[4] == 'p';
    assert DISK_CONFIGURATION_PREFIX[4] == 'c' && DISK_EPHEMERAL_PREFIX[4] == 'e';
  }

  predicate ReservedDevice(name: string) {
    || name == DISK_DEVICE_CONFIG || name == DISK_DEVICE_EPHEMERAL
    || name == DISK_DEVICE_PERSISTENT1 || name == DISK_DEVICE_PERSISTENT2
  }

  lemma DeviceNamesDistinct()
    ensures DISK_DEVICE_CONFIG != DISK_DEVICE_EPHEMERAL
    ensures DISK_DEVICE_PERSISTENT1 != DISK_DEVICE_PERSISTENT2
    ensures DISK_DEVICE_CONFIG != DISK_DEVICE_PERSISTENT1 && DISK_DEVICE_CONFIG != DISK_DEVICE_PERSISTENT2
    ensures DISK_DEVICE_EPHEMERAL != DISK_DEVICE_PERSISTENT1 && DISK_DEVICE_EPHEMERAL != DISK_DEVICE_PERSISTENT2
    ensures !ReservedDevice(DEVICE_ROOT)
  {
    assert DISK_DEVICE_PERSISTENT1[11] != DISK_DEVICE_PERSISTENT2[11];
  }

  lemma Overwrite<K, V>(m: map<K, V>, k: K, v1: V, v2: V)
    ensures m[k := v1][k := v2] == m[k := v2]
  {
  }

  lemma RemoveBoth<K, V>(m: map<K, V>, a: set<K>, b: set<K>)
    ensures m - a - b == m - (a + b)
  {
  }

  /** One possible iteration order of a Go map: every key once. */
  ghost predicate IsOrder<T(!new)>(order: seq<T>, keys: set<T>) {
    && (forall k :: k in order <==> k in keys)
    && (forall i, j :: 0 <= i < j < |order| ==> order[i] != order[j])
  }

  /** There always is one. */
  lemma {:induction false} SomeOrder(keys: set<string>) returns (order: seq<string>)
    ensures IsOrder(order, keys)
    decreases keys
  {
    if keys == {} {
      order := [];
    } else {
      var k :| k in keys;
      var tail := SomeOrder(keys - {k});
      order := tail + [k];
    }
  }

  /** Ranging over a Go map: any order at all. */
  method RangeOrder<T(==,!new)>(keys: set<T>) returns (order: seq<T>)
    ensures IsOrder(order, keys)
  {
    var rest := keys;
    order := [];
    while rest != {}
      invariant rest <= keys
      invariant forall k :: k in order <==> k in keys - rest
      invariant forall i, j :: 0 <= i < j < |order| ==> order[i] != order[j]
      decreases rest
    {
      var k :| k in rest;
      assert k !in order;
      order := order + [k];
      rest := rest - {k};
    }
  }
}
