/** Concurrent updates of one instance, each a read followed by a conditional write. */
module Etag {
  import opened World

  /** The part of an instance a client reads and writes back; the etag identifies its value. */
  datatype Writable = Writable(devices: map<string, Device>, description: string)

  /** The calls that send the etag: `AttachDevice` and `UpdateInstanceDescription`. */
  datatype Call = Attach(name: string, device: Device) | Describe(text: string)

  /** What a call in isolation refuses. */
  predicate Accepts(s: Writable, call: Call) {
    call.Attach? ==> call.name !in s.devices
  }

  /** What a call in isolation does. */
  function Perform(s: Writable, call: Call): Writable {
    match call
    case Attach(name, device) => s.(devices := s.devices[name := device])
    case Describe(text) => s.(description := text)
  }

  datatype Phase = Ready | Fetched(seen: Writable) | Succeeded | Failed

  /** `order` records the calls that have succeeded, as their writes went through. */
  datatype State = State(current: Writable, phases: seq<Phase>, order: seq<nat>)

  /** The read: an attach fails at once when the name is taken. */
  predicate Reads(calls: seq<Call>, s: State, s': State, i: nat) {
    && i < |s.phases| == |calls| && s.phases[i] == Ready
    && s' == s.(phases := s.phases[i := if Accepts(s.current, calls[i]) then Fetched(s.current) else Failed])
  }

  /** The write: it goes through only if the instance is still what the call has read. */
  predicate Writes(calls: seq<Call>, s: State, s': State, i: nat) {
    && i < |s.phases| == |calls| && s.phases[i].Fetched?
    && s' == if s.current == s.phases[i].seen
             then State(Perform(s.phases[i].seen, calls[i]), s.phases[i := Succeeded], s.order + [i])
             else s.(phases := s.phases[i := Failed])
  }

  /** Either request fails for reasons of its own. */
  predicate Fails(s: State, s': State, i: nat) {
    && i < |s.phases| && (s.phases[i].Ready? || s.phases[i].Fetched?)
    && s' == s.(phases := s.phases[i := Failed])
  }

  ghost predicate Next(calls: seq<Call>, s: State, s': State) {
    exists i: nat :: Reads(calls, s, s', i) || Writes(calls, s, s', i) || Fails(s, s', i)
  }

  predicate Start(calls: seq<Call>, s: State) {
    |s.phases| == |calls| && s.order == [] && forall i :: 0 <= i < |s.phases| ==> s.phases[i] == Ready
  }

  ghost predicate StepAt(calls: seq<Call>, run: seq<State>, i: nat)
    requires i + 1 < |run|
  {
    Next(calls, run[i], run[i + 1])
  }

  ghost predicate IsRun(calls: seq<Call>, run: seq<State>) {
    run != [] && Start(calls, run[0]) && forall i :: 0 <= i < |run| - 1 ==> StepAt(calls, run, i)
  }

  predicate InRange(calls: seq<Call>, order: seq<nat>) {
    forall k :: 0 <= k < |order| ==> order[k] < |calls|
  }

  /** The calls one after the other, each complete before the next begins. */
  ghost predicate SerialAccepts(s: Writable, calls: seq<Call>, order: seq<nat>)
    requires InRange(calls, order)
  {
    order != [] ==>
      var n := |order| - 1;
      SerialAccepts(s, calls, order[..n]) && Accepts(SerialResult(s, calls, order[..n]), calls[order[n]])
  }

  function SerialResult(s: Writable, calls: seq<Call>, order: seq<nat>): Writable
    requires InRange(calls, order)
  {
    if order == [] then s
    else var n := |order| - 1; Perform(SerialResult(s, calls, order[..n]), calls[order[n]])
  }

  ghost predicate Serialised(start: Writable, calls: seq<Call>, s: State) {
    && |s.phases| == |calls|
    && InRange(calls, s.order)
    && SerialAccepts(start, calls, s.order)
    && s.current == SerialResult(start, calls, s.order)
    && NoRepeats(s.order)
    && (forall i: nat :: i < |calls| ==> Recorded(calls, s, i))
  }

  predicate NoRepeats(order: seq<nat>) {
    forall i, j :: 0 <= i < j < |order| ==> order[i] != order[j]
  }

  /** The order has the call exactly when it succeeded; one that waits to write was accepted. */
  predicate Recorded(calls: seq<Call>, s: State, i: nat)
    requires i < |calls| == |s.phases|
  {
    && (s.phases[i] == Succeeded <==> i in s.order)
    && (s.phases[i].Fetched? ==> Accepts(s.phases[i].seen, calls[i]))
  }

  lemma NoRepeatsNext(order: seq<nat>, i: nat)
    requires NoRepeats(order) && i !in order
    ensures NoRepeats(order + [i])
    ensures forall k :: k in order + [i] <==> k in order || k == i
  {
  }

  /** A write that went through extends the serial order. */
  lemma WriteSerialised(start: Writable, calls: seq<Call>, s: State, s': State, i: nat)
    requires Serialised(start, calls, s) && Writes(calls, s, s', i) && s.current == s.phases[i].seen
    ensures Serialised(start, calls, s') && s.order <= s'.order
  {
    assert Recorded(calls, s, i);
    SerialNext(start, calls, s.order, i);
    NoRepeatsNext(s.order, i);
    forall j: nat | j < |calls| ensures Recorded(calls, s', j) {
      assert Recorded(calls, s, j);
    }
  }

  lemma SerialNext(start: Writable, calls: seq<Call>, order: seq<nat>, i: nat)
    requires InRange(calls, order) && i < |calls| && SerialAccepts(start, calls, order)
    requires Accepts(SerialResult(start, calls, order), calls[i])
    ensures InRange(calls, order + [i]) && SerialAccepts(start, calls, order + [i])
    ensures SerialResult(start, calls, order + [i]) == Perform(SerialResult(start, calls, order), calls[i])
  {
    assert (order + [i])[..|order + [i]| - 1] == order;
  }

  /** Whatever else happens leaves it as it is. */
  lemma OtherSerialised(start: Writable, calls: seq<Call>, s: State, s': State, i: nat, phase: Phase)
    requires Serialised(start, calls, s) && i < |calls| && s.phases[i] != Succeeded
    requires s' == s.(phases := s.phases[i := phase]) && (phase == Failed || (phase.Fetched? && Accepts(phase.seen, calls[i])))
    ensures Serialised(start, calls, s')
  {
    assert Recorded(calls, s, i);
    forall j: nat | j < |calls| ensures Recorded(calls, s', j) {
      assert Recorded(calls, s, j);
    }
  }

  lemma StepSerialised(start: Writable, calls: seq<Call>, s: State, s': State)
    requires Serialised(start, calls, s) && Next(calls, s, s')
    ensures Serialised(start, calls, s') && s.order <= s'.order
  {
    var i: nat :| Reads(calls, s, s', i) || Writes(calls, s, s', i) || Fails(s, s', i);
    if Writes(calls, s, s', i) && s.current == s.phases[i].seen {
      WriteSerialised(start, calls, s, s', i);
    } else if Reads(calls, s, s', i) && Accepts(s.current, calls[i]) {
      OtherSerialised(start, calls, s, s', i, Fetched(s.current));
    } else {
      OtherSerialised(start, calls, s, s', i, Failed);
    }
  }

  /** Every interleaving is equivalent to running the calls that succeeded one after the other, in
      the order of their writes. */
  lemma {:induction false} EveryRunIsSerial(calls: seq<Call>, run: seq<State>, k: nat)
    requires IsRun(calls, run) && k < |run|
    ensures Serialised(run[0].current, calls, run[k])
  {
    if k > 0 {
      EveryRunIsSerial(calls, run, k - 1);
      assert StepAt(calls, run, k - 1);
      StepSerialised(run[0].current, calls, run[k - 1], run[k]);
    }
  }

  /** The order respects real time: what has succeeded before another call begins precedes it. */
  lemma {:induction false} OrderIsRealTime(calls: seq<Call>, run: seq<State>, j: nat, k: nat)
    requires IsRun(calls, run) && j <= k < |run|
    ensures run[j].order <= run[k].order
    decreases k
  {
    if j < k {
      OrderIsRealTime(calls, run, j, k - 1);
      EveryRunIsSerial(calls, run, k - 1);
      assert StepAt(calls, run, k - 1);
      StepSerialised(run[0].current, calls, run[k - 1], run[k]);
    }
  }

  lemma {:induction false} SerialKeepsDevices(s: Writable, calls: seq<Call>, order: seq<nat>)
    requires InRange(calls, order) && SerialAccepts(s, calls, order)
    ensures forall name :: name in s.devices ==>
      name in SerialResult(s, calls, order).devices && SerialResult(s, calls, order).devices[name] == s.devices[name]
    ensures forall k :: 0 <= k < |order| && calls[order[k]].Attach? ==>
      && calls[order[k]].name !in s.devices
      && calls[order[k]].name in SerialResult(s, calls, order).devices
      && SerialResult(s, calls, order).devices[calls[order[k]].name] == calls[order[k]].device
    decreases order
  {
    if order != [] {
      var n := |order| - 1;
      SerialKeepsDevices(s, calls, order[..n]);
      assert order == order[..n] + [order[n]];
    }
  }

  /** No update is lost: every attach that succeeded is in the device map, under a name that was
      free, and no device that was there at the beginning has changed. */
  lemma NoAttachIsLost(calls: seq<Call>, run: seq<State>, k: nat, i: nat)
    requires IsRun(calls, run) && k < |run| && i < |calls|
    ensures |run[k].phases| == |calls|
    ensures calls[i].Attach? && run[k].phases[i] == Succeeded ==>
      && calls[i].name !in run[0].current.devices
      && calls[i].name in run[k].current.devices && run[k].current.devices[calls[i].name] == calls[i].device
    ensures forall name :: name in run[0].current.devices ==>
      name in run[k].current.devices && run[k].current.devices[name] == run[0].current.devices[name]
  {
    EveryRunIsSerial(calls, run, k);
    SerialKeepsDevices(run[0].current, calls, run[k].order);
    assert Recorded(calls, run[k], i);
  }

  /** Of two attaches under one name at most one succeeds. */
  lemma OneAttachPerName(calls: seq<Call>, run: seq<State>, k: nat, i: nat, j: nat)
    requires IsRun(calls, run) && k < |run| && i < |calls| && j < |calls| && i != j && |run[k].phases| == |calls|
    requires calls[i].Attach? && calls[j].Attach? && calls[i].name == calls[j].name
    ensures !(run[k].phases[i] == Succeeded && run[k].phases[j] == Succeeded)
  {
    EveryRunIsSerial(calls, run, k);
    assert Recorded(calls, run[k], i) && Recorded(calls, run[k], j);
    if run[k].phases[i] == Succeeded && run[k].phases[j] == Succeeded {
      var order := run[k].order;
      var a :| 0 <= a < |order| && order[a] == i;
      var b :| 0 <= b < |order| && order[b] == j;
      LaterFindsNameTaken(run[0].current, calls, order, if a < b then a else b, if a < b then b else a);
    }
  }

  lemma {:induction false} LaterFindsNameTaken(s: Writable, calls: seq<Call>, order: seq<nat>, a: nat, b: nat)
    requires InRange(calls, order) && SerialAccepts(s, calls, order)
    requires a < b < |order| && calls[order[a]].Attach? && calls[order[b]].Attach?
    ensures calls[order[a]].name != calls[order[b]].name
    decreases order
  {
    var n := |order| - 1;
    assert order == order[..n] + [order[n]];
    if b == n {
      SerialKeepsDevices(s, calls, order[..n]);
      assert order[..n][a] == order[a];
    } else {
      LaterFindsNameTaken(s, calls, order[..n], a, b);
    }
  }
}
