/** A detach beside the conditional updates: it reads the instance, and writes back without an etag. */
module BlindWrites {
  import opened Etag

  datatype Detach = Idle | Holding(seen: Writable) | Over

  datatype Mixed = Mixed(s: State, detach: Detach)

  /** What a detach writes: all that it has read, but for the device. */
  function Detached(seen: Writable, name: string): Writable {
    seen.(devices := seen.devices - {name})
  }

  /** The read: without such a device there is nothing more to do. */
  predicate BlindReads(m: Mixed, m': Mixed, name: string) {
    && m.detach.Idle?
    && m' == m.(detach := if name in m.s.current.devices then Holding(m.s.current) else Over)
  }

  /** The write goes through whatever the instance is by now. */
  predicate BlindlyWrites(m: Mixed, m': Mixed, name: string) {
    && m.detach.Holding?
    && m' == Mixed(m.s.(current := Detached(m.detach.seen, name)), Over)
  }

  predicate BlindFails(m: Mixed, m': Mixed) {
    !m.detach.Over? && m' == m.(detach := Over)
  }

  ghost predicate Next(calls: seq<Call>, name: string, m: Mixed, m': Mixed) {
    || (Etag.Next(calls, m.s, m'.s) && m'.detach == m.detach)
    || BlindReads(m, m', name) || BlindlyWrites(m, m', name) || BlindFails(m, m')
  }

  ghost predicate StepAt(calls: seq<Call>, name: string, run: seq<Mixed>, i: nat)
    requires i + 1 < |run|
  {
    Next(calls, name, run[i], run[i + 1])
  }

  ghost predicate IsMixedRun(calls: seq<Call>, name: string, run: seq<Mixed>) {
    && run != [] && Start(calls, run[0].s) && run[0].detach.Idle?
    && forall i :: 0 <= i < |run| - 1 ==> StepAt(calls, name, run, i)
  }

  /** As long as the detach is not over, the other calls are serialised as they are without it. */
  lemma {:induction false} SerialUntilWrite(calls: seq<Call>, name: string, run: seq<Mixed>, j: nat)
    requires IsMixedRun(calls, name, run) && j < |run| && !run[j].detach.Over?
    ensures Serialised(run[0].s.current, calls, run[j].s)
  {
    if j > 0 {
      assert StepAt(calls, name, run, j - 1);
      SerialUntilWrite(calls, name, run, j - 1);
      if Etag.Next(calls, run[j - 1].s, run[j].s) { StepSerialised(run[0].s.current, calls, run[j - 1].s, run[j].s); }
    }
  }

  /** What has happened since the detach read the instance. */
  ghost predicate Since(calls: seq<Call>, before: State, m: Mixed) {
    && m.detach == Holding(before.current)
    && before.order <= m.s.order && InRange(calls, m.s.order)
    && (forall n :: n in before.current.devices ==> n in m.s.current.devices)
    && (forall i :: i in m.s.order && i !in before.order && calls[i].Attach? ==> calls[i].name !in before.current.devices)
  }

  lemma StepSince(calls: seq<Call>, name: string, before: State, m: Mixed, m': Mixed, start: Writable)
    requires Since(calls, before, m) && Serialised(start, calls, m.s) && Next(calls, name, m, m') && m'.detach.Holding?
    ensures Since(calls, before, m')
  {
    var i: nat :| Reads(calls, m.s, m'.s, i) || Writes(calls, m.s, m'.s, i) || Fails(m.s, m'.s, i);
    if Writes(calls, m.s, m'.s, i) && m.s.current == m.s.phases[i].seen {
      assert Recorded(calls, m.s, i);
    }
  }

  lemma {:induction false} HeldSince(calls: seq<Call>, name: string, run: seq<Mixed>, r: nat, k: nat)
    requires IsMixedRun(calls, name, run) && r < k < |run| && run[r].detach.Idle? && BlindReads(run[r], run[r + 1], name)
    requires run[k].detach.Holding?
    ensures Since(calls, run[r].s, run[k])
    decreases k
  {
    if k == r + 1 {
      SerialUntilWrite(calls, name, run, k);
    } else {
      assert StepAt(calls, name, run, k - 1);
      NeverIdleAgain(calls, name, run, r + 1, k - 1);
      HeldSince(calls, name, run, r, k - 1);
      SerialUntilWrite(calls, name, run, k - 1);
      StepSince(calls, name, run[r].s, run[k - 1], run[k], run[0].s.current);
    }
  }

  lemma {:induction false} NeverIdleAgain(calls: seq<Call>, name: string, run: seq<Mixed>, j: nat, k: nat)
    requires IsMixedRun(calls, name, run) && j <= k < |run| && !run[j].detach.Idle?
    ensures !run[k].detach.Idle?
    decreases k
  {
    if j < k {
      NeverIdleAgain(calls, name, run, j, k - 1);
      assert StepAt(calls, name, run, k - 1);
    }
  }

  /** The write of the detach restores what it had read: an attach that has succeeded under another
      name is missing afterwards exactly when its own write came after the read. */
  lemma BlindWriteLosesAttach(calls: seq<Call>, name: string, run: seq<Mixed>, r: nat, k: nat, i: nat)
    requires IsMixedRun(calls, name, run) && r < k && k + 1 < |run|
    requires BlindReads(run[r], run[r + 1], name) && BlindlyWrites(run[k], run[k + 1], name)
    requires i < |calls| && calls[i].Attach? && calls[i].name != name && i in run[k].s.order
    ensures run[k + 1].s.current == Detached(run[r].s.current, name)
    ensures calls[i].name !in run[k + 1].s.current.devices <==> i !in run[r].s.order
  {
    HeldSince(calls, name, run, r, k);
    SerialUntilWrite(calls, name, run, r);
    SerialKeepsDevices(run[0].s.current, calls, run[r].s.order);
  }

  /** A run in which a successful attach is lost, on every instance with a device to detach. */
  lemma AttachIsLost(start: Writable, detached: string, call: Call) returns (run: seq<Mixed>)
    requires detached in start.devices && call.Attach? && call.name !in start.devices
    ensures IsMixedRun([call], detached, run) && run[0].s.current == start
    ensures var last := run[|run| - 1].s; last.phases == [Succeeded] && last.order == [0] && call.name !in last.current.devices
  {
    var calls := [call];
    var m0 := Mixed(State(start, [Ready], []), Idle);
    var m1 := m0.(detach := Holding(start));
    var m2 := m1.(s := State(start, [Fetched(start)], []));
    var m3 := m2.(s := State(Perform(start, call), [Succeeded], [0]));
    var m4 := Mixed(m3.s.(current := Detached(start, detached)), Over);
    run := [m0, m1, m2, m3, m4];
    assert BlindReads(m0, m1, detached);
    assert Reads(calls, m1.s, m2.s, 0);
    assert Writes(calls, m2.s, m3.s, 0);
    assert BlindlyWrites(m3, m4, detached);
    assert StepAt(calls, detached, run, 0) && StepAt(calls, detached, run, 1);
    assert StepAt(calls, detached, run, 2) && StepAt(calls, detached, run, 3);
  }
}
