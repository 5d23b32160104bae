/** Any number of calls in flight at once, interleaved one request at a time. A detach is two requests:
    it reads the devices of the instance, and later writes back what it has read, but for one device.
    Between requests a call may change its plan on what it has read, as long as it attaches no volume
    it has not made itself. */
module Concurrent {
  import opened Names
  import opened World
  import opened Plans
  import opened Safety
  import opened SystemRuns
  import opened Discipline
  import Etag
  import BlindWrites
  import Adapter

  /** What a call still has to do, and what a detach that has read and not yet written holds. */
  datatype Call = Call(todo: Plan, held: Option<Etag.Writable>)

  /** `homes` records the VM and the device name under which each transient volume was attached. */
  datatype State = State(w: World, calls: map<nat, Call>, homes: map<string, (string, string)>)

  ghost predicate Begins(pool: string, s: State, s': State, p: nat, op: Op) {
    p !in s.calls && ValidOp(s.w, op) && s' == s.(calls := s.calls[p := Call(PlanOf(s.w, pool, op), None)])
  }

  /** The call's next request is a mutation in one piece. */
  predicate Ready(s: State, p: nat) {
    && p in s.calls && s.calls[p].held.None? && s.calls[p].todo.Then?
    && !s.calls[p].todo.effect.RemoveDevice? && Enabled(s.w, s.calls[p].todo.effect)
  }

  function NewHomes(homes: map<string, (string, string)>, e: Effect): map<string, (string, string)> {
    if e.AddDevice? && Transient(e.device.Source()) then homes[e.device.Source() := (e.vm, e.name)] else homes
  }

  function OneFurther(s: State, p: nat): State
    requires Ready(s, p)
  {
    var e := s.calls[p].todo.effect;
    State(Apply(s.w, e), s.calls[p := Call(s.calls[p].todo.rest, None)], NewHomes(s.homes, e))
  }

  predicate Proceeds(s: State, s': State, p: nat) {
    Ready(s, p) && s' == OneFurther(s, p)
  }

  /** The call is at a detach from an instance that is there. */
  predicate Detaching(s: State, p: nat) {
    && p in s.calls && s.calls[p].todo.Then? && s.calls[p].todo.effect.RemoveDevice?
    && s.calls[p].todo.effect.vm in s.w.instances
  }

  function Target(s: State, p: nat): Instance
    requires Detaching(s, p)
  {
    s.w.instances[s.calls[p].todo.effect.vm]
  }

  /** The read of a detach: without such a device there is nothing to write. */
  predicate Reads(s: State, s': State, p: nat) {
    && Detaching(s, p) && s.calls[p].held.None?
    && s' == s.(calls := s.calls[p :=
         if s.calls[p].todo.effect.name in Target(s, p).devices then s.calls[p].(held := Some(Adapter.WritableOf(Target(s, p))))
         else Call(s.calls[p].todo.rest, None)])
  }

  /** Its write, without an etag, whatever the instance is by now. */
  predicate Writes(s: State, s': State, p: nat) {
    && Detaching(s, p) && s.calls[p].held.Some?
    && var e := s.calls[p].todo.effect;
       s' == State(Adapter.Updated(s.w, e.vm, BlindWrites.Detached(s.calls[p].held.value, e.name)),
                   s.calls[p := Call(s.calls[p].todo.rest, None)], s.homes)
  }

  predicate Stops(s: State, s': State, p: nat) {
    s' == s.(calls := s.calls - {p})
  }

  ghost predicate Reacts(s: State, s': State, p: nat, plan: Plan) {
    && p in s.calls && s.calls[p].held.None? && Once(plan) && Within(plan, s.calls[p].todo)
    && s' == s.(calls := s.calls[p := Call(plan, None)])
  }

  /** The new plan attaches only volumes the old one was about to. */
  ghost predicate Within(plan: Plan, previous: Plan) {
    forall c :: Transient(c) && Armed(plan, c) ==> Armed(previous, c)
  }

  ghost predicate StepOf(pool: string, s: State, s': State, p: nat) {
    || (exists op :: Begins(pool, s, s', p, op)) || Proceeds(s, s', p) || Reads(s, s', p) || Writes(s, s', p)
    || Stops(s, s', p) || (exists plan :: Reacts(s, s', p, plan))
  }

  ghost predicate Next(pool: string, s: State, s': State) {
    exists p :: StepOf(pool, s, s', p)
  }

  ghost predicate NextAt(pool: string, run: seq<State>, i: nat)
    requires i + 1 < |run|
  {
    Next(pool, run[i], run[i + 1])
  }

  ghost predicate IsRun(pool: string, run: seq<State>) {
    && run != [] && Inv(run[0].w) && run[0] == State(run[0].w, map[], HomesOf(run[0].w))
    && forall i :: 0 <= i < |run| - 1 ==> NextAt(pool, run, i)
  }

  // ---- where the transient volumes are at the beginning

  ghost function InUse(w: World): set<string> {
    set vm, d | vm in w.instances && d in w.instances[vm].devices && Transient(w.instances[vm].devices[d].Source()) ::
      w.instances[vm].devices[d].Source()
  }

  ghost function HomeOf(w: World, c: string): (home: (string, string))
    requires c in InUse(w)
    ensures w.HasDevice(home.0, home.1) && w.instances[home.0].devices[home.1].Source() == c
  {
    var vm, d :| vm in w.instances && d in w.instances[vm].devices && w.instances[vm].devices[d].Source() == c;
    (vm, d)
  }

  ghost function HomesOf(w: World): map<string, (string, string)> {
    map c | c in InUse(w) :: HomeOf(w, c)
  }

  // ---- the invariant

  ghost predicate ArmedSound(s: State, p: nat, c: string) {
    p in s.calls && Transient(c) && Armed(s.calls[p].todo, c) ==>
      && UuidOf(c) in s.w.used && c !in s.homes
      && forall q :: q in s.calls && q != p ==> !Armed(s.calls[q].todo, c)
  }

  /** A transient volume is where it was attached. */
  predicate AtHome(s: State, vm: string, d: string) {
    s.w.HasDevice(vm, d) && Transient(s.w.instances[vm].devices[d].Source()) ==>
      var c := s.w.instances[vm].devices[d].Source();
      c in s.homes && s.homes[c] == (vm, d)
  }

  /** So it is in what a detach holds. */
  predicate HeldAtHome(s: State, p: nat, d: string) {
    && p in s.calls && s.calls[p].held.Some? && d in s.calls[p].held.value.devices
    && Transient(s.calls[p].held.value.devices[d].Source()) ==>
      var c := s.calls[p].held.value.devices[d].Source();
      && s.calls[p].todo.Then? && s.calls[p].todo.effect.RemoveDevice?
      && c in s.homes && s.homes[c] == (s.calls[p].todo.effect.vm, d)
  }

  predicate HomeIssued(s: State, c: string) {
    c in s.homes ==> Transient(c) && UuidOf(c) in s.w.used
  }

  ghost predicate Sound(s: State) {
    && (forall p :: p in s.calls ==> Once(s.calls[p].todo))
    && (forall p, c :: ArmedSound(s, p, c))
    && (forall vm, d :: AtHome(s, vm, d))
    && (forall p, d :: HeldAtHome(s, p, d))
    && (forall c :: HomeIssued(s, c))
  }

  lemma SoundSingleUse(s: State)
    requires Sound(s)
    ensures SingleUse(s.w)
  {
    forall vm1, d1, vm2, d2 |
      && s.w.HasDevice(vm1, d1) && s.w.HasDevice(vm2, d2)
      && s.w.instances[vm1].devices[d1].Source() == s.w.instances[vm2].devices[d2].Source()
      && Transient(s.w.instances[vm1].devices[d1].Source())
      ensures vm1 == vm2 && d1 == d2
    {
      assert AtHome(s, vm1, d1) && AtHome(s, vm2, d2);
    }
  }

  lemma InitialSound(w: World)
    requires Inv(w)
    ensures Sound(State(w, map[], HomesOf(w)))
  {
    var s := State(w, map[], HomesOf(w));
    forall vm, d ensures AtHome(s, vm, d) {
      if w.HasDevice(vm, d) && Transient(w.instances[vm].devices[d].Source()) {
        var c := w.instances[vm].devices[d].Source();
        assert c in InUse(w);
        var home := HomeOf(w, c);
        assert w.HasDevice(home.0, home.1) && home.0 == vm && home.1 == d;
      }
    }
    forall c ensures HomeIssued(s, c) {
      if c in s.homes {
        var home := HomeOf(w, c);
        AttachedBy(w, home.0, home.1);
        InUseExists(w, c);
      }
    }
  }

  /** A device of the new state is an old one, or the one just added, or has no transient source. */
  lemma DeviceOrigin(w: World, e: Effect, vm: string, d: string)
    requires Enabled(w, e) && (e.MakeInstance? ==> FreshInstance(e.instance)) && Apply(w, e).HasDevice(vm, d)
    ensures || (w.HasDevice(vm, d) && w.instances[vm].devices[d] == Apply(w, e).instances[vm].devices[d])
      || (e.AddDevice? && vm == e.vm && d == e.name && e.device == Apply(w, e).instances[vm].devices[d])
      || !Transient(Apply(w, e).instances[vm].devices[d].Source())
  {
  }

  lemma UsedGrows(w: World, e: Effect)
    ensures w.used <= Apply(w, e).used
  {
  }

  /** What the next mutation of a call attaches, it was armed with. */
  lemma NextIsArmed(s: State, p: nat)
    requires Sound(s) && Ready(s, p)
    ensures var e := s.calls[p].todo.effect;
      e.AddDevice? && Transient(e.device.Source()) ==>
        var c := e.device.Source();
        && Armed(s.calls[p].todo, c) && c !in s.homes && UuidOf(c) in s.w.used && !Armed(s.calls[p].todo.rest, c)
        && forall q :: q in s.calls && q != p ==> !Armed(s.calls[q].todo, c)
    ensures s.calls[p].todo.effect.MakeInstance? ==> FreshInstance(s.calls[p].todo.effect.instance)
  {
    var e := s.calls[p].todo.effect;
    assert Once(s.calls[p].todo);
    if e.AddDevice? && Transient(e.device.Source()) {
      assert ArmedSound(s, p, e.device.Source());
      ArmedUses(s.calls[p].todo.rest, e.device.Source());
    }
  }

  lemma ProceedArmed(s: State, p: nat, q: nat, c: string)
    requires Sound(s) && Ready(s, p)
    ensures ArmedSound(OneFurther(s, p), q, c)
  {
    var s' := OneFurther(s, p);
    var e := s.calls[p].todo.effect;
    NextIsArmed(s, p);
    UsedGrows(s.w, e);
    if q in s'.calls && Transient(c) && Armed(s'.calls[q].todo, c) {
      assert ArmedSound(s, q, c) && HomeIssued(s, c);
      forall r | r in s'.calls && r != q ensures !Armed(s'.calls[r].todo, c) { assert ArmedSound(s, r, c); }
    }
  }

  lemma ProceedAtHome(s: State, p: nat, vm: string, d: string)
    requires Sound(s) && Ready(s, p)
    ensures AtHome(OneFurther(s, p), vm, d)
  {
    var e := s.calls[p].todo.effect;
    NextIsArmed(s, p);
    assert AtHome(s, vm, d);
    if Apply(s.w, e).HasDevice(vm, d) && Transient(Apply(s.w, e).instances[vm].devices[d].Source()) {
      DeviceOrigin(s.w, e, vm, d);
    }
  }

  lemma ProceedSound(s: State, p: nat)
    requires Sound(s) && Ready(s, p)
    ensures Sound(OneFurther(s, p))
  {
    var s' := OneFurther(s, p);
    NextIsArmed(s, p);
    UsedGrows(s.w, s.calls[p].todo.effect);
    forall q ensures q in s'.calls ==> Once(s'.calls[q].todo) { assert Once(s.calls[p].todo); }
    forall q, c ensures ArmedSound(s', q, c) { ProceedArmed(s, p, q, c); }
    forall vm, d ensures AtHome(s', vm, d) { ProceedAtHome(s, p, vm, d); }
    forall q, d ensures HeldAtHome(s', q, d) { assert HeldAtHome(s, q, d); }
    forall c ensures HomeIssued(s', c) { assert HomeIssued(s, c); }
  }

  /** Reading and writing of a detach. */
  lemma DetachSound(s: State, s': State, p: nat)
    requires Sound(s) && (Reads(s, s', p) || Writes(s, s', p))
    ensures Sound(s')
  {
    var e := s.calls[p].todo.effect;
    assert Once(s.calls[p].todo);
    forall q ensures q in s'.calls ==> Once(s'.calls[q].todo) { }
    forall q, c ensures ArmedSound(s', q, c) {
      assert ArmedSound(s, q, c) && (q in s'.calls && Armed(s'.calls[q].todo, c) ==> Armed(s.calls[q].todo, c));
      forall r | r in s'.calls ensures Armed(s'.calls[r].todo, c) ==> Armed(s.calls[r].todo, c) { }
    }
    forall vm, d ensures AtHome(s', vm, d) { assert AtHome(s, vm, d) && HeldAtHome(s, p, d); }
    forall q, d ensures HeldAtHome(s', q, d) { assert HeldAtHome(s, q, d) && AtHome(s, e.vm, d); }
    forall c ensures HomeIssued(s', c) { assert HomeIssued(s, c); }
  }

  lemma OtherSound(pool: string, s: State, s': State, p: nat, op: Op, plan: Plan)
    requires Sound(s) && (Begins(pool, s, s', p, op) || Stops(s, s', p) || Reacts(s, s', p, plan))
    ensures Sound(s')
  {
    if Begins(pool, s, s', p, op) { OpGood(s.w, pool, op); }
    forall q ensures q in s'.calls ==> Once(s'.calls[q].todo) { }
    forall q, c ensures ArmedSound(s', q, c) {
      assert ArmedSound(s, q, c);
      forall r | r in s'.calls && r in s.calls ensures ArmedSound(s, r, c) { }
    }
    forall vm, d ensures AtHome(s', vm, d) { assert AtHome(s, vm, d); }
    forall q, d ensures HeldAtHome(s', q, d) { assert HeldAtHome(s, q, d); }
    forall c ensures HomeIssued(s', c) { assert HomeIssued(s, c); }
  }

  lemma StepSound(pool: string, s: State, s': State)
    requires Sound(s) && Next(pool, s, s')
    ensures Sound(s')
  {
    var p :| StepOf(pool, s, s', p);
    if Proceeds(s, s', p) {
      ProceedSound(s, p);
    } else if Reads(s, s', p) || Writes(s, s', p) {
      DetachSound(s, s', p);
    } else if op :| Begins(pool, s, s', p, op) {
      OtherSound(pool, s, s', p, op, Done);
    } else if plan :| Reacts(s, s', p, plan) {
      OtherSound(pool, s, s', p, DeleteDisk(""), plan);
    } else {
      OtherSound(pool, s, s', p, DeleteDisk(""), Done);
    }
  }

  /** With any number of calls in flight, in every state of every run: a configuration or ephemeral
      volume is behind at most one device of all instances. */
  lemma {:induction false} EveryStateSound(pool: string, run: seq<State>, i: nat)
    requires IsRun(pool, run) && i < |run|
    ensures Sound(run[i]) && SingleUse(run[i].w)
  {
    if i == 0 {
      InitialSound(run[0].w);
    } else {
      EveryStateSound(pool, run, i - 1);
      assert NextAt(pool, run, i - 1);
      StepSound(pool, run[i - 1], run[i]);
    }
    SoundSingleUse(run[i]);
  }

  // ---- one home for life

  lemma StepKeepsHomes(pool: string, s: State, s': State, c: string)
    requires Sound(s) && Next(pool, s, s') && c in s.homes
    ensures c in s'.homes && s'.homes[c] == s.homes[c]
  {
    var p :| StepOf(pool, s, s', p);
    if Proceeds(s, s', p) { NextIsArmed(s, p); }
  }

  lemma {:induction false} HomesStay(pool: string, run: seq<State>, i: nat, j: nat, c: string)
    requires IsRun(pool, run) && i <= j < |run| && c in run[i].homes
    ensures c in run[j].homes && run[j].homes[c] == run[i].homes[c]
    decreases j
  {
    if i < j {
      HomesStay(pool, run, i, j - 1, c);
      EveryStateSound(pool, run, j - 1);
      assert NextAt(pool, run, j - 1);
      StepKeepsHomes(pool, run[j - 1], run[j], c);
    }
  }

  /** The device that uses a transient volume is at its home. */
  lemma UserIsHome(s: State, vm: string, c: string)
    requires Sound(s) && Transient(c) && s.w.UsedBy(vm, c)
    ensures c in s.homes && s.homes[c].0 == vm
    ensures s.w.HasDevice(vm, s.homes[c].1) && s.w.instances[vm].devices[s.homes[c].1].Source() == c
  {
    var d :| d in s.w.instances[vm].devices && s.w.instances[vm].devices[d].Source() == c;
    assert AtHome(s, vm, d);
  }

  /** One VM, and one device name, for life: whatever else goes on. */
  lemma OneOwnerForLife(pool: string, run: seq<State>, i: nat, j: nat, vm1: string, d1: string, vm2: string, d2: string, c: string)
    requires IsRun(pool, run) && i <= j < |run| && Transient(c)
    requires run[i].w.HasDevice(vm1, d1) && run[i].w.instances[vm1].devices[d1].Source() == c
    requires run[j].w.HasDevice(vm2, d2) && run[j].w.instances[vm2].devices[d2].Source() == c
    ensures vm1 == vm2 && d1 == d2
  {
    EveryStateSound(pool, run, i);
    EveryStateSound(pool, run, j);
    assert AtHome(run[i], vm1, d1) && AtHome(run[j], vm2, d2);
    HomesStay(pool, run, i, j, c);
  }

  // ---- when a volume is attached again

  /** The call has held since `r` what it read there. */
  ghost predicate HeldFrom(run: seq<State>, r: nat, k: nat, p: nat) {
    && r < k < |run| && Detaching(run[r], p)
    && forall j :: r < j <= k ==> Holds(run[r], run[j], p)
  }

  predicate Holds(s: State, s': State, p: nat)
    requires Detaching(s, p)
  {
    p in s'.calls && s'.calls[p] == Call(s.calls[p].todo, Some(Adapter.WritableOf(Target(s, p))))
  }

  lemma {:induction false} HeldWasRead(pool: string, run: seq<State>, k: nat, p: nat) returns (r: nat)
    requires IsRun(pool, run) && k < |run| && p in run[k].calls && run[k].calls[p].held.Some?
    ensures HeldFrom(run, r, k, p)
  {
    assert k > 0;
    assert NextAt(pool, run, k - 1);
    var q :| StepOf(pool, run[k - 1], run[k], q);
    if q == p && Reads(run[k - 1], run[k], p) {
      r := k - 1;
      assert Holds(run[r], run[k], p);
    } else {
      assert p in run[k - 1].calls && run[k - 1].calls[p] == run[k].calls[p];
      r := HeldWasRead(pool, run, k - 1, p);
      assert Holds(run[r], run[k - 1], p);
      forall j | r < j <= k ensures Holds(run[r], run[j], p) { }
    }
  }

  /** A detach wrote at `k` what it had read at `r`, and the volume was there under another name. */
  ghost predicate RestoredBy(run: seq<State>, r: nat, k: nat, p: nat, c: string) {
    && k + 1 < |run| && HeldFrom(run, r, k, p) && Writes(run[k], run[k + 1], p)
    && exists d :: d in Target(run[r], p).devices && d != run[r].calls[p].todo.effect.name && Target(run[r], p).devices[d].Source() == c
  }

  /** The step attaches a volume that is not in use. */
  lemma AttachedByStep(pool: string, s: State, s': State, c: string) returns (p: nat)
    requires Sound(s) && Next(pool, s, s') && c in s.homes && !s.w.Attached(c) && s'.w.Attached(c)
    ensures Writes(s, s', p)
    ensures exists d :: d in s.calls[p].held.value.devices && d != s.calls[p].todo.effect.name && s.calls[p].held.value.devices[d].Source() == c
  {
    p :| StepOf(pool, s, s', p);
    if Proceeds(s, s', p) { ProceedDoesNot(s, p, c); }
    assert Writes(s, s', p);
    WriteRestores(s, s', p, c);
  }

  lemma ProceedDoesNot(s: State, p: nat, c: string)
    requires Sound(s) && Ready(s, p) && c in s.homes && !s.w.Attached(c)
    ensures !OneFurther(s, p).w.Attached(c)
  {
    var e := s.calls[p].todo.effect;
    assert HomeIssued(s, c);
    NextIsArmed(s, p);
    var w' := Apply(s.w, e);
    forall vm | vm in w'.instances ensures !w'.UsedBy(vm, c) {
      forall d | d in w'.instances[vm].devices ensures w'.instances[vm].devices[d].Source() != c {
        DeviceOrigin(s.w, e, vm, d);
        if s.w.HasDevice(vm, d) { AttachedBy(s.w, vm, d); }
      }
    }
  }

  lemma WriteRestores(s: State, s': State, p: nat, c: string)
    requires Writes(s, s', p) && !s.w.Attached(c) && s'.w.Attached(c)
    ensures exists d :: d in s.calls[p].held.value.devices && d != s.calls[p].todo.effect.name && s.calls[p].held.value.devices[d].Source() == c
  {
    var vm :| vm in s'.w.instances && s'.w.UsedBy(vm, c);
    var d :| d in s'.w.instances[vm].devices && s'.w.instances[vm].devices[d].Source() == c;
    if s.w.HasDevice(vm, d) { AttachedBy(s.w, vm, d); }
    assert vm == s.calls[p].todo.effect.vm;
    assert d in s.calls[p].held.value.devices;
  }

  /** A volume that was attached before and is in no use is attached again exactly when a detach
      writes back, under another name than its own, what it had read while the volume was attached. */
  lemma ReattachedExactly(pool: string, run: seq<State>, k: nat, c: string)
    requires IsRun(pool, run) && k + 1 < |run| && c in run[k].homes && !run[k].w.Attached(c)
    ensures run[k + 1].w.Attached(c) <==> exists r, p :: RestoredBy(run, r, k, p, c)
  {
    EveryStateSound(pool, run, k);
    assert NextAt(pool, run, k);
    if run[k + 1].w.Attached(c) {
      var p := AttachedByStep(pool, run[k], run[k + 1], c);
      var r := HeldWasRead(pool, run, k, p);
      assert Holds(run[r], run[k], p);
      assert RestoredBy(run, r, k, p, c);
    }
    if r, p :| RestoredBy(run, r, k, p, c) { RestoringAttaches(run, r, k, p, c); }
  }

  lemma RestoringAttaches(run: seq<State>, r: nat, k: nat, p: nat, c: string)
    requires RestoredBy(run, r, k, p, c)
    ensures run[r].w.Attached(c) && run[k + 1].w.Attached(c)
  {
    var vm := run[r].calls[p].todo.effect.vm;
    var d :| d in Target(run[r], p).devices && d != run[r].calls[p].todo.effect.name && Target(run[r], p).devices[d].Source() == c;
    AttachedBy(run[r].w, vm, d);
    assert Holds(run[r], run[k], p);
    assert run[k + 1].w.HasDevice(vm, d);
    AttachedBy(run[k + 1].w, vm, d);
  }

  /** Once detached, in use again at some time exactly when some detach so restores the volume. */
  lemma {:induction false} ReattachedOver(pool: string, run: seq<State>, j: nat, k: nat, c: string)
    requires IsRun(pool, run) && j <= k < |run| && c in run[j].homes && !run[j].w.Attached(c)
    ensures (exists m :: j <= m <= k && run[m].w.Attached(c)) <==> (exists q, r, p :: j <= q < k && RestoredBy(run, r, q, p, c))
    decreases k
  {
    if j < k {
      ReattachedOver(pool, run, j, k - 1, c);
      HomesStay(pool, run, j, k - 1, c);
      if !run[k - 1].w.Attached(c) { ReattachedExactly(pool, run, k - 1, c); }
      if run[k].w.Attached(c) && !run[k - 1].w.Attached(c) {
        var r, p :| RestoredBy(run, r, k - 1, p, c);
      }
      if q, r, p :| j <= q < k && RestoredBy(run, r, q, p, c) { RestoringAttaches(run, r, q, p, c); }
    }
  }

  /** A configuration or ephemeral volume that was attached, and is not, is attached again in a run of
      concurrent calls exactly when a detach that had read the instance before writes it back. */
  lemma ReattachedWhen(pool: string, run: seq<State>, i: nat, j: nat, k: nat, c: string)
    requires IsRun(pool, run) && i <= j <= k < |run| && Transient(c)
    requires run[i].w.Attached(c) && !run[j].w.Attached(c)
    ensures (exists m :: j <= m <= k && run[m].w.Attached(c)) <==> (exists q, r, p :: j <= q < k && RestoredBy(run, r, q, p, c))
  {
    EveryStateSound(pool, run, i);
    var vm :| vm in run[i].w.instances && run[i].w.UsedBy(vm, c);
    UserIsHome(run[i], vm, c);
    HomesStay(pool, run, i, j, c);
    ReattachedOver(pool, run, j, k, c);
  }

  // ---- it takes two calls

  /** Somewhere between the two states the volume was detached. */
  lemma {:induction false} DetachedBetween(run: seq<State>, r: nat, k: nat, c: string) returns (m: nat)
    requires r < k < |run| && run[r].w.Attached(c) && !run[k].w.Attached(c)
    ensures r <= m < k && run[m].w.Attached(c) && !run[m + 1].w.Attached(c)
    decreases k
  {
    if run[k - 1].w.Attached(c) { m := k - 1; } else { m := DetachedBetween(run, r, k - 1, c); }
  }

  /** While a detach holds what it has read, it is another call that detaches the volume. */
  lemma ReattachingTakesTwo(pool: string, run: seq<State>, r: nat, k: nat, p: nat, c: string) returns (m: nat, q: nat)
    requires IsRun(pool, run) && RestoredBy(run, r, k, p, c) && !run[k].w.Attached(c)
    ensures r <= m < k && run[m].w.Attached(c) && !run[m + 1].w.Attached(c)
    ensures q != p && (Proceeds(run[m], run[m + 1], q) || Writes(run[m], run[m + 1], q))
  {
    RestoringAttaches(run, r, k, p, c);
    m := DetachedBetween(run, r, k, c);
    assert NextAt(pool, run, m);
    q :| StepOf(pool, run[m], run[m + 1], q);
    assert Holds(run[r], run[m + 1], p);
  }
}
