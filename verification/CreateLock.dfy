/** The lock around instance creation. It lets a creator through once it has waited long enough. */
module CreateLock {
  import opened Names
  import opened Replay

  type Pid = nat
  type Time = int

  /** How a creator got to `CreateInstance`: the lock is disabled for it, it holds the lock, or it
      gave up waiting. */
  datatype Entry = Unguarded | WithLock | TimedOut(waited: Time)

  datatype Phase = Waiting(since: Time) | Creating(entry: Entry) | Returned

  datatype State = State(now: Time, creators: map<Pid, Phase>, owner: Option<Pid>)

  datatype Action =
    | Call(p: Pid, guarded: bool)     // `createVMWithLock` is called
    | Acquire(p: Pid)                 // a try finds the lock free
    | GiveUp(p: Pid)                  // the context's deadline is exceeded
    | LockError(p: Pid)               // a try fails for another reason
    | Return(p: Pid)                  // `CreateInstance` is over, with or without an error
    | Die(p: Pid)                     // the process ends; the system closes its files
    | Tick(to: Time)

  predicate InPhase(s: State, p: Pid, phase: Phase) {
    p in s.creators && s.creators[p] == phase
  }

  predicate IsWaiting(s: State, p: Pid) { p in s.creators && s.creators[p].Waiting? }

  predicate IsCreating(s: State, p: Pid) { p in s.creators && s.creators[p].Creating? }

  predicate May(timeout: Time, s: State, a: Action) {
    match a
    case Call(p, _) => p !in s.creators
    case Acquire(p) => IsWaiting(s, p) && s.owner == None
    case GiveUp(p) => IsWaiting(s, p) && s.now >= s.creators[p].since + timeout
    case LockError(p) => IsWaiting(s, p)
    case Return(p) => IsCreating(s, p)
    case Die(p) => p in s.creators
    case Tick(to) => s.now < to
  }

  function Do(timeout: Time, s: State, a: Action): State
    requires May(timeout, s, a)
  {
    match a
    case Call(p, guarded) => s.(creators := s.creators[p := if guarded then Waiting(s.now) else Creating(Unguarded)])
    case Acquire(p) => s.(creators := s.creators[p := Creating(WithLock)], owner := Some(p))
    case GiveUp(p) => s.(creators := s.creators[p := Creating(TimedOut(s.now - s.creators[p].since))])
    case LockError(p) => s.(creators := s.creators[p := Returned])
    case Return(p) =>
      s.(creators := s.creators[p := Returned], owner := if s.creators[p] == Creating(WithLock) then None else s.owner)
    case Die(p) => s.(creators := s.creators[p := Returned], owner := if s.owner == Some(p) then None else s.owner)
    case Tick(to) => s.(now := to)
  }

  ghost predicate StepAt(timeout: Time, run: seq<State>, i: nat)
    requires i + 1 < |run|
  {
    exists a :: May(timeout, run[i], a) && run[i + 1] == Do(timeout, run[i], a)
  }

  ghost predicate IsRun(timeout: Time, run: seq<State>) {
    && run != [] && run[0].creators == map[] && run[0].owner == None
    && forall i :: 0 <= i < |run| - 1 ==> StepAt(timeout, run, i)
  }

  /** The lock is held by exactly the creator that went in with it, and whoever went in without
      has waited for the whole timeout. */
  ghost predicate Sound(timeout: Time, s: State) {
    forall p: Pid :: Fair(timeout, s, p)
  }

  predicate Fair(timeout: Time, s: State, p: Pid) {
    && (s.owner == Some(p) <==> InPhase(s, p, Creating(WithLock)))
    && (IsCreating(s, p) && s.creators[p].entry.TimedOut? ==> s.creators[p].entry.waited >= timeout)
  }

  lemma StepSound(timeout: Time, s: State, a: Action)
    requires Sound(timeout, s) && May(timeout, s, a)
    ensures Sound(timeout, Do(timeout, s, a))
  {
    forall p: Pid ensures Fair(timeout, Do(timeout, s, a), p) {
      assert Fair(timeout, s, p);
      assert !a.Tick? ==> Fair(timeout, s, a.p);
    }
  }

  lemma {:induction false} EveryStateSound(timeout: Time, run: seq<State>, k: nat)
    requires IsRun(timeout, run) && k < |run|
    ensures Sound(timeout, run[k])
  {
    if k > 0 {
      EveryStateSound(timeout, run, k - 1);
      assert StepAt(timeout, run, k - 1);
      var a :| May(timeout, run[k - 1], a) && run[k] == Do(timeout, run[k - 1], a);
      StepSound(timeout, run[k - 1], a);
    }
  }

  /** The guarded creators inside `CreateInstance`, and those of them that timed out. */
  function Inside(s: State): set<Pid> {
    set p | p in s.creators && s.creators[p].Creating? && s.creators[p].entry != Unguarded
  }

  function LetThrough(s: State): set<Pid> {
    set p | p in Inside(s) && s.creators[p].entry.TimedOut?
  }

  /** At most one guarded creator is inside with the lock: of n inside at once, at least n - 1 have
      waited for the whole timeout. */
  lemma AllButOneTimedOut(timeout: Time, run: seq<State>, k: nat)
    requires IsRun(timeout, run) && k < |run|
    ensures |LetThrough(run[k])| >= |Inside(run[k])| - 1
    ensures forall p :: p in LetThrough(run[k]) ==> run[k].creators[p].entry.waited >= timeout
    ensures forall p: Pid, q: Pid :: InPhase(run[k], p, Creating(WithLock)) && InPhase(run[k], q, Creating(WithLock)) ==> p == q
  {
    var s := run[k];
    EveryStateSound(timeout, run, k);
    var locked := if s.owner.None? then {} else {s.owner.value};
    forall p | p in Inside(s) ensures p in LetThrough(s) || p in locked { assert Fair(timeout, s, p); }
    assert Inside(s) <= LetThrough(s) + locked;
    Larger(LetThrough(s) + locked, Inside(s));
    forall p | p in LetThrough(s) ensures s.creators[p].entry.waited >= timeout { assert Fair(timeout, s, p); }
    forall p: Pid, q: Pid | InPhase(s, p, Creating(WithLock)) && InPhase(s, q, Creating(WithLock)) ensures p == q {
      assert Fair(timeout, s, p) && Fair(timeout, s, q);
    }
  }

  lemma Larger(a: set<Pid>, b: set<Pid>)
    requires b <= a
    ensures |b| <= |a|
  {
    assert a == b + (a - b);
  }

  /** The lock changes hands only by its owner's own doing: nobody releases a lock he did not take,
      nobody takes one that is held. */
  lemma OnlyTheOwnerReleases(timeout: Time, run: seq<State>, k: nat, p: Pid)
    requires IsRun(timeout, run) && k + 1 < |run| && run[k].owner == Some(p)
    ensures run[k + 1].owner == Some(p) || (run[k + 1].owner == None && InPhase(run[k + 1], p, Returned))
  {
    EveryStateSound(timeout, run, k);
    assert StepAt(timeout, run, k);
    var a :| May(timeout, run[k], a) && run[k + 1] == Do(timeout, run[k], a);
    assert a.Return? ==> Fair(timeout, run[k], a.p);
  }

  /** Whoever has returned, on whatever path, does not hold the lock, then or later. */
  lemma {:induction false} ReturnedHoldsNothing(timeout: Time, run: seq<State>, j: nat, k: nat, p: Pid)
    requires IsRun(timeout, run) && j <= k < |run| && InPhase(run[j], p, Returned)
    ensures InPhase(run[k], p, Returned) && run[k].owner != Some(p)
    decreases k
  {
    EveryStateSound(timeout, run, k);
    assert Fair(timeout, run[k], p);
    if j < k {
      ReturnedHoldsNothing(timeout, run, j, k - 1, p);
      assert StepAt(timeout, run, k - 1);
    }
  }

  /** Once all have returned the lock is free. */
  lemma FreeInTheEnd(timeout: Time, run: seq<State>, k: nat)
    requires IsRun(timeout, run) && k < |run|
    requires forall p :: p in run[k].creators ==> run[k].creators[p] == Returned
    ensures run[k].owner == None
  {
    EveryStateSound(timeout, run, k);
    assert run[k].owner.Some? ==> Fair(timeout, run[k], run[k].owner.value);
  }

  // ---- the code of one creator

  /** The machine of the creators. */
  function Creators(timeout: Time): Machine<State, Action> {
    Machine((s, a) => May(timeout, s, a), (s, a) => if May(timeout, s, a) then Do(timeout, s, a) else s)
  }

  predicate Belongs(a: Action, p: Pid) {
    !a.Tick? && a.p == p
  }

  /** The actions from position `n` on are the doing of others, or the passing of time. */
  ghost predicate ByOthers(actions: seq<Action>, n: nat, p: Pid) {
    forall i :: n <= i < |actions| ==> !Belongs(actions[i], p)
  }

  /** What the others cannot touch: where the creator is, and the lock in its hands. */
  predicate Keeps(s: State, s': State, p: Pid) {
    && s.now <= s'.now && (p in s'.creators <==> p in s.creators) && (p in s.creators ==> s'.creators[p] == s.creators[p])
    && (s'.owner == Some(p) <==> s.owner == Some(p))
  }

  lemma StepKeeps(timeout: Time, s: State, a: Action, p: Pid)
    requires Sound(timeout, s) && May(timeout, s, a) && !Belongs(a, p)
    ensures Keeps(s, Do(timeout, s, a), p)
  {
    assert Fair(timeout, s, p) && (!a.Tick? ==> Fair(timeout, s, a.p));
  }

  datatype TryResult = Locked | DeadlineExceeded | Broken

  /** How the waiting ends. */
  function Ends(r: TryResult, p: Pid): Action {
    match r
    case Locked => Acquire(p)
    case DeadlineExceeded => GiveUp(p)
    case Broken => LockError(p)
  }

  class FileLock {
    const timeout: Time
    var state: State

    constructor (timeout: Time, state: State)
      requires Sound(timeout, state)
      ensures this.timeout == timeout && this.state == state && Valid()
    {
      this.timeout, this.state := timeout, state;
    }

    ghost predicate Valid()
      reads this
    {
      Sound(timeout, state)
    }

    /** One action of the machine, added to those done since `before`. */
    method Act(a: Action, ghost before: State, ghost actions: seq<Action>) returns (ghost more: seq<Action>)
      requires Valid() && May(timeout, state, a) && Replays(Creators(timeout), before, actions, state)
      modifies this
      ensures Valid() && state == Do(timeout, old(state), a)
      ensures more == actions + [a] && Replays(Creators(timeout), before, more, state)
    {
      StepSound(timeout, state, a);
      ReplayOneMore(Creators(timeout), before, actions, state, a);
      more := actions + [a];
      state := Do(timeout, state, a);
    }

    /** What other creators and the clock do meanwhile: anything they may. */
    method Others(p: Pid, busy: bool, ghost before: State, ghost actions: seq<Action>) returns (ghost more: seq<Action>)
      requires Valid() && Replays(Creators(timeout), before, actions, state)
      modifies this
      ensures Valid() && Replays(Creators(timeout), before, more, state)
      ensures actions <= more && ByOthers(more, |actions|, p) && Keeps(old(state), state, p)
      ensures !busy ==> state == old(state) && more == actions
    {
      ghost var start := state;
      more := actions;
      var steps: nat := *;
      while busy && steps > 0
        invariant Valid() && Replays(Creators(timeout), before, more, state)
        invariant actions <= more && ByOthers(more, |actions|, p) && Keeps(start, state, p)
        invariant !busy ==> state == start && more == actions
        decreases steps
      {
        var a: Action := *;
        if May(timeout, state, a) && !Belongs(a, p) {
          StepKeeps(timeout, state, a, p);
          more := Act(a, before, more);
        }
        steps := steps - 1;
      }
    }

    /** Tries every ten seconds until the lock is free or the deadline is there, while others take and
        release the lock. */
    method TryLockContext(p: Pid, busy: bool, ghost before: State, ghost earlier: seq<Action>) returns (r: TryResult, ghost actions: seq<Action>)
      requires Valid() && IsWaiting(state, p) && Replays(Creators(timeout), before, earlier, state)
      modifies this
      ensures Valid() && Replays(Creators(timeout), before, actions, state)
      ensures earlier < actions && actions[|actions| - 1] == Ends(r, p) && ByOthers(actions[..|actions| - 1], |earlier|, p)
      ensures r.Locked? <==> state.owner == Some(p)
      ensures r.Locked? ==> InPhase(state, p, Creating(WithLock))
      ensures r.DeadlineExceeded? ==> IsCreating(state, p) && state.creators[p].entry.TimedOut? && state.creators[p].entry.waited >= timeout
      ensures r.Broken? ==> InPhase(state, p, Returned)
      ensures !busy && !r.Locked? ==> state.owner == old(state).owner
      ensures !busy && r.Locked? ==> old(state).owner == None
    {
      ghost var start, more := state, earlier;
      var since := state.creators[p].since;
      actions := earlier;
      assert Fair(timeout, state, p);
      while state.now < since + timeout
        invariant Valid() && InPhase(state, p, Waiting(since)) && state.owner != Some(p)
        invariant Replays(Creators(timeout), before, actions, state)
        invariant earlier <= actions && ByOthers(actions, |earlier|, p)
        invariant !busy ==> state.owner == start.owner
        decreases since + timeout - state.now
      {
        var broken: bool := *;
        if broken {
          more := Act(Ends(Broken, p), before, actions);
          assert more[..|more| - 1] == actions && Fair(timeout, state, p);
          return Broken, more;
        }
        if state.owner == None {
          more := Act(Ends(Locked, p), before, actions);
          assert more[..|more| - 1] == actions && Fair(timeout, state, p);
          return Locked, more;
        }
        var wake := if state.now + 10 < since + timeout then state.now + 10 else since + timeout;
        actions := Act(Tick(wake), before, actions);
        actions := Others(p, busy, before, actions);
      }
      more := Act(Ends(DeadlineExceeded, p), before, actions);
      assert more[..|more| - 1] == actions && Fair(timeout, state, p);
      return DeadlineExceeded, more;
    }
  }
}
