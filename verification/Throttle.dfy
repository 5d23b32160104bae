/** The throttle's token table under concurrent handlers: each access to the map is atomic, a
    handler's check and its update are separate, and the sweep goes on beside them. */
module Throttle {

  type Id = nat
  type Time = int

  const TICK := 10

  datatype Sweep = Resting | Sweeping(pending: set<Id>, doomed: set<Id>)

  /** `issued` records every transaction with its start time; `posts` are the handlers past the
      limit check and before the insert; `deletes` those that have found their transaction. */
  datatype State = State(now: Time, active: map<Id, Time>, issued: map<Id, Time>, released: set<Id>, expired: set<Id>,
                         posts: set<nat>, deletes: map<nat, Id>, sweep: Sweep, lastSweep: Time)

  datatype Config = Config(limit: int, hold: Time)

  function Initial(now: Time): State {
    State(now, map[], map[], {}, {}, {}, map[], Resting, now)
  }

  /** One atomic access, or the passing of time:
      a POST passes the limit check; the same handler stores a fresh transaction, or finds no UUID;
      a DELETE finds its transaction; the same handler removes it, if it is still there;
      the sweep begins, looks at an entry, removes an overdue one unless somebody else has, ends. */
  datatype Action =
    | Check(handler: nat) | Insert(handler: nat, id: Id) | Abandon(handler: nat)
    | Look(handler: nat, id: Id) | Release(handler: nat)
    | BeginSweep | Visit(id: Id) | Expire(id: Id) | EndSweep
    | Advance(to: Time)

  predicate Overdue(c: Config, s: State, id: Id) {
    id in s.active && s.now > s.active[id] + c.hold
  }

  predicate May(c: Config, s: State, a: Action) {
    match a
    case Check(handler) => |s.active| < c.limit && handler !in s.posts
    case Insert(handler, id) => handler in s.posts && id !in s.issued
    case Abandon(handler) => handler in s.posts
    case Look(handler, id) => id in s.active && handler !in s.deletes
    case Release(handler) => handler in s.deletes
    case BeginSweep => s.sweep.Resting?
    case Visit(id) => s.sweep.Sweeping? && id in s.sweep.pending
    case Expire(id) => s.sweep.Sweeping? && id in s.sweep.doomed
    case EndSweep => s.sweep == Sweeping({}, {})
    case Advance(to) => s.now < to
  }

  function Do(c: Config, s: State, a: Action): State
    requires May(c, s, a)
  {
    match a
    case Check(handler) => s.(posts := s.posts + {handler})
    case Insert(handler, id) =>
      s.(posts := s.posts - {handler}, active := s.active[id := s.now], issued := s.issued[id := s.now])
    case Abandon(handler) => s.(posts := s.posts - {handler})
    case Look(handler, id) => s.(deletes := s.deletes[handler := id])
    case Release(handler) =>
      var id := s.deletes[handler];
      s.(deletes := s.deletes - {handler}, active := s.active - {id},
         released := if id in s.active then s.released + {id} else s.released)
    case BeginSweep => s.(sweep := Sweeping(s.active.Keys, {}), lastSweep := s.now)
    case Visit(id) =>
      s.(sweep := Sweeping(s.sweep.pending - {id}, if Overdue(c, s, id) then s.sweep.doomed + {id} else s.sweep.doomed))
    case Expire(id) =>
      s.(sweep := Sweeping(s.sweep.pending, s.sweep.doomed - {id}), active := s.active - {id},
         expired := if id in s.active then s.expired + {id} else s.expired)
    case EndSweep => s.(sweep := Resting)
    case Advance(to) => s.(now := to)
  }

  /** Ticks come on time: a sweep takes no time, and at most ten seconds pass from one to the next. */
  predicate OnTime(s: State, a: Action) {
    a.Advance? ==> s.sweep.Resting? && a.to <= s.lastSweep + TICK
  }

  ghost predicate Next(c: Config, s: State, s': State, prompt: bool) {
    exists a :: May(c, s, a) && s' == Do(c, s, a) && (prompt ==> OnTime(s, a))
  }

  ghost predicate StepAt(c: Config, run: seq<State>, i: nat, prompt: bool)
    requires i + 1 < |run|
  {
    Next(c, run[i], run[i + 1], prompt)
  }

  ghost predicate IsRun(c: Config, run: seq<State>, prompt: bool) {
    && run != [] && run[0] == Initial(run[0].now)
    && forall i :: 0 <= i < |run| - 1 ==> StepAt(c, run, i, prompt)
  }

  // ---- each transaction is in one place

  /** An issued transaction is active, released or expired, and only one of these. */
  predicate Placed(s: State, id: Id) {
    && (id in s.issued <==> id in s.active || id in s.released || id in s.expired)
    && !(id in s.active && id in s.released) && !(id in s.active && id in s.expired) && !(id in s.released && id in s.expired)
  }

  ghost predicate Partitioned(s: State) {
    forall id :: Placed(s, id)
  }

  ghost predicate HoldKept(c: Config, s: State) {
    && (forall id :: id in s.active ==> id in s.issued && s.active[id] == s.issued[id])
    && (s.sweep.Sweeping? ==> forall id :: id in s.sweep.doomed ==> id in s.issued && s.now > s.issued[id] + c.hold)
    && (forall id :: id in s.expired ==> id in s.issued && s.now > s.issued[id] + c.hold)
  }

  ghost predicate Accounted(c: Config, s: State) {
    Partitioned(s) && HoldKept(c, s)
  }

  lemma StepPartitioned(c: Config, s: State, a: Action)
    requires Partitioned(s) && May(c, s, a)
    ensures Partitioned(Do(c, s, a))
  {
    forall id ensures Placed(Do(c, s, a), id) { assert Placed(s, id); }
  }

  lemma StepHoldKept(c: Config, s: State, a: Action)
    requires HoldKept(c, s) && May(c, s, a)
    ensures HoldKept(c, Do(c, s, a))
  {
  }

  lemma StepAccounted(c: Config, s: State, s': State, prompt: bool)
    requires Accounted(c, s) && Next(c, s, s', prompt)
    ensures Accounted(c, s')
    ensures s.released <= s'.released && s.expired <= s'.expired && s.issued.Keys <= s'.issued.Keys
  {
    var a :| May(c, s, a) && s' == Do(c, s, a) && (prompt ==> OnTime(s, a));
    StepPartitioned(c, s, a);
    StepHoldKept(c, s, a);
  }

  /** In every interleaving every issued transaction is active, released or expired, and only one of
      these; and none has expired before its hold was over. */
  lemma {:induction false} EveryTransactionAccounted(c: Config, run: seq<State>, prompt: bool, k: nat)
    requires IsRun(c, run, prompt) && k < |run|
    ensures Accounted(c, run[k])
  {
    if k > 0 {
      EveryTransactionAccounted(c, run, prompt, k - 1);
      assert StepAt(c, run, k - 1, prompt);
      StepAccounted(c, run[k - 1], run[k], prompt);
    }
  }

  /** A transaction that has left the table stays where it went. */
  lemma {:induction false} LeavesOnce(c: Config, run: seq<State>, prompt: bool, j: nat, k: nat, id: Id)
    requires IsRun(c, run, prompt) && j <= k < |run|
    requires id in run[j].issued && id !in run[j].active
    ensures id in run[k].issued && id !in run[k].active
    ensures id in run[j].released ==> id in run[k].released && id !in run[k].expired
    ensures id in run[j].expired ==> id in run[k].expired && id !in run[k].released
    decreases k
  {
    EveryTransactionAccounted(c, run, prompt, k);
    assert Placed(run[k], id);
    if j < k {
      LeavesOnce(c, run, prompt, j, k - 1, id);
      EveryTransactionAccounted(c, run, prompt, k - 1);
      assert Placed(run[k - 1], id);
      assert StepAt(c, run, k - 1, prompt);
      StepAccounted(c, run[k - 1], run[k], prompt);
    }
  }

  // ---- the limit

  function Max(a: int, b: int): int { if a < b then b else a }

  /** With at most `k` handlers at a time between check and insert. */
  ghost predicate AtMostPast(run: seq<State>, k: nat) {
    forall i :: 0 <= i < |run| ==> |run[i].posts| <= k
  }

  lemma SizeAfterInsert<T>(m: map<Id, T>, id: Id, v: T)
    requires id !in m
    ensures |m[id := v]| == |m| + 1
  {
    assert m[id := v].Keys == m.Keys + {id};
  }

  lemma SizeAfterRemoval<T>(m: map<Id, T>, id: Id)
    ensures |m - {id}| <= |m|
  {
    assert (m - {id}).Keys == m.Keys - {id};
    if id in m { assert m.Keys == (m.Keys - {id}) + {id}; } else { assert m.Keys - {id} == m.Keys; }
  }

  lemma SizeWithout(handlers: set<nat>, handler: nat)
    requires handler in handlers
    ensures |handlers - {handler}| == |handlers| - 1
  {
    assert handlers == (handlers - {handler}) + {handler};
  }

  lemma StepWithinLimit(c: Config, s: State, a: Action, k: nat)
    requires Accounted(c, s) && May(c, s, a) && |Do(c, s, a).posts| <= k
    requires |s.active| + |s.posts| <= Max(0, c.limit - 1 + k)
    ensures |Do(c, s, a).active| + |Do(c, s, a).posts| <= Max(0, c.limit - 1 + k)
  {
    match a
    case Insert(handler, id) =>
      SizeAfterInsert(s.active, id, s.now);
      SizeWithout(s.posts, handler);
    case Abandon(handler) => SizeWithout(s.posts, handler);
    case Release(handler) => SizeAfterRemoval(s.active, s.deletes[handler]);
    case Expire(id) => SizeAfterRemoval(s.active, id);
    case _ =>
  }

  /** The table and the handlers about to fill it never exceed the limit by more than the handlers
      that can be past the check together, less one. */
  lemma {:induction false} WithinLimit(c: Config, run: seq<State>, prompt: bool, k: nat, i: nat)
    requires IsRun(c, run, prompt) && AtMostPast(run, k) && i < |run|
    ensures |run[i].active| + |run[i].posts| <= Max(0, c.limit - 1 + k)
  {
    if i > 0 {
      WithinLimit(c, run, prompt, k, i - 1);
      EveryTransactionAccounted(c, run, prompt, i - 1);
      assert StepAt(c, run, i - 1, prompt);
      var a :| May(c, run[i - 1], a) && run[i] == Do(c, run[i - 1], a) && (prompt ==> OnTime(run[i - 1], a));
      StepWithinLimit(c, run[i - 1], a, k);
    }
  }

  /** With one handler at a time the limit is kept. */
  lemma SerialisedWithinLimit(c: Config, run: seq<State>, prompt: bool, i: nat)
    requires IsRun(c, run, prompt) && AtMostPast(run, 1) && i < |run| && c.limit >= 0
    ensures |run[i].active| <= c.limit
  {
    WithinLimit(c, run, prompt, 1, i);
  }

  // ---- the bound is reached

  lemma Extend(c: Config, run: seq<State>, s: State)
    requires IsRun(c, run, false) && Next(c, run[|run| - 1], s, false)
    ensures IsRun(c, run + [s], false)
  {
    var run' := run + [s];
    forall i | 0 <= i < |run'| - 1 ensures StepAt(c, run', i, false) {
      if i < |run| - 1 { assert StepAt(c, run, i, false); }
    }
  }

  /** A state with `n` transactions and the handlers numbered below `p` past the check. */
  ghost predicate Filled(s: State, n: nat, p: nat) {
    && s.active.Keys == s.issued.Keys && |s.active| == n && (forall id: Id :: id in s.issued ==> id < n)
    && |s.posts| == p && (forall h: nat :: h in s.posts <==> h < p)
  }

  lemma AddCheck(c: Config, run: seq<State>, n: nat, p: nat) returns (run': seq<State>)
    requires IsRun(c, run, false) && Filled(run[|run| - 1], n, p) && n < c.limit
    ensures run <= run' && IsRun(c, run', false) && Filled(run'[|run'| - 1], n, p + 1)
    ensures |run'| == |run| + 1
  {
    var s := run[|run| - 1];
    var s' := s.(posts := s.posts + {p});
    assert May(c, s, Check(p)) && s' == Do(c, s, Check(p));
    Extend(c, run, s');
    run' := run + [s'];
  }

  lemma AddInsert(c: Config, run: seq<State>, n: nat, p: nat) returns (run': seq<State>)
    requires IsRun(c, run, false) && Filled(run[|run| - 1], n, p + 1)
    ensures run <= run' && IsRun(c, run', false) && Filled(run'[|run'| - 1], n + 1, p)
    ensures |run'| == |run| + 1
  {
    var s := run[|run| - 1];
    var s' := s.(posts := s.posts - {p}, active := s.active[n := s.now], issued := s.issued[n := s.now]);
    assert May(c, s, Insert(p, n)) && s' == Do(c, s, Insert(p, n));
    SizeAfterInsert(s.active, n, s.now);
    Extend(c, run, s');
    run' := run + [s'];
  }

  lemma {:induction false} FillBelowLimit(c: Config, n: nat) returns (run: seq<State>)
    requires n < c.limit
    ensures IsRun(c, run, false) && Filled(run[|run| - 1], n, 0) && AtMostPast(run, 1)
  {
    if n == 0 {
      run := [Initial(0)];
      assert |Initial(0).posts| == 0 && |Initial(0).active| == 0;
    } else {
      run := FillBelowLimit(c, n - 1);
      run := AddCheck(c, run, n - 1, 0);
      run := AddInsert(c, run, n - 1, 0);
    }
  }

  lemma {:induction false} CheckTogether(c: Config, n: nat, p: nat) returns (run: seq<State>)
    requires n < c.limit
    ensures IsRun(c, run, false) && Filled(run[|run| - 1], n, p) && AtMostPast(run, Max(1, p))
  {
    if p == 0 {
      run := FillBelowLimit(c, n);
    } else {
      run := CheckTogether(c, n, p - 1);
      run := AddCheck(c, run, n, p - 1);
    }
  }

  lemma {:induction false} InsertTogether(c: Config, n: nat, k: nat, i: nat) returns (run: seq<State>)
    requires n < c.limit && i <= k && k >= 1
    ensures IsRun(c, run, false) && Filled(run[|run| - 1], n + i, k - i) && AtMostPast(run, k)
  {
    if i == 0 {
      run := CheckTogether(c, n, k);
    } else {
      run := InsertTogether(c, n, k, i - 1);
      run := AddInsert(c, run, n + i - 1, k - i);
    }
  }

  /** The bound is exact: with `k` handlers allowed past the check together, some run holds
      `limit - 1 + k` transactions at once. */
  lemma LimitBoundIsReached(c: Config, k: nat) returns (run: seq<State>)
    requires c.limit >= 1 && k >= 1
    ensures IsRun(c, run, false) && AtMostPast(run, k)
    ensures |run[|run| - 1].active| == c.limit - 1 + k
  {
    run := InsertTogether(c, c.limit - 1, k, k);
  }

  // ---- expiry on time

  ghost predicate Prompt(c: Config, s: State) {
    && s.lastSweep <= s.now <= s.lastSweep + TICK
    && (forall id :: id in s.active ==> s.now <= s.active[id] + c.hold + TICK)
    && match s.sweep
       case Resting => forall id :: id in s.active ==> s.lastSweep <= s.active[id] + c.hold
       case Sweeping(pending, doomed) =>
         s.now == s.lastSweep && forall id :: id in s.active ==> id in pending || id in doomed || s.now <= s.active[id] + c.hold
  }

  lemma StepPrompt(c: Config, s: State, a: Action)
    requires c.hold >= 0 && Prompt(c, s) && May(c, s, a) && OnTime(s, a)
    ensures Prompt(c, Do(c, s, a))
  {
  }

  /** With prompt ticks no transaction is active longer than its hold and one tick, whether or not
      its client ever releases it. */
  lemma {:induction false} ExpiresOnTime(c: Config, run: seq<State>, k: nat, id: Id)
    requires c.hold >= 0 && IsRun(c, run, true) && k < |run|
    ensures Prompt(c, run[k])
    ensures id in run[k].active ==> run[k].now <= run[k].active[id] + c.hold + TICK
  {
    if k > 0 {
      ExpiresOnTime(c, run, k - 1, id);
      assert StepAt(c, run, k - 1, true);
      var a :| May(c, run[k - 1], a) && run[k] == Do(c, run[k - 1], a) && OnTime(run[k - 1], a);
      StepPrompt(c, run[k - 1], a);
    }
  }
}
