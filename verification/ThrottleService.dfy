/** The code of the throttle server beside other requests, its client, and the CPI process between. */
module ThrottleService {
  import opened Names
  import opened Throttle
  import opened Replay

  const CREATED := 201
  const NO_CONTENT := 204
  const BAD_REQUEST := 400
  const NOT_FOUND := 404
  const TOO_MANY_REQUESTS := 429
  const SERVER_ERROR := 500

  /** The machine of the concurrent handlers. */
  function Handlers(c: Config): Machine<State, Action> {
    Machine((s, a) => May(c, s, a), (s, a) => if May(c, s, a) then Do(c, s, a) else s)
  }

  /** Whose code is running; a handler may look after a transaction of its own client. */
  datatype Party = Handler(number: nat, own: set<Id>) | Sweeper

  predicate Belongs(a: Action, party: Party) {
    match a
    case Check(h) => party.Handler? && h == party.number
    case Insert(h, _) => party.Handler? && h == party.number
    case Abandon(h) => party.Handler? && h == party.number
    case Look(h, id) => party.Handler? && (h == party.number || id in party.own)
    case Release(h) => party.Handler? && h == party.number
    case Advance(_) => false
    case _ => party.Sweeper?
  }

  /** The actions from position `n` on are the doing of others. */
  ghost predicate ByOthers(actions: seq<Action>, n: nat, party: Party) {
    forall i :: n <= i < |actions| ==> !Belongs(actions[i], party)
  }

  /** Time goes on, and what has been issued and has left the table does not come back. */
  ghost predicate Later(s: State, s': State) {
    && s.now <= s'.now
    && forall id :: id in s.issued ==> id in s'.issued && s'.issued[id] == s.issued[id] && (id !in s.active ==> id !in s'.active)
  }

  /** No request to remove the transaction is under way, and none has been carried out. */
  predicate Unclaimed(s: State, id: Id) {
    id !in s.released && forall h :: h in s.deletes ==> s.deletes[h] != id
  }

  /** What the others cannot touch. */
  ghost predicate Keeps(s: State, s': State, party: Party) {
    && Later(s, s')
    && match party
       case Handler(h, own) =>
         && (h in s'.posts <==> h in s.posts) && (h in s'.deletes <==> h in s.deletes) && (h in s.deletes ==> s'.deletes[h] == s.deletes[h])
         && (forall id :: id in own && Unclaimed(s, id) ==> Unclaimed(s', id))
       case Sweeper => s'.sweep == s.sweep
  }

  /** Requests to remove are for transactions that were issued. */
  predicate Claimable(s: State) {
    forall h :: h in s.deletes ==> s.deletes[h] in s.issued
  }

  lemma StepLater(c: Config, s: State, a: Action)
    requires Accounted(c, s) && May(c, s, a)
    ensures Later(s, Do(c, s, a))
  {
  }

  lemma StepKeeps(c: Config, s: State, a: Action, party: Party)
    requires Accounted(c, s) && May(c, s, a) && !Belongs(a, party)
    ensures Keeps(s, Do(c, s, a), party)
  {
    StepLater(c, s, a);
  }

  /** The first and the last action are the handler's, those between are the others'. */
  ghost predicate FromTo(actions: seq<Action>, first: Action, last: Action, handler: nat) {
    && |actions| >= 2 && actions[0] == first && actions[|actions| - 1] == last
    && ByOthers(actions[..|actions| - 1], 1, Handler(handler, {}))
  }

  lemma Framed(actions: seq<Action>, first: Action, last: Action, handler: nat)
    requires [first] <= actions && ByOthers(actions, 1, Handler(handler, {}))
    ensures FromTo(actions + [last], first, last, handler)
  {
    assert (actions + [last])[..|actions + [last]| - 1] == actions;
  }

  lemma PostEnds(c: Config, before: State, s: State, last: Action, handler: nat, actions: seq<Action>)
    requires Accounted(c, before) && Accounted(c, s) && Claimable(s) && May(c, before, Check(handler)) && handler !in before.posts
    requires Keeps(Do(c, before, Check(handler)), s, Handler(handler, {}))
    requires (last.Insert? && last.handler == handler && last.id !in s.issued) || last == Abandon(handler)
    requires [Check(handler)] <= actions && ByOthers(actions, 1, Handler(handler, {}))
    ensures May(c, s, last) && Later(before, Do(c, s, last)) && FromTo(actions + [last], Check(handler), last, handler)
    ensures handler !in Do(c, s, last).posts && (handler in Do(c, s, last).deletes <==> handler in before.deletes)
    ensures last.Insert? ==> last.id !in before.issued && Unclaimed(Do(c, s, last), last.id)
  {
    Framed(actions, Check(handler), last, handler);
    if last.Insert? { assert Placed(s, last.id); }
  }

  lemma DeleteEnds(c: Config, before: State, s: State, handler: nat, id: Id, actions: seq<Action>)
    requires Accounted(c, before) && Accounted(c, s) && id in before.active && handler !in before.deletes
    requires Keeps(Do(c, before, Look(handler, id)), s, Handler(handler, {}))
    requires [Look(handler, id)] <= actions && ByOthers(actions, 1, Handler(handler, {}))
    ensures May(c, s, Release(handler)) && s.deletes[handler] == id
    ensures Later(before, Do(c, s, Release(handler))) && FromTo(actions + [Release(handler)], Look(handler, id), Release(handler), handler)
    ensures id in Do(c, s, Release(handler)).released || id in Do(c, s, Release(handler)).expired
  {
    Framed(actions, Look(handler, id), Release(handler), handler);
    assert Placed(s, id);
  }

  class ThrottleServer {
    const limit: int
    const hold: Time
    var transactions: map<Id, Time>
    var clock: Time
    var state: State      // the table and its history, as the concurrent model sees them

    function Config(): Config { Throttle.Config(limit, hold) }

    /** The table is that of the concurrent model, and every transaction is accounted for. Other
        requests may be in progress. */
    ghost predicate Valid()
      reads this
    {
      state.active == transactions && state.now == clock && Accounted(Config(), state) && Claimable(state)
    }

    constructor (limit: int, hold: Time, now: Time)
      ensures Valid() && transactions == map[] && this.limit == limit && this.hold == hold && clock == now && state == Initial(now)
    {
      this.limit, this.hold := limit, hold;
      transactions, clock := map[], now;
      state := Initial(now);
    }

    /** One access to the table, as a step of the concurrent model. */
    method Record(a: Action, ghost before: State, ghost actions: seq<Action>) returns (ghost more: seq<Action>)
      requires Accounted(Config(), state) && Claimable(state) && May(Config(), state, a)
      requires Replays(Handlers(Config()), before, actions, state)
      modifies this`state
      ensures state == Do(Config(), old(state), a) && Accounted(Config(), state) && Claimable(state)
      ensures more == actions + [a] && Replays(Handlers(Config()), before, more, state)
    {
      StepPartitioned(Config(), state, a);
      StepHoldKept(Config(), state, a);
      ReplayOneMore(Handlers(Config()), before, actions, state, a);
      more := actions + [a];
      state := Do(Config(), state, a);
    }

    /** What other handlers, the sweep and the clock do between two accesses: anything they may. */
    method Others(party: Party, busy: bool, ghost before: State, ghost actions: seq<Action>) returns (ghost more: seq<Action>)
      requires Valid() && Replays(Handlers(Config()), before, actions, state)
      modifies this
      ensures Valid() && Replays(Handlers(Config()), before, more, state)
      ensures actions <= more && ByOthers(more, |actions|, party) && Keeps(old(state), state, party)
      ensures !busy ==> state == old(state) && more == actions
    {
      ghost var start := state;
      more := actions;
      var steps: nat := *;
      while busy && steps > 0
        invariant Valid() && Replays(Handlers(Config()), before, more, state)
        invariant actions <= more && ByOthers(more, |actions|, party) && Keeps(start, state, party)
        invariant !busy ==> state == start && more == actions
        decreases steps
      {
        var a: Action := *;
        if May(Config(), state, a) && !Belongs(a, party) {
          StepKeeps(Config(), state, a, party);
          more := Record(a, before, more);
          transactions, clock := state.active, state.now;
        }
        steps := steps - 1;
      }
    }

    /** POST /transactions: the check against the limit, and the insertion some time later. */
    method HandlePost(handler: nat, busy: bool) returns (status: int, id: Option<Id>, ghost actions: seq<Action>)
      requires Valid() && handler !in state.posts
      modifies this
      ensures Valid() && Replays(Handlers(Config()), old(state), actions, state) && Later(old(state), state)
      ensures status == TOO_MANY_REQUESTS || status == SERVER_ERROR || status == CREATED
      ensures status == TOO_MANY_REQUESTS <==> |old(transactions)| >= limit
      ensures status == TOO_MANY_REQUESTS ==> state == old(state)
      ensures status == SERVER_ERROR ==> FromTo(actions, Check(handler), Abandon(handler), handler)
      ensures id.Some? <==> status == CREATED
      ensures id.Some? ==> FromTo(actions, Check(handler), Insert(handler, id.value), handler) && id.value !in old(state).issued
      ensures id.Some? ==> id.value in transactions && transactions[id.value] == clock && Unclaimed(state, id.value)
      ensures handler !in state.posts && (handler in state.deletes <==> handler in old(state).deletes)
      ensures !busy ==> clock == old(clock) && transactions == if id.Some? then old(transactions)[id.value := clock] else old(transactions)
    {
      ghost var before := state;
      id, actions := None, [];
      if |transactions| >= limit {
        return TOO_MANY_REQUESTS, None, actions;
      }
      actions := Record(Check(handler), before, actions);
      actions := Others(Handler(handler, {}), busy, before, actions);
      var drawn: Id := *;
      var generated: bool := *;
      if !generated || drawn in state.issued {
        PostEnds(Config(), before, state, Abandon(handler), handler, actions);
        actions := Record(Abandon(handler), before, actions);
        return SERVER_ERROR, None, actions;
      }
      PostEnds(Config(), before, state, Insert(handler, drawn), handler, actions);
      actions := Record(Insert(handler, drawn), before, actions);
      transactions := transactions[drawn := clock];
      return CREATED, Some(drawn), actions;
    }

    /** DELETE /transactions/{id}: the lookup, and the removal some time later. No id is the empty
        path value. */
    method HandleDelete(handler: nat, id: Option<Id>, busy: bool) returns (status: int, ghost actions: seq<Action>)
      requires Valid() && handler !in state.deletes
      modifies this
      ensures Valid() && Replays(Handlers(Config()), old(state), actions, state) && Later(old(state), state)
      ensures status == if id.None? then BAD_REQUEST else if id.value !in old(transactions) then NOT_FOUND else NO_CONTENT
      ensures status != NO_CONTENT ==> state == old(state)
      ensures status == NO_CONTENT ==> id.value !in transactions && (id.value in state.released || id.value in state.expired)
      ensures status == NO_CONTENT ==> FromTo(actions, Look(handler, id.value), Release(handler), handler)
      ensures status == NO_CONTENT && !busy ==> transactions == old(transactions) - {id.value} && clock == old(clock)
    {
      ghost var before := state;
      actions := [];
      if id.None? {
        return BAD_REQUEST, actions;
      }
      if id.value !in transactions {
        return NOT_FOUND, actions;
      }
      actions := Record(Look(handler, id.value), before, actions);
      actions := Others(Handler(handler, {}), busy, before, actions);
      DeleteEnds(Config(), before, state, handler, id.value, actions);
      actions := Record(Release(handler), before, actions);
      transactions := transactions - {id.value};
      return NO_CONTENT, actions;
    }

    /** One entry of the table: seen, and removed if it is overdue by now. */
    method LookAt(order: seq<Id>, i: nat, busy: bool, ghost before: State, ghost actions: seq<Action>) returns (ghost more: seq<Action>)
      requires Valid() && Replays(Handlers(Config()), before, actions, state)
      requires i < |order| && Sweeps(Config(), before, state, order, i) && (!busy ==> Quiet(before, state))
      modifies this
      ensures Valid() && Replays(Handlers(Config()), before, more, state)
      ensures Sweeps(Config(), before, state, order, i + 1) && (!busy ==> Quiet(before, state))
    {
      var k := order[i];
      ghost var s1 := state;
      more := Others(Sweeper, busy, before, actions);
      ghost var s2 := state;
      VisitDoes(Config(), before, s1, s2, order, i);
      more := Record(Visit(k), before, more);
      if k in transactions && clock > transactions[k] + hold {
        more := Others(Sweeper, busy, before, more);
        ExpireDoes(Config(), before, s2, state, order, i);
        more := Record(Expire(k), before, more);
        transactions := transactions - {k};
      }
    }

    /** One tick of `expireTransactions`, in whatever order the map is ranged over: each entry is
        looked at, and removed if it is overdue then. */
    method ExpireTransactions(busy: bool) returns (ghost actions: seq<Action>)
      requires Valid() && state.sweep == Resting
      modifies this
      ensures Valid() && state.sweep == Resting && Replays(Handlers(Config()), old(state), actions, state)
      ensures Swept(Config(), old(state), state)
      ensures !busy ==> clock == old(clock) && transactions == Unexpired(old(transactions), clock, hold)
    {
      ghost var before := state;
      var order := RangeOrder(transactions.Keys);
      actions := Record(BeginSweep, before, []);
      SweepBegins(Config(), before, order);
      var i := 0;
      while i < |order|
        invariant 0 <= i <= |order| && Valid() && Replays(Handlers(Config()), before, actions, state)
        invariant Sweeps(Config(), before, state, order, i) && (!busy ==> Quiet(before, state))
      {
        actions := LookAt(order, i, busy, before, actions);
        i := i + 1;
      }
      SweepEnds(Config(), before, state, order);
      actions := Record(EndSweep, before, actions);
      if !busy { QuietSweep(Config(), before, state); }
    }
  }

  /** The transactions a sweep at `now` leaves. */
  function Unexpired(transactions: map<Id, Time>, now: Time, hold: Time): map<Id, Time> {
    map id | id in transactions && now <= transactions[id] + hold :: transactions[id]
  }

  /** What a sweep has achieved: none of those overdue when it began is left. */
  ghost predicate Swept(c: Config, before: State, s: State) {
    Later(before, s) && forall id :: id in before.active && id in s.active ==> before.now <= before.active[id] + c.hold
  }

  /** Nobody but the sweep has done anything. */
  ghost predicate Quiet(before: State, s: State) {
    s.now == before.now && s.issued == before.issued && s.released == before.released
  }

  /** The entries still to be looked at. */
  function Rest(order: seq<Id>, i: nat): set<Id>
    requires i <= |order|
  {
    set k | k in order[i..]
  }

  predicate Checked(c: Config, before: State, s: State, id: Id) {
    id in before.active && id in s.active ==> before.now <= before.active[id] + c.hold
  }

  /** A sweep that has looked at the first `i` entries. */
  ghost predicate Sweeps(c: Config, before: State, s: State, order: seq<Id>, i: nat)
    requires i <= |order|
  {
    && IsOrder(order, before.active.Keys) && HoldKept(c, before) && Later(before, s)
    && s.sweep == Sweeping(Rest(order, i), {})
    && forall j :: 0 <= j < i ==> Checked(c, before, s, order[j])
  }

  lemma SweepBegins(c: Config, before: State, order: seq<Id>)
    requires Accounted(c, before) && before.sweep == Resting && IsOrder(order, before.active.Keys)
    ensures Sweeps(c, before, Do(c, before, BeginSweep), order, 0)
  {
    assert order[0..] == order && Rest(order, 0) == before.active.Keys;
  }

  lemma OthersBeside(c: Config, before: State, s1: State, s2: State, order: seq<Id>, i: nat)
    requires i <= |order| && Sweeps(c, before, s1, order, i) && Keeps(s1, s2, Sweeper)
    ensures Sweeps(c, before, s2, order, i)
  {
    forall j | 0 <= j < i ensures Checked(c, before, s2, order[j]) {
      assert Checked(c, before, s1, order[j]);
      assert order[j] in order;
    }
  }

  lemma RestNext(order: seq<Id>, i: nat)
    requires i < |order| && IsOrder(order, set k | k in order)
    ensures order[i] in Rest(order, i) && Rest(order, i + 1) == Rest(order, i) - {order[i]}
  {
    assert order[i..] == [order[i]] + order[i + 1..];
  }

  /** An entry that is not overdue by now was not when the sweep began. */
  lemma VisitDoes(c: Config, before: State, s1: State, s: State, order: seq<Id>, i: nat)
    requires i < |order| && Sweeps(c, before, s1, order, i) && Keeps(s1, s, Sweeper) && Accounted(c, s)
    ensures Sweeps(c, before, s, order, i) && May(c, s, Visit(order[i]))
    ensures !Overdue(c, s, order[i]) ==> Sweeps(c, before, Do(c, s, Visit(order[i])), order, i + 1)
  {
    var k := order[i];
    OthersBeside(c, before, s1, s, order, i);
    assert k in order;
    RestNext(order, i);
    if !Overdue(c, s, k) {
      var s' := Do(c, s, Visit(k));
      forall j | 0 <= j < i + 1 ensures Checked(c, before, s', order[j]) {
        if j < i { assert Checked(c, before, s, order[j]); }
      }
    }
  }

  /** An overdue one is removed, unless somebody else has been quicker. */
  lemma ExpireDoes(c: Config, before: State, s2: State, s4: State, order: seq<Id>, i: nat)
    requires i < |order| && Sweeps(c, before, s2, order, i) && May(c, s2, Visit(order[i])) && Overdue(c, s2, order[i])
    requires Keeps(Do(c, s2, Visit(order[i])), s4, Sweeper) && Accounted(c, s4)
    ensures May(c, s4, Expire(order[i])) && Sweeps(c, before, Do(c, s4, Expire(order[i])), order, i + 1)
  {
    var k := order[i];
    assert k in order;
    RestNext(order, i);
    var s' := Do(c, s4, Expire(k));
    assert {k} - {k} == {};
    forall j | 0 <= j < i + 1 ensures Checked(c, before, s', order[j]) {
      if j < i { assert Checked(c, before, s2, order[j]) && order[j] in order; }
    }
  }

  lemma SweepEnds(c: Config, before: State, s: State, order: seq<Id>)
    requires Sweeps(c, before, s, order, |order|)
    ensures May(c, s, EndSweep) && Swept(c, before, Do(c, s, EndSweep))
  {
    assert order[|order|..] == [];
    forall id | id in before.active && id in s.active ensures before.now <= before.active[id] + c.hold {
      assert id in order;
      var j :| 0 <= j < |order| && order[j] == id;
      assert Checked(c, before, s, order[j]);
    }
  }

  lemma QuietSweep(c: Config, before: State, s: State)
    requires Accounted(c, before) && Accounted(c, s) && Swept(c, before, s) && Quiet(before, s)
    ensures s.active == Unexpired(before.active, before.now, c.hold)
  {
    forall id ensures id in s.active <==> id in before.active && before.now <= before.active[id] + c.hold {
      assert Placed(before, id) && Placed(s, id);
    }
  }

  // ---- the client

  /** What `Lock` returns: the status (500 when there is no response), the body, and an error or none. */
  datatype Reply = Reply(status: int, body: Id, failed: bool)

  datatype LockResult = Held(id: Id) | LockFailed | StillWaiting

  /** How many replies refuse the request because the throttle is full. */
  function Refusals(replies: seq<Reply>): (n: nat)
    ensures n <= |replies|
  {
    if replies == [] then 0
    else Refusals(replies[..|replies| - 1]) + if replies[|replies| - 1].status == 429 then 1 else 0
  }

  /** The polling loop, run on the replies it gets. It waits ten seconds after a 429, with or without an
      error, and one second after any other reply that is neither an error nor a 201; a 201 without an
      error gives the transaction, and an error ends the attempt. */
  method LockAndWait(replies: seq<Reply>) returns (r: LockResult, tries: nat, slept: nat)
    ensures tries <= |replies| && slept == 10 * Refusals(replies[..tries]) + (tries - Refusals(replies[..tries]))
    ensures forall i :: 0 <= i < tries ==> replies[i].status == 429 || (!replies[i].failed && replies[i].status != 201)
    ensures r.StillWaiting? <==> tries == |replies|
    ensures r.Held? ==> tries < |replies| && replies[tries] == Reply(201, r.id, false)
    ensures r.LockFailed? ==> tries < |replies| && replies[tries].failed && replies[tries].status != 429
  {
    tries, slept := 0, 0;
    while tries < |replies|
      invariant tries <= |replies| && slept == 10 * Refusals(replies[..tries]) + (tries - Refusals(replies[..tries]))
      invariant forall i :: 0 <= i < tries ==> replies[i].status == 429 || (!replies[i].failed && replies[i].status != 201)
    {
      var reply := replies[tries];
      assert replies[..tries + 1][..tries] == replies[..tries];
      if reply.status == TOO_MANY_REQUESTS {
        slept := slept + 10;
      } else {
        if reply.failed {
          return LockFailed, tries, slept;
        }
        if reply.status == CREATED {
          return Held(reply.body), tries, slept;
        }
        slept := slept + 1;
      }
      tries := tries + 1;
    }
    return StillWaiting, tries, slept;
  }

  /** The client dereferences the response before it looks at the error: a request without a
      response ends the process. */
  datatype UnlockResult = Unlocked | Crashed

  method Unlock(server: ThrottleServer, handler: nat, id: Id, answered: bool, busy: bool) returns (r: UnlockResult)
    requires server.Valid() && handler !in server.state.deletes
    modifies server
    ensures server.Valid() && Later(old(server.state), server.state)
    ensures r == if answered then Unlocked else Crashed
    ensures answered ==> id !in server.transactions
    ensures !answered || id !in old(server.transactions) ==> server.state == old(server.state)
    ensures answered && id in old(server.transactions) ==> id in server.state.released || id in server.state.expired
    ensures answered && !busy ==> server.transactions == old(server.transactions) - {id}
  {
    if !answered {
      return Crashed;
    }
    var status;
    ghost var actions;
    status, actions := server.HandleDelete(handler, Some(id), busy);
    if status == NOT_FOUND {
      return Unlocked;
    }
    return Unlocked;
  }

  /** How a run of the CPI executable under the throttle ends: it still waits for its transaction, it
      has served and unlocked, or it has exited early. */
  datatype Run = Waiting | Served(id: Id) | ExitedEarly(id: Id)

  /** It polls, serves while the others go on, and unlocks. When serving fails, or the unlock gets no
      response, its transaction stays in the table until it expires: nobody else releases it. */
  method ServeUnderThrottle(server: ThrottleServer, handler: nat, polls: nat, served: bool, answered: bool) returns (run: Run)
    requires server.Valid() && handler !in server.state.posts && handler !in server.state.deletes
    modifies server
    ensures server.Valid()
    ensures !run.Waiting? ==> (run.Served? <==> served && answered) && run.id in server.state.issued && run.id !in old(server.state).issued
    ensures run.Served? ==> run.id !in server.transactions
    ensures run.ExitedEarly? ==> run.id in server.transactions || run.id in server.state.expired
    ensures run.ExitedEarly? ==> run.id !in server.state.released
  {
    ghost var before, actions;
    var granted: Option<Id> := None;
    var i := 0;
    while i < polls && granted.None?
      invariant server.Valid() && Later(old(server.state), server.state)
      invariant handler !in server.state.posts && handler !in server.state.deletes
      invariant granted.Some? ==> Unclaimed(server.state, granted.value)
      invariant granted.Some? ==> granted.value in server.transactions && granted.value !in old(server.state).issued
      decreases polls - i, granted.None?
    {
      var status;
      ghost var s1 := server.state;
      status, granted, actions := server.HandlePost(handler, true);
      LaterTwice(old(server.state), s1, server.state);
      if granted.None? {
        ghost var s2 := server.state;
        before := s2;
        actions := server.Others(Handler(handler, {}), true, before, []);
        LaterTwice(old(server.state), s2, server.state);
      }
      i := i + 1;
    }
    if granted.None? {
      return Waiting;
    }
    var id := granted.value;
    ghost var s3 := server.state;
    assert Placed(s3, id);
    actions := server.Others(Handler(handler, {id}), true, s3, []);
    assert Placed(server.state, id);
    if !served {
      return ExitedEarly(id);
    }
    var r := Unlock(server, handler, id, answered, true);
    assert Placed(server.state, id);
    return if r == Unlocked then Served(id) else ExitedEarly(id);
  }

  lemma LaterTwice(s0: State, s1: State, s2: State)
    requires Later(s0, s1) && Later(s1, s2)
    ensures Later(s0, s2)
  {
  }
}
