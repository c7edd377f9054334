/** Runs that the daemon allows and a client may not expect: a line that is jumped when
    either rule for callers is broken, a head that is overtaken, a re-poll that wins
    past its own slot, and a head that sleeps on a free lock until the next reaper pass.
    Each is built step by step from the start, so each is a reachable world. */
module LockScenarios {
  import opened Base
  import opened LockTable
  import opened WaitQueues
  import opened LockProtocol
  import opened LockLines
  import opened LockSleepers

  // ----- extending a run that keeps a rule -----

  lemma {:induction false} RuledEnd(w: World, acts: seq<Action>, rules: set<Rule>)
    requires Feasible(w, acts) && Ruled(w, acts, rules)
    ensures Follows(Run(w, acts), rules)
    decreases |acts|
  {
    if acts != [] { RuledEnd(Next(w, acts[0]), acts[1..], rules); }
  }

  lemma {:induction false} RuledAppend(w: World, acts: seq<Action>, a: Action, rules: set<Rule>)
    requires Feasible(w, acts) && Ruled(w, acts, rules)
    requires Enabled(Run(w, acts), a) && Follows(Next(Run(w, acts), a), rules)
    ensures Feasible(w, acts + [a]) && Ruled(w, acts + [a], rules) && Run(w, acts + [a]) == Next(Run(w, acts), a)
    decreases |acts|
  {
    if acts == [] {
      assert acts + [a] == [a] && [a][1..] == [];
      assert Ruled(Next(w, a), [], rules);
    } else {
      RuledAppend(Next(w, acts[0]), acts[1..], a, rules);
      assert (acts + [a])[0] == acts[0] && (acts + [a])[1..] == acts[1..] + [a];
    }
  }

  /** Under the first rule, no other call uses slot `id`. */
  ghost predicate SoleUser(w: World, p: nat, id: Token, rules: set<Rule>) {
    OneCallPerToken in rules ==> forall q | q in w.procs && q != p && Attached(w.procs[q]) :: w.procs[q].id != id
  }

  /** The acting call stands outside every line afterwards, or in time and on a slot of its own. */
  ghost predicate Keeps(w: World, a: Action, rules: set<Rule>)
    requires Enabled(w, a) && !a.Tick?
  {
    var w' := Next(w, a);
    a.p in w'.procs && Attached(w'.procs[a.p]) ==>
      w'.clock < Due(w'.procs[a.p]) && SoleUser(w, a.p, w'.procs[a.p].id, rules)
  }

  lemma Goes(w: World, a: Action, rules: set<Rule>)
    requires ReachableUnder(w, rules) && Enabled(w, a) && !a.Tick? && Keeps(w, a, rules)
    ensures ReachableUnder(Next(w, a), rules)
  {
    var clock: int, acts: seq<Action> :|
      Feasible(Start(clock), acts) && Ruled(Start(clock), acts, rules) && w == Run(Start(clock), acts);
    RuledEnd(Start(clock), acts, rules);
    StillFollows(w, a, rules);
    RuledAppend(Start(clock), acts, a, rules);
  }

  lemma StillFollows(w: World, a: Action, rules: set<Rule>)
    requires Follows(w, rules) && Enabled(w, a) && !a.Tick? && Keeps(w, a, rules)
    ensures Follows(Next(w, a), rules)
  {
    var w' := Next(w, a);
    assert w'.clock == w.clock by { OnlyTicksMoveTheClock(w, a); }
    forall q | q in w'.procs && q != a.p ensures q in w.procs && w'.procs[q] == w.procs[q] { OthersUntouched(w, a, q); }
  }

  lemma Waits(w: World, seconds: nat) returns (w': World)
    requires ReachableUnder(w, {OneCallPerToken})
    ensures ReachableUnder(w', {OneCallPerToken}) && w' == w.(clock := w.clock + seconds)
  {
    var clock: int, acts: seq<Action> :|
      Feasible(Start(clock), acts) && Ruled(Start(clock), acts, {OneCallPerToken}) && w == Run(Start(clock), acts);
    RuledEnd(Start(clock), acts, {OneCallPerToken});
    RuledAppend(Start(clock), acts, Tick(seconds), {OneCallPerToken});
    w' := Next(w, Tick(seconds));
  }

  lemma IsReachable(w: World, rules: set<Rule>)
    requires ReachableUnder(w, rules)
    ensures Reachable(w)
  {
  }

  // ----- pieces of a run -----

  /** Worlds alike in everything but the calls, the table and the tokens drawn. */
  predicate SameLines(w: World, w': World) {
    w'.clock == w.clock && w'.queues == w.queues && w'.pending == w.pending && w.minted <= w'.minted
  }

  lemma HeldLock(name: string, token: Token, rules: set<Rule>) returns (w: World)
    requires token != ""
    ensures ReachableUnder(w, rules) && SameLines(Start(0), w) && w.procs == map[] && w.minted == {token}
    ensures w.table == map[name := Row(name, token, 0, 1000)]
  {
    assert Run(Start(0), []) == Start(0) && Ruled(Start(0), [], rules);
    assert ReachableUnder(Start(0), rules);
    var call := Call(name, name, 1000, 0, "");
    Goes(Start(0), BeginLock(0, call), rules);
    var w1 := Next(Start(0), BeginLock(0, call));
    Goes(w1, FirstTx(0, token), rules);
    w := Next(w1, FirstTx(0, token));
  }

  /** A call that finds the lock held: in line after its first attempt, not yet joined. */
  lemma FindsItHeld(w: World, p: nat, call: Call, token: Token, rules: set<Rule>) returns (w': World)
    requires ReachableUnder(w, rules) && p !in w.procs && call.ttl > 0 && call.wait > 0
    requires LiveAt(w.table, call.name, w.clock) && Unused(w, token)
    ensures ReachableUnder(w', rules) && SameLines(w, w') && w'.table == w.table
    ensures w'.procs == w.procs[p := Joining(call)] && w'.minted == w.minted + {token}
  {
    Goes(w, BeginLock(p, call), rules);
    var w1 := Next(w, BeginLock(p, call));
    Goes(w1, FirstTx(p, token), rules);
    w' := Next(w1, FirstTx(p, token));
    assert w'.procs == w.procs[p := Joining(call)];
  }

  /** A newcomer that finds the lock held joins at the tail. */
  lemma Joins(w: World, p: nat, call: Call, token: Token, id: Token, rules: set<Rule>) returns (w': World)
    requires ReachableUnder(w, rules) && p !in w.procs && call.ttl > 0 && call.wait == 1 && call.wake == ""
    requires LiveAt(w.table, call.name, w.clock) && Unused(w, token) && Unused(w, id) && token != id
    ensures ReachableUnder(w', rules) && w'.clock == w.clock && w'.table == w.table && w'.pending == w.pending
    ensures w'.procs == w.procs[p := Looping(call, id, w.clock)] && w'.minted == w.minted + {token, id}
    ensures w'.queues == Put(w.queues, call.name,
                             Line(w, call.name) + [Slot(id, call.agent, Horizon(w.clock, call.ttl, 1))])
  {
    var w1 := FindsItHeld(w, p, call, token, rules);
    IsReachable(w1, rules);
    ReachableLines(w1);
    forall q | q in w1.procs && Attached(w1.procs[q]) ensures w1.procs[q].id != id { assert CallKept(w1, w1.procs[q]); }
    w' := Next(w1, JoinLine(p, id));
    Goes(w1, JoinLine(p, id), rules);
    assert w'.procs == w.procs[p := Looping(call, id, w.clock)];
  }

  /** A call at the head passes its head check and reads the clock for its attempt. */
  lemma PassesTheHeadCheck(w: World, p: nat, call: Call, id: Token, rules: set<Rule>) returns (w': World)
    requires ReachableUnder(w, rules) && p in w.procs && w.procs[p] == Looping(call, id, w.clock) && call.ttl > 0
    requires IsHead(Line(w, call.name), id)
    requires SoleUser(w, p, id, rules)
    ensures ReachableUnder(w', rules) && w' == w.(procs := w.procs[p := Retrying(call, id, w.clock, w.clock)])
  {
    Goes(w, CheckHead(p), rules);
    var w1 := Next(w, CheckHead(p));
    assert w1 == w.(procs := w.procs[p := Heading(call, id, w.clock)]);
    Goes(w1, ReadClock(p), rules);
    w' := Next(w1, ReadClock(p));
    assert w'.procs == w.procs[p := Retrying(call, id, w.clock, w.clock)];
  }

  /** The attempt of a call at the clock's second. */
  lemma Tries(w: World, p: nat, call: Call, id: Token, token: Token, rules: set<Rule>) returns (w': World)
    requires ReachableUnder(w, rules) && p in w.procs && w.procs[p] == Retrying(call, id, w.clock, w.clock)
    requires call.ttl > 0 && Unused(w, token)
    requires SoleUser(w, p, id, rules)
    ensures ReachableUnder(w', rules) && SameLines(w, w') && w'.minted == w.minted + {token}
    ensures w'.table == Acquire(w.table, call.name, call.agent, token, w.clock, call.ttl)
    ensures w'.procs == w.procs[p := if LiveAt(w.table, call.name, w.clock)
                                     then Parked(call, id, w.clock, true) else Winning(call, id, w.clock)]
  {
    Goes(w, RetryTx(p, token), rules);
    w' := Next(w, RetryTx(p, token));
  }

  /** The winner leaves the line. */
  lemma Leaves(w: World, p: nat, call: Call, id: Token, rules: set<Rule>) returns (w': World)
    requires ReachableUnder(w, rules) && p in w.procs && w.procs[p] == Winning(call, id, w.clock)
    ensures ReachableUnder(w', rules) && w'.clock == w.clock && w'.table == w.table
    ensures w'.pending == w.pending && w'.minted == w.minted && w'.procs == w.procs - {p}
    ensures w'.queues == Put(w.queues, call.name, Leave(Line(w, call.name), id))
  {
    Goes(w, Dequeue(p), rules);
    w' := Next(w, Dequeue(p));
  }

  /** The only lock is released, by its token or because its agent is gone. */
  lemma Frees(w: World, p: nat, name: string, row: Row, gone: bool, rules: set<Rule>) returns (w': World)
    requires ReachableUnder(w, rules) && p !in w.procs && w.table == map[name := row] && row.token != ""
    ensures ReachableUnder(w', rules) && SameLines(w, w') && w'.minted == w.minted
    ensures w'.table == map[] && w'.procs == w.procs[p := Waking({name})]
  {
    var a := if gone then ReleaseAgentTx(p, row.agent) else ReleaseTx(p, name, row.token, "");
    Goes(w, a, rules);
    w' := Next(w, a);
    assert HeldBy(w.table, row.agent) == {name};
    assert w'.table == map[];
  }

  /** A releaser past its commit signals the head of the line. */
  lemma Wakes(w: World, p: nat, name: string, id: Token, rules: set<Rule>) returns (w': World)
    requires ReachableUnder(w, rules) && p in w.procs && w.procs[p] == Waking({name}) && IsHead(Line(w, name), id)
    ensures ReachableUnder(w', rules)
    ensures w' == w.(procs := w.procs[p := Waking({})], pending := w.pending + {id})
  {
    Goes(w, ReadHead(p, name), rules);
    var w1 := Next(w, ReadHead(p, name));
    assert {name} - {name} == {};
    Goes(w1, Send(p), rules);
    w' := Next(w1, Send(p));
    assert w'.procs == w.procs[p := Waking({})];
  }

  /** A whole release: the commit, then the signal to the head. */
  lemma FreesAndWakes(w: World, p: nat, name: string, row: Row, gone: bool, id: Token, rules: set<Rule>)
    returns (w': World)
    requires ReachableUnder(w, rules) && p !in w.procs && w.table == map[name := row] && row.token != ""
    requires IsHead(Line(w, name), id)
    ensures ReachableUnder(w', rules) && w'.clock == w.clock && w'.queues == w.queues && w'.minted == w.minted
    ensures w'.table == map[] && w'.procs == w.procs[p := Waking({})] && w'.pending == w.pending + {id}
  {
    var w1 := Frees(w, p, name, row, gone, rules);
    w' := Wakes(w1, p, name, id, rules);
    assert w'.procs == w.procs[p := Waking({})];
  }

  lemma BeginsToReap(w: World, p: nat, rules: set<Rule>) returns (w': World)
    requires ReachableUnder(w, rules) && p !in w.procs
    ensures ReachableUnder(w', rules) && w' == w.(procs := w.procs[p := Purging(w.clock)])
  {
    Goes(w, BeginReap(p), rules);
    w' := Next(w, BeginReap(p));
  }

  lemma Purges(w: World, p: nat, rules: set<Rule>) returns (w': World)
    requires ReachableUnder(w, rules) && p in w.procs && w.procs[p] == Purging(w.clock)
    ensures ReachableUnder(w', rules) && SameLines(w, w') && w'.minted == w.minted
    ensures w'.table == Unexpired(w.table, w.clock) && w'.procs == w.procs[p := Sweeping(w.clock)]
  {
    Goes(w, PurgeTx(p), rules);
    w' := Next(w, PurgeTx(p));
  }

  /** A whole reaper pass up to the sweep. */
  lemma ReapsIdle(w: World, p: nat, rules: set<Rule>) returns (w': World)
    requires ReachableUnder(w, rules) && p !in w.procs
    ensures ReachableUnder(w', rules) && w'.clock == w.clock && w'.table == Unexpired(w.table, w.clock)
    ensures w'.queues == SweepAll(w.queues, w.clock) && w'.minted == w.minted && w'.pending == w.pending
    ensures w'.procs == w.procs[p := Probing(w.clock, Heads(w'.queues))]
  {
    var w1 := BeginsToReap(w, p, rules);
    var w2 := Purges(w1, p, rules);
    Goes(w2, SweepLines(p), rules);
    w' := Next(w2, SweepLines(p));
  }

  // ----- jumping the line -----

  /** A queued attempt about to be granted to a call that is no longer in line, while
      someone else stands at the head. */
  ghost predicate JumpsTheLine(w: World, a: Action) {
    && Enabled(w, a) && a.RetryTx? && !LiveAt(w.table, w.procs[a.p].call.name, w.procs[a.p].now)
    && !InLine(Line(w, w.procs[a.p].call.name), w.procs[a.p].id)
    && Line(w, w.procs[a.p].call.name) != []
  }

  lemma LapsedSlotSwept(name: string, s: Slot, now: int)
    requires s.horizon <= now
    ensures SweepAll(map[name := [s]], now) == map[]
  {
    KeepFacts([s], Lasting(now));
    var kept := Sweep([s], now);
    assert forall i :: 0 <= i < |kept| ==> kept[i] in kept;
  }

  /** A caller who asks for lock `name` for a second and would wait a second for it. */
  function Asks(name: string, agent: string, wake: Token): Call {
    Call(name, agent, 1, 1, wake)
  }

  /** The first waiter in line for a held lock. */
  lemma FirstInLine(name: string, t0: Token, t1: Token, x: Token, rules: set<Rule>) returns (w: World)
    requires "" !in {t0, t1, x} && t0 != t1 && t0 != x && t1 != x
    ensures ReachableUnder(w, rules) && w.clock == 0 && w.table == map[name := Row(name, t0, 0, 1000)]
    ensures w.queues == map[name := [Slot(x, name, 31)]] && w.minted == {t0, t1, x} && w.pending == {}
    ensures w.procs == map[1 := Looping(Asks(name, name, ""), x, 0)]
  {
    var w1 := HeldLock(name, t0, rules);
    w := Joins(w1, 1, Asks(name, name, ""), t1, x, rules);
    assert Line(w1, name) + [Slot(x, name, 31)] == [Slot(x, name, 31)];
  }

  /** It passes its head check and is held up until the reaper has collected its slot. */
  lemma HeldUpAtTheHead(w: World, name: string, t0: Token, x: Token) returns (w': World)
    requires ReachableUnder(w, {OneCallPerToken}) && w.clock == 0 && w.table == map[name := Row(name, t0, 0, 1000)]
    requires w.queues == map[name := [Slot(x, name, 31)]] && w.procs == map[1 := Looping(Asks(name, name, ""), x, 0)]
    ensures ReachableUnder(w', {OneCallPerToken}) && w'.clock == 31 && w'.table == w.table
    ensures w'.queues == map[] && w'.minted == w.minted
    ensures w'.procs == map[1 := Retrying(Asks(name, name, ""), x, 0, 0), 2 := Probing(31, map[])]
  {
    var w1 := PassesTheHeadCheck(w, 1, Asks(name, name, ""), x, {OneCallPerToken});
    var w2 := Waits(w1, 31);
    LapsedSlotSwept(name, Slot(x, name, 31), 31);
    w' := ReapsIdle(w2, 2, {OneCallPerToken});
    assert Unexpired(w2.table, 31) == w.table;
  }

  /** A newcomer takes the only place in line, and the lock is freed. */
  lemma NewcomerThenFreed(w: World, name: string, row: Row, x: Token, t: Token, y: Token, rules: set<Rule>)
    returns (w': World)
    requires ReachableUnder(w, rules) && w.table == map[name := row] && row.token != ""
    requires LiveAt(w.table, name, w.clock)
    requires w.queues == map[] && Unused(w, t) && Unused(w, y) && t != y && y != x
    requires 3 !in w.procs && 4 !in w.procs
    requires 1 in w.procs && w.procs[1].Retrying? && w.procs[1].call.name == name && w.procs[1].id == x
    ensures ReachableUnder(w', rules) && w'.minted == w.minted + {t, y}
    ensures forall token | Unused(w', token) :: JumpsTheLine(w', RetryTx(1, token))
  {
    var other := Asks(name, "", "");
    var w1 := Joins(w, 3, other, t, y, rules);
    w' := Frees(w1, 4, name, row, false, rules);
    assert Line(w, name) == [];
    assert Line(w', name) == [Slot(y, "", Horizon(w.clock, 1, 1))];
    assert w'.procs[1] == w.procs[1];
  }

  /** A supply of distinct tokens. */
  function Tok(i: nat): (r: Token)
    ensures |r| == i + 1
  {
    seq(i + 1, _ => 't')
  }

  /** Held up past its horizon, a call is granted the lock after its slot was collected
      and someone else became the head. */
  lemma LateCallJumps(name: string) returns (w: World, a: Action)
    ensures ReachableUnder(w, {OneCallPerToken}) && JumpsTheLine(w, a)
  {
    var w1 := FirstInLine(name, Tok(0), Tok(1), Tok(2), {OneCallPerToken});
    var w2 := HeldUpAtTheHead(w1, name, Tok(0), Tok(2));
    w := NewcomerThenFreed(w2, name, Row(name, Tok(0), 0, 1000), Tok(2), Tok(3), Tok(4), {OneCallPerToken});
    a := RetryTx(1, Tok(5));
  }

  /** A second call shows the wake token of a call under way. */
  lemma Rejoins(w: World, p: nat, call: Call, token: Token, id: Token) returns (w': World)
    requires ReachableUnder(w, {DoneInTime}) && p !in w.procs && call.ttl > 0 && call.wait == 1 && call.wake != ""
    requires LiveAt(w.table, call.name, w.clock) && Unused(w, token) && Unused(w, id) && token != id
    requires Line(w, call.name) == [Slot(call.wake, call.agent, Horizon(w.clock, call.ttl, 1))]
    ensures ReachableUnder(w', {DoneInTime}) && SameLines(w, w') && w'.table == w.table
    ensures w'.procs == w.procs[p := Looping(call, call.wake, w.clock)] && w'.minted == w.minted + {token, id}
  {
    var w1 := FindsItHeld(w, p, call, token, {DoneInTime});
    w' := Next(w1, JoinLine(p, id));
    Goes(w1, JoinLine(p, id), {DoneInTime});
    assert w'.procs == w.procs[p := Looping(call, call.wake, w.clock)];
    var q := Line(w, call.name);
    assert Join(q, call.agent, call.wake, id, Horizon(w.clock, call.ttl, 1)) == q;
    assert w'.queues == Put(w.queues, call.name, q) == w.queues;
  }

  /** The attempt of a call at the head of a free lock, and its leaving the line. */
  lemma WinsAndLeaves(w: World, p: nat, call: Call, s: Slot, token: Token, rules: set<Rule>) returns (w': World)
    requires ReachableUnder(w, rules) && p in w.procs && w.procs[p] == Retrying(call, s.id, w.clock, w.clock)
    requires call.ttl > 0 && Unused(w, token) && w.table == map[] && w.queues == map[call.name := [s]]
    requires SoleUser(w, p, s.id, rules)
    ensures ReachableUnder(w', rules) && w'.clock == w.clock && w'.queues == map[] && w'.minted == w.minted + {token}
    ensures w'.table == map[call.name := Row(call.agent, token, w.clock, w.clock + call.ttl)]
    ensures w'.procs == w.procs - {p}
  {
    var w1 := Tries(w, p, call, s.id, token, rules);
    w' := Leaves(w1, p, call, s.id, rules);
    LeaveHead([s], [s.id]);
    assert w'.procs == w.procs - {p};
  }

  /** Both calls on slot `x` pass the head check. */
  lemma BothPass(w: World, name: string, x: Token) returns (w': World)
    requires ReachableUnder(w, {DoneInTime}) && w.clock == 0 && IsHead(Line(w, name), x)
    requires w.procs == map[1 := Looping(Asks(name, name, ""), x, 0),
                            2 := Looping(Asks(name, name, x), x, 0), 5 := Waking({name})]
    ensures ReachableUnder(w', {DoneInTime}) && w' == w.(procs := w'.procs)
    ensures w'.procs == map[1 := Retrying(Asks(name, name, ""), x, 0, 0),
                            2 := Retrying(Asks(name, name, x), x, 0, 0), 5 := Waking({name})]
  {
    var w1 := PassesTheHeadCheck(w, 1, Asks(name, name, ""), x, {DoneInTime});
    w' := PassesTheHeadCheck(w1, 2, Asks(name, name, x), x, {DoneInTime});
  }

  /** The second call on slot `x` wins the freed lock and takes the slot out, while the
      first is still between its head check and its attempt. */
  lemma SharedSlotTaken(w: World, name: string, x: Token, token: Token) returns (w': World)
    requires ReachableUnder(w, {DoneInTime}) && w.clock == 0 && w.table == map[] && Unused(w, token)
    requires w.queues == map[name := [Slot(x, name, 31)]]
    requires w.procs == map[1 := Looping(Asks(name, name, ""), x, 0),
                            2 := Looping(Asks(name, name, x), x, 0), 5 := Waking({name})]
    ensures ReachableUnder(w', {DoneInTime}) && w'.clock == 0 && w'.table == map[name := Row(name, token, 0, 1)]
    ensures w'.queues == map[] && w'.minted == w.minted + {token}
    ensures w'.procs == map[1 := Retrying(Asks(name, name, ""), x, 0, 0), 5 := Waking({name})]
  {
    var w1 := BothPass(w, name, x);
    w' := WinsAndLeaves(w1, 2, Asks(name, name, x), Slot(x, name, 31), token, {DoneInTime});
  }

  /** Two calls on the wake token of the first in line, and the lock freed. */
  lemma TokenShared(name: string) returns (w: World)
    ensures ReachableUnder(w, {DoneInTime}) && w.clock == 0 && w.table == map[]
    ensures w.queues == map[name := [Slot(Tok(2), name, 31)]] && w.minted == {Tok(0), Tok(1), Tok(2), Tok(3), Tok(4)}
    ensures w.procs == map[1 := Looping(Asks(name, name, ""), Tok(2), 0),
                           2 := Looping(Asks(name, name, Tok(2)), Tok(2), 0), 5 := Waking({name})]
  {
    var w1 := FirstInLine(name, Tok(0), Tok(1), Tok(2), {DoneInTime});
    var w2 := Rejoins(w1, 2, Asks(name, name, Tok(2)), Tok(3), Tok(4));
    w := Frees(w2, 5, name, Row(name, Tok(0), 0, 1000), false, {DoneInTime});
  }

  /** Two calls on one wake token, both long before they are due: the second wins and
      takes the slot away, and the first then wins past the next one in line. */
  lemma SharedTokenJumps(name: string) returns (w: World, a: Action)
    ensures ReachableUnder(w, {DoneInTime}) && JumpsTheLine(w, a)
  {
    var w1 := TokenShared(name);
    var w2 := SharedSlotTaken(w1, name, Tok(2), Tok(5));
    w := NewcomerThenFreed(w2, name, Row(name, Tok(5), 0, 1), Tok(2), Tok(6), Tok(7), {DoneInTime});
    a := RetryTx(1, Tok(8));
  }

  /** Neither rule alone is enough: for each there is a run that keeps it throughout and
      in which a queued grant goes past the head of the line. */
  lemma NeitherRuleSuffices(rule: Rule)
    ensures exists w: World, a: Action :: ReachableUnder(w, {rule}) && JumpsTheLine(w, a)
  {
    if rule.OneCallPerToken? { var w, a := LateCallJumps(""); } else { var w, a := SharedTokenJumps(""); }
  }

  // ----- overtaking the head -----

  /** A first attempt by a single or a batch call is granted while a waiter is parked at
      the head of the line; the waiter stays where it is. */
  ghost predicate Overtakes(w: World, a: Action, q: nat) {
    && Enabled(w, a) && (a.FirstTx? || a.BatchTx?)
    && q in w.procs && w.procs[q].Parked? && w.procs[q].tried
    && var w', name, id := Next(w, a), w.procs[q].call.name, w.procs[q].id;
       && IsHead(Line(w, name), id) && IsHead(Line(w', name), id) && q in w'.procs && w'.procs[q] == w.procs[q]
       && name in w'.table && w'.table[name].token !in w.minted
  }

  /** A waiter parked at the head after a failed attempt, and the lock freed since. */
  lemma ParkedAtTheHead(name: string, rules: set<Rule>) returns (w: World)
    ensures ReachableUnder(w, rules) && w.clock == 0 && w.table == map[] && w.pending == {}
    ensures w.queues == map[name := [Slot(Tok(2), name, 31)]] && w.minted == {Tok(0), Tok(1), Tok(2), Tok(3)}
    ensures w.procs == map[1 := Parked(Asks(name, name, ""), Tok(2), 0, true), 2 := Waking({name})]
  {
    var w1 := FirstInLine(name, Tok(0), Tok(1), Tok(2), rules);
    var w2 := PassesTheHeadCheck(w1, 1, Asks(name, name, ""), Tok(2), rules);
    var w3 := Tries(w2, 1, Asks(name, name, ""), Tok(2), Tok(3), rules);
    w := Frees(w3, 2, name, Row(name, Tok(0), 0, 1000), false, rules);
  }

  lemma NewcomerOvertakes(w: World, name: string, rules: set<Rule>) returns (w': World)
    requires ReachableUnder(w, rules) && w.table == map[] && Unused(w, Tok(4))
    requires Line(w, name) == [Slot(Tok(2), name, 31)]
    requires w.procs == map[1 := Parked(Asks(name, name, ""), Tok(2), 0, true), 2 := Waking({name})]
    ensures ReachableUnder(w', rules) && Overtakes(w', FirstTx(3, Tok(4)), 1)
  {
    Goes(w, BeginLock(3, Asks(name, "", "")), rules);
    w' := Next(w, BeginLock(3, Asks(name, "", "")));
  }

  lemma BatchOvertakes(w: World, name: string, rules: set<Rule>) returns (w': World)
    requires ReachableUnder(w, rules) && w.table == map[] && Unused(w, Tok(4))
    requires Line(w, name) == [Slot(Tok(2), name, 31)]
    requires w.procs == map[1 := Parked(Asks(name, name, ""), Tok(2), 0, true), 2 := Waking({name})]
    ensures ReachableUnder(w', rules) && Overtakes(w', BatchTx(3, map[name := Tok(4)]), 1)
  {
    Goes(w, BeginBatch(3, {name}, "", 1), rules);
    w' := Next(w, BeginBatch(3, {name}, "", 1));
  }

  /** The immediate attempt does not look at the line: even in a run that keeps both
      rules, a newcomer and a batch can each overtake the waiter at the head. */
  lemma HeadCanBeOvertaken(rules: set<Rule>, batch: bool)
    ensures exists w: World, a: Action, q: nat ::
              ReachableUnder(w, rules) && Overtakes(w, a, q) && (batch <==> a.BatchTx?)
  {
    var w1 := ParkedAtTheHead("", rules);
    if batch { var w := BatchOvertakes(w1, "", rules); } else { var w := NewcomerOvertakes(w1, "", rules); }
  }

  /** A re-poll about to win on its immediate attempt although its slot is in line. */
  ghost predicate WinsPastItsSlot(w: World, a: Action) {
    && Enabled(w, a) && a.FirstTx? && !LiveAt(w.table, w.procs[a.p].call.name, w.procs[a.p].now)
    && Reattaches(Line(w, w.procs[a.p].call.name), w.procs[a.p].call.wake)
    && forall q | q in w.procs && Attached(w.procs[q]) :: w.procs[q].id != w.procs[a.p].call.wake
  }

  /** So can a waiter that gave up and polls again; its slot then stays in the line for
      as long as `LockLimits.RepollLeavesItsSlotBehind` says. */
  lemma RepollCanWinPastItsSlot(rules: set<Rule>)
    ensures exists w: World, a: Action :: ReachableUnder(w, rules) && WinsPastItsSlot(w, a)
  {
    var w1 := ParkedAtTheHead("", rules);
    Goes(w1, GiveUp(1), rules);
    var w2 := Next(w1, GiveUp(1));
    Goes(w2, BeginLock(3, Asks("", "", Tok(2))), rules);
    var w3 := Next(w2, BeginLock(3, Asks("", "", Tok(2))));
    assert Line(w3, "") == [Slot(Tok(2), "", 31)];
    assert WinsPastItsSlot(w3, FirstTx(3, Tok(4)));
  }

  // ----- a head asleep on a free lock -----

  /** A waiter parked at the head without having tried, and asleep. */
  ghost predicate ParkedAsleep(w: World, p: nat) {
    && p in w.procs && w.procs[p].Parked? && !w.procs[p].tried
    && Sleeps(w, w.procs[p].call.name, w.procs[p].id)
  }

  /** The second in line looks at the head, sees another, and parks. */
  lemma SecondParks(w: World, name: string, x: Token, t: Token, y: Token, rules: set<Rule>) returns (w': World)
    requires ReachableUnder(w, rules) && w.clock == 0 && LiveAt(w.table, name, 0)
    requires w.queues == map[name := [Slot(x, name, 31)]] && w.procs == map[1 := Looping(Asks(name, name, ""), x, 0)]
    requires Unused(w, t) && Unused(w, y) && t != y && x != y
    ensures ReachableUnder(w', rules) && w'.clock == 0 && w'.table == w.table && w'.pending == w.pending
    ensures w'.queues == map[name := [Slot(x, name, 31), Slot(y, name, 31)]] && w'.minted == w.minted + {t, y}
    ensures w'.procs == map[1 := Looping(Asks(name, name, ""), x, 0), 2 := Parked(Asks(name, name, ""), y, 0, false)]
  {
    var w1 := Joins(w, 2, Asks(name, name, ""), t, y, rules);
    assert [Slot(x, name, 31)] + [Slot(y, name, 31)] == [Slot(x, name, 31), Slot(y, name, 31)];
    Goes(w1, CheckHead(2), rules);
    w' := Next(w1, CheckHead(2));
  }

  lemma TwoInLine(name: string, rules: set<Rule>) returns (w: World)
    ensures ReachableUnder(w, rules) && w.clock == 0 && w.table == map[name := Row(name, Tok(0), 0, 1000)]
    ensures w.queues == map[name := [Slot(Tok(2), name, 31), Slot(Tok(4), name, 31)]] && w.pending == {}
    ensures w.procs == map[1 := Looping(Asks(name, name, ""), Tok(2), 0),
                           2 := Parked(Asks(name, name, ""), Tok(4), 0, false)]
    ensures Unused(w, Tok(5))
  {
    var w1 := FirstInLine(name, Tok(0), Tok(1), Tok(2), rules);
    w := SecondParks(w1, name, Tok(2), Tok(3), Tok(4), rules);
  }

  lemma FreedAfterTheCheck(w: World, name: string, x: Token, row: Row, second: Proc, rules: set<Rule>)
    returns (w': World)
    requires ReachableUnder(w, rules) && w.clock == 0 && w.pending == {}
    requires w.table == map[name := row] && row.token != ""
    requires IsHead(Line(w, name), x) && second.Parked? && second.id != x
    requires w.procs == map[1 := Looping(Asks(name, name, ""), x, 0), 2 := second]
    ensures ReachableUnder(w', rules) && w'.clock == 0 && w'.queues == w.queues && w'.pending == {x}
    ensures w'.table == map[] && w'.minted == w.minted
    ensures w'.procs == map[1 := Retrying(Asks(name, name, ""), x, 0, 0), 2 := second, 3 := Waking({})]
  {
    var w1 := PassesTheHeadCheck(w, 1, Asks(name, name, ""), x, rules);
    w' := FreesAndWakes(w1, 3, name, row, false, x, rules);
  }

  /** The first in line wins, its row is released at once, and both signals of the two
      releases go to its own slot. */
  lemma WinnerUndercut(w: World, name: string, x: Token, row: Row, second: Proc, token: Token, rules: set<Rule>)
    returns (w': World)
    requires ReachableUnder(w, rules) && w.clock == 0 && w.pending == {}
    requires w.table == map[name := row] && row.token != ""
    requires IsHead(Line(w, name), x) && Unused(w, token) && second.Parked? && second.id != x
    requires w.procs == map[1 := Looping(Asks(name, name, ""), x, 0), 2 := second]
    ensures ReachableUnder(w', rules) && w'.clock == 0 && w'.queues == w.queues && w'.pending == {x}
    ensures w'.table == map[name := Row(name, token, 0, 1)]
    ensures w'.procs == map[1 := Winning(Asks(name, name, ""), x, 0), 2 := second, 3 := Waking({})]
  {
    var w1 := FreedAfterTheCheck(w, name, x, row, second, rules);
    w' := Tries(w1, 1, Asks(name, name, ""), x, token, rules);
  }

  lemma FirstOfTwoLeaves(s: Slot, t: Slot)
    requires s.id != t.id
    ensures Leave([s, t], s.id) == [t]
  {
    LeaveHead([s, t], [s.id, t.id]);
  }

  lemma WinnerGone(w: World, name: string, x: Token, y: Token, row: Row, second: Proc, rules: set<Rule>)
    returns (w': World)
    requires ReachableUnder(w, rules) && w.clock == 0 && w.pending == {x}
    requires w.table == map[name := row] && row.token != ""
    requires w.queues == map[name := [Slot(x, name, 31), Slot(y, name, 31)]] && x != y
    requires w.procs == map[1 := Winning(Asks(name, name, ""), x, 0), 2 := second, 3 := Waking({})]
    ensures ReachableUnder(w', rules) && w'.table == map[] && w'.pending == {x}
    ensures w'.queues == map[name := [Slot(y, name, 31)]]
    ensures w'.procs == map[2 := second, 3 := Waking({}), 4 := Waking({})]
  {
    var w1 := FreesAndWakes(w, 4, name, row, true, x, rules);
    w' := Leaves(w1, 1, Asks(name, name, ""), x, rules);
    FirstOfTwoLeaves(Slot(x, name, 31), Slot(y, name, 31));
  }

  /** When a winner's row is released before the winner has left the line, the signal
      goes to the winner's own slot, and the next in line, promoted when the winner
      leaves, sleeps on a free lock: `LockSleepers.HeadSleepsExactly` says for how long. */
  lemma PromotedHeadCanSleep(rules: set<Rule>)
    ensures exists w: World, p: nat :: ReachableUnder(w, rules) && ParkedAsleep(w, p)
  {
    var second := Parked(Asks("", "", ""), Tok(4), 0, false);
    var w1 := TwoInLine("", rules);
    var w2 := WinnerUndercut(w1, "", Tok(2), Row("", Tok(0), 0, 1000), second, Tok(5), rules);
    var w3 := WinnerGone(w2, "", Tok(2), Tok(4), Row("", Tok(5), 0, 1), second, rules);
    assert ParkedAsleep(w3, 2);
  }
}
