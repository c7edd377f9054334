/** Concurrent use of the lock manager as a step machine. Every transaction, every
    critical section of the queue mutex and every channel operation is one step;
    anything may happen between two steps of the same call. Each call remembers the
    second it read from the clock, which may be stale when its transaction runs. */
module LockProtocol {
  import opened Base
  import opened LockTable
  import opened WaitQueues

  /** The arguments of one blocking lock call. */
  datatype Call = Call(name: string, agent: string, ttl: int, wait: int, wake: Token)

  /** Where a call or a background task stands. */
  datatype Proc =
    // lock call: the immediate attempt, then the line
    | Trying(call: Call, now: int)
    | Joining(call: Call)
    | Looping(call: Call, id: Token, since: int)
    | Heading(call: Call, id: Token, since: int)
    | Retrying(call: Call, id: Token, since: int, now: int)
    | Winning(call: Call, id: Token, since: int)
    | Parked(call: Call, id: Token, since: int, tried: bool)
    // batch and renewal: clock read, transaction pending
    | Batching(names: set<string>, agent: string, ttl: int, now: int)
    | Renewing(name: string, who: Renewer, ttl: int, now: int)
    // a release that has committed and still has heads to wake
    | Waking(todo: set<string>)
    | Sending(id: Token, todo: set<string>)
    // the reaper: purge rows, sweep lines and note the heads, probe, signal
    | Purging(now: int)
    | Sweeping(now: int)
    | Probing(now: int, heads: map<string, Token>)
    | Poking(now: int, id: Token, heads: map<string, Token>)

  /** A call that holds a place in line: between joining and leaving or dequeuing. */
  predicate Attached(x: Proc) {
    x.Looping? || x.Heading? || x.Retrying? || x.Winning? || x.Parked?
  }

  /** A call that has found itself at the head and has acted on it. */
  predicate SawHead(x: Proc) {
    x.Heading? || x.Retrying? || x.Winning? || (x.Parked? && x.tried)
  }

  /** What a committed transaction did to the lock table. */
  datatype Cause =
    | Opened
    | GrantedTo(names: set<string>, readAt: int, ttl: int)
    | Extended(name: string, who: Renewer, readAt: int, ttl: int)
    | ReleasedBy(name: string, token: Token, agent: string)
    | AgentGone(agent: string)
    | Purged

  /** The table as one commit left it. */
  datatype Version = Version(at: int, table: Table, cause: Cause)

  datatype World = World(
    clock: int,
    table: Table,
    queues: Queues,
    pending: set<Token>,       // slots whose one-place channel holds a signal
    minted: set<Token>,        // every token drawn so far
    arrivals: seq<Token>,      // slots in the order they joined a line
    procs: map<nat, Proc>,
    history: seq<Version>)     // every version of the table, oldest first

  function Start(clock: int): World {
    World(clock, map[], map[], {}, {}, [], map[], [Version(clock, map[], Opened)])
  }

  datatype Action =
    | Tick(seconds: nat)
    | BeginLock(p: nat, call: Call)
    | FirstTx(p: nat, token: Token)
    | JoinLine(p: nat, newId: Token)
    | CheckHead(p: nat)
    | ReadClock(p: nat)
    | RetryTx(p: nat, token: Token)
    | Dequeue(p: nat)
    | Receive(p: nat)
    | GiveUp(p: nat)
    | BeginBatch(p: nat, names: set<string>, agent: string, ttl: int)
    | BatchTx(p: nat, tokens: map<string, Token>)
    | BeginRenew(p: nat, name: string, who: Renewer, ttl: int)
    | RenewTx(p: nat)
    | ReleaseTx(p: nat, name: string, token: Token, agent: string)
    | ReleaseAgentTx(p: nat, agent: string)
    | ReadHead(p: nat, name: string)
    | Send(p: nat)
    | BeginReap(p: nat)
    | PurgeTx(p: nat)
    | SweepLines(p: nat)
    | Probe(p: nat, name: string)
    | Poke(p: nat)

  predicate Unused(w: World, token: Token) {
    token != "" && token !in w.minted
  }

  predicate Enabled(w: World, a: Action) {
    match a
    case Tick(_) => true
    case BeginLock(p, call) => p !in w.procs && call.ttl > 0
    case FirstTx(p, token) => p in w.procs && w.procs[p].Trying? && Unused(w, token)
    case JoinLine(p, newId) => p in w.procs && w.procs[p].Joining? && Unused(w, newId)
    case CheckHead(p) => p in w.procs && w.procs[p].Looping?
    case ReadClock(p) => p in w.procs && w.procs[p].Heading?
    case RetryTx(p, token) => p in w.procs && w.procs[p].Retrying? && Unused(w, token)
    case Dequeue(p) => p in w.procs && w.procs[p].Winning?
    case Receive(p) => p in w.procs && w.procs[p].Parked? && w.procs[p].id in w.pending
    case GiveUp(p) => p in w.procs && w.procs[p].Parked?
    case BeginBatch(p, names, _, ttl) => p !in w.procs && names != {} && ttl > 0
    case BatchTx(p, tokens) =>
      && p in w.procs && w.procs[p].Batching? && tokens.Keys == w.procs[p].names
      && (forall n | n in tokens :: Unused(w, tokens[n]))
      && (forall m, n | m in tokens && n in tokens && m != n :: tokens[m] != tokens[n])
    case BeginRenew(p, _, _, ttl) => p !in w.procs && ttl > 0
    case RenewTx(p) => p in w.procs && w.procs[p].Renewing?
    case ReleaseTx(p, _, _, _) => p !in w.procs
    case ReleaseAgentTx(p, _) => p !in w.procs
    case ReadHead(p, name) => p in w.procs && w.procs[p].Waking? && name in w.procs[p].todo
    case Send(p) => p in w.procs && w.procs[p].Sending?
    case BeginReap(p) => p !in w.procs
    case PurgeTx(p) => p in w.procs && w.procs[p].Purging?
    case SweepLines(p) => p in w.procs && w.procs[p].Sweeping?
    case Probe(p, name) => p in w.procs && w.procs[p].Probing? && name in w.procs[p].heads
    case Poke(p) => p in w.procs && w.procs[p].Poking?
  }

  // ----- building blocks -----

  function Commit(w: World, table: Table, cause: Cause): World {
    w.(table := table, history := w.history + [Version(w.clock, table, cause)])
  }

  function At(w: World, p: nat, x: Proc): World {
    w.(procs := w.procs[p := x])
  }

  function Done(w: World, p: nat): World {
    w.(procs := w.procs - {p})
  }

  function Line(w: World, name: string): seq<Slot> {
    QueueOf(w.queues, name)
  }

  function Mint(w: World, tokens: set<Token>): World {
    w.(minted := w.minted + tokens)
  }

  // ----- the steps -----

  /** The commit that grants the lock of one call. */
  function GrantOne(w: World, call: Call, now: int, token: Token): World {
    Commit(Mint(w, {token}),
           Acquire(w.table, call.name, call.agent, token, now, call.ttl), GrantedTo({call.name}, now, call.ttl))
  }

  /** The commit that grants every lock of a batch. */
  function GrantBatch(w: World, x: Proc, tokens: map<string, Token>): World
    requires x.Batching? && x.names <= tokens.Keys
  {
    Commit(Mint(w, tokens.Values),
           AcquireAll(w.table, x.names, x.agent, tokens, x.now, x.ttl), GrantedTo(x.names, x.now, x.ttl))
  }

  function FirstTxStep(w: World, p: nat, call: Call, now: int, token: Token): World {
    if LiveAt(w.table, call.name, now) then
      if ClampWait(call.wait) == 0 then Done(Mint(w, {token}), p) else At(Mint(w, {token}), p, Joining(call))
    else
      Done(GrantOne(w, call, now, token), p)
  }

  function JoinLineStep(w: World, p: nat, call: Call, newId: Token): World {
    var q := Line(w, call.name);
    var horizon := Horizon(w.clock, call.ttl, ClampWait(call.wait));
    At(w.(queues := Put(w.queues, call.name, Join(q, call.agent, call.wake, newId, horizon)),
          minted := w.minted + {newId},
          arrivals := if Reattaches(q, call.wake) then w.arrivals else w.arrivals + [newId]),
       p, Looping(call, JoinedAs(q, call.wake, newId), w.clock))
  }

  function RetryTxStep(w: World, p: nat, x: Proc, token: Token): World
    requires x.Retrying?
  {
    if LiveAt(w.table, x.call.name, x.now) then
      At(Mint(w, {token}), p, Parked(x.call, x.id, x.since, true))
    else
      At(GrantOne(w, x.call, x.now, token), p, Winning(x.call, x.id, x.since))
  }

  function BatchTxStep(w: World, p: nat, x: Proc, tokens: map<string, Token>): World
    requires x.Batching? && x.names <= tokens.Keys
  {
    if AllFree(w.table, x.names, x.now)
    then Done(GrantBatch(w, x, tokens), p)
    else Done(w, p)
  }

  function ReadHeadStep(w: World, p: nat, todo: set<string>, name: string): World {
    var q := Line(w, name);
    At(w, p, if q == [] then Waking(todo - {name}) else Sending(q[0].id, todo - {name}))
  }

  function ProbeStep(w: World, p: nat, now: int, heads: map<string, Token>, name: string): World
    requires name in heads
  {
    At(w, p, if LiveAt(w.table, name, now)
             then Probing(now, heads - {name})
             else Poking(now, heads[name], heads - {name}))
  }

  function Next(w: World, a: Action): World
    requires Enabled(w, a)
  {
    match a
    case Tick(seconds) => w.(clock := w.clock + seconds)
    case BeginLock(p, call) => At(w, p, Trying(call, w.clock))
    case FirstTx(p, token) => FirstTxStep(w, p, w.procs[p].call, w.procs[p].now, token)
    case JoinLine(p, newId) => JoinLineStep(w, p, w.procs[p].call, newId)
    case CheckHead(p) =>
      var x := w.procs[p];
      At(w, p, if IsHead(Line(w, x.call.name), x.id)
               then Heading(x.call, x.id, x.since)
               else Parked(x.call, x.id, x.since, false))
    case ReadClock(p) => var x := w.procs[p]; At(w, p, Retrying(x.call, x.id, x.since, w.clock))
    case RetryTx(p, token) => RetryTxStep(w, p, w.procs[p], token)
    case Dequeue(p) =>
      var x := w.procs[p];
      Done(w.(queues := Put(w.queues, x.call.name, Leave(Line(w, x.call.name), x.id))), p)
    case Receive(p) => var x := w.procs[p]; At(w.(pending := w.pending - {x.id}), p, Looping(x.call, x.id, x.since))
    case GiveUp(p) => Done(w, p)
    case BeginBatch(p, names, agent, ttl) => At(w, p, Batching(names, agent, ttl, w.clock))
    case BatchTx(p, tokens) => BatchTxStep(w, p, w.procs[p], tokens)
    case BeginRenew(p, name, who, ttl) => At(w, p, Renewing(name, who, ttl, w.clock))
    case RenewTx(p) =>
      var x := w.procs[p];
      Done(Commit(w, Renew(w.table, x.name, x.who, x.now, x.ttl), Extended(x.name, x.who, x.now, x.ttl)), p)
    case ReleaseTx(p, name, token, agent) =>
      if Releases(w.table, name, token, agent)
      then At(Commit(w, Release(w.table, name, token, agent), ReleasedBy(name, token, agent)), p, Waking({name}))
      else w
    case ReleaseAgentTx(p, agent) =>
      At(Commit(w, ReleaseAgent(w.table, agent), AgentGone(agent)), p, Waking(HeldBy(w.table, agent)))
    case ReadHead(p, name) => ReadHeadStep(w, p, w.procs[p].todo, name)
    case Send(p) => At(w.(pending := w.pending + {w.procs[p].id}), p, Waking(w.procs[p].todo))
    case BeginReap(p) => At(w, p, Purging(w.clock))
    case PurgeTx(p) => At(Commit(w, Unexpired(w.table, w.procs[p].now), Purged), p, Sweeping(w.procs[p].now))
    case SweepLines(p) =>
      var swept := SweepAll(w.queues, w.procs[p].now);
      At(w.(queues := swept), p, Probing(w.procs[p].now, Heads(swept)))
    case Probe(p, name) => ProbeStep(w, p, w.procs[p].now, w.procs[p].heads, name)
    case Poke(p) => At(w.(pending := w.pending + {w.procs[p].id}), p, Probing(w.procs[p].now, w.procs[p].heads))
  }

  /** The steps that commit to the lock table, and with them draw lock tokens. */
  predicate Commits(a: Action) {
    a.FirstTx? || a.RetryTx? || a.BatchTx? || a.RenewTx? || a.ReleaseTx? || a.ReleaseAgentTx? || a.PurgeTx?
  }

  /** A step changes the standing of no call but its own. */
  lemma OthersUntouched(w: World, a: Action, q: nat)
    requires Enabled(w, a) && (a.Tick? || a.p != q)
    ensures q in Next(w, a).procs <==> q in w.procs
    ensures q in w.procs ==> Next(w, a).procs[q] == w.procs[q]
  {
    if Commits(a) { OthersUntouchedByCommit(w, a, q); }
  }

  /** Every other step leaves the table and its history alone. */
  lemma OnlyCommitsTouchTheTable(w: World, a: Action)
    requires Enabled(w, a) && !Commits(a)
    ensures Next(w, a).table == w.table && Next(w, a).history == w.history
    ensures w.clock <= Next(w, a).clock && w.minted <= Next(w, a).minted
  {
  }

  lemma OnlyTicksMoveTheClock(w: World, a: Action)
    requires Enabled(w, a) && !a.Tick?
    ensures Next(w, a).clock == w.clock
  {
  }

  lemma OthersUntouchedByCommit(w: World, a: Action, q: nat)
    requires Enabled(w, a) && Commits(a) && a.p != q
    ensures q in Next(w, a).procs <==> q in w.procs
    ensures q in w.procs ==> Next(w, a).procs[q] == w.procs[q]
  {
  }

  // ----- runs -----

  ghost predicate Feasible(w: World, acts: seq<Action>)
    decreases |acts|
  {
    acts == [] || (Enabled(w, acts[0]) && Feasible(Next(w, acts[0]), acts[1..]))
  }

  ghost function Run(w: World, acts: seq<Action>): World
    requires Feasible(w, acts)
    decreases |acts|
  {
    if acts == [] then w else Run(Next(w, acts[0]), acts[1..])
  }

  /** Reachable from a daemon that has just started with an empty table. */
  ghost predicate Reachable(w: World) {
    exists clock: int, acts: seq<Action> :: Feasible(Start(clock), acts) && w == Run(Start(clock), acts)
  }

  lemma {:induction false} RunAppend(w: World, acts: seq<Action>, a: Action)
    requires Feasible(w, acts) && Enabled(Run(w, acts), a)
    ensures Feasible(w, acts + [a]) && Run(w, acts + [a]) == Next(Run(w, acts), a)
    decreases |acts|
  {
    if acts == [] {
      assert acts + [a] == [a];
    } else {
      RunAppend(Next(w, acts[0]), acts[1..], a);
      assert (acts + [a])[1..] == acts[1..] + [a];
    }
  }

  lemma ReachableNext(w: World, a: Action)
    requires Reachable(w) && Enabled(w, a)
    ensures Reachable(Next(w, a))
  {
    var clock: int, acts: seq<Action> :| Feasible(Start(clock), acts) && w == Run(Start(clock), acts);
    RunAppend(Start(clock), acts, a);
  }
}
