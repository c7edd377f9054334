/** Crash recovery across the three managers, as one step machine: the lock protocol with
    all its calls and lines, the work queue with its histories, and the agents table that
    the task reaper joins against. The presence reaper is
    not atomic: it selects the lapsed agents in one step, then releases each one's locks,
    wakes the lines behind them and deletes its registration, with anything in between. */
module Recovery {
  import opened Base
  import opened LockTable
  import opened Registry
  import Core = LockProtocol
  import Queue = TaskRuns
  import Safety = LockSafety
  import Wakeups = LockWakeups

  /** The agent whose locks the presence reaper is releasing, and as which releaser. */
  datatype Releasing = Releasing(agent: string, p: nat)

  datatype World = World(
    core: Core.World,           // the clock, the locks, the lines and the calls under way
    work: Queue.World,          // the tasks and the agents table
    toRelease: set<string>,     // selected by the presence reaper, not yet begun
    doing: Option<Releasing>)   // begun, registration not yet deleted

  function Start(clock: int): World {
    World(Core.Start(clock), Queue.Start(clock), {}, None)
  }

  datatype Action =
    | Lock(a: Core.Action)      // any step of the lock manager or its reaper, or the clock
    | Work(t: Queue.Action)     // any transaction of the work queue or its reaper
    | RegisterTx(agent: string, ttl: int, readAt: int)
    | UnregisterTx(agent: string)
    | SelectLapsed(readAt: int)
    | ReleaseLapsedTx(agent: string, p: nat)
    | DeleteLapsedTx(agent: string)

  predicate BeingReleased(w: World, agent: string) {
    w.doing.Some? && w.doing.value.agent == agent
  }

  /** The releaser has woken the head of every line it owed. */
  predicate ReleaserDone(w: World)
    requires w.doing.Some?
  {
    w.doing.value.p in w.core.procs && w.core.procs[w.doing.value.p] == Core.Waking({})
  }

  ghost predicate Enabled(w: World, a: Action) {
    match a
    case Lock(x) => Core.Enabled(w.core, x)
    case Work(x) => Queue.Enabled(w.work, x) && !x.Tick? && !x.SetAgents?
    case RegisterTx(_, ttl, readAt) => ttl > 0 && readAt <= w.core.clock
    case UnregisterTx(_) => true
    case SelectLapsed(readAt) => readAt <= w.core.clock && w.toRelease == {} && w.doing.None?
    case ReleaseLapsedTx(agent, p) => agent in w.toRelease && w.doing.None? && p !in w.core.procs
    case DeleteLapsedTx(agent) => BeingReleased(w, agent) && ReleaserDone(w)
  }

  function WithAgents(w: World, agents: Agents): World {
    w.(work := w.work.(agents := agents))
  }

  /** The work queue shares the clock and the agents table. */
  function Next(w: World, a: Action): World
    requires Enabled(w, a)
  {
    match a
    case Lock(x) =>
      w.(core := Core.Next(w.core, x),
         work := if x.Tick? then w.work.(clock := w.work.clock + x.seconds) else w.work)
    case Work(x) => w.(work := Queue.Next(w.work, x))
    case RegisterTx(agent, ttl, readAt) => WithAgents(w, Register(w.work.agents, agent, ttl, readAt))
    case UnregisterTx(agent) => WithAgents(w, w.work.agents - {agent})
    case SelectLapsed(readAt) => w.(toRelease := Expired(w.work.agents, readAt))
    case ReleaseLapsedTx(agent, p) =>
      w.(core := Core.Next(w.core, Core.ReleaseAgentTx(p, agent)),
         toRelease := w.toRelease - {agent}, doing := Some(Releasing(agent, p)))
    case DeleteLapsedTx(agent) => WithAgents(w, w.work.agents - {agent}).(doing := None)
  }

  ghost predicate Feasible(w: World, acts: seq<Action>)
    decreases |acts|
  {
    acts == [] || (Enabled(w, acts[0]) && Feasible(Next(w, acts[0]), acts[1..]))
  }

  ghost function Run(w: World, acts: seq<Action>): World
    requires Feasible(w, acts)
    decreases |acts|
  {
    if acts == [] then w else Run(Next(w, acts[0]), acts[1..])
  }

  ghost predicate Reachable(w: World) {
    exists clock: int, acts: seq<Action> :: Feasible(Start(clock), acts) && w == Run(Start(clock), acts)
  }

  // ----- seen from the lock manager, such a run is one of the lock protocol -----

  /** The step of the lock protocol that `a` is, if any. */
  function LockStep(a: Action): seq<Core.Action> {
    if a.Lock? then [a.a] else if a.ReleaseLapsedTx? then [Core.ReleaseAgentTx(a.p, a.agent)] else []
  }

  function LockSteps(acts: seq<Action>): seq<Core.Action> {
    if acts == [] then [] else LockStep(acts[0]) + LockSteps(acts[1..])
  }

  lemma CoreAfterStep(w: World, a: Action)
    requires Enabled(w, a)
    ensures LockStep(a) == [] ==> Next(w, a).core == w.core
    ensures LockStep(a) != [] ==> Core.Enabled(w.core, LockStep(a)[0]) && |LockStep(a)| == 1
                                  && Next(w, a).core == Core.Next(w.core, LockStep(a)[0])
  {
  }

  lemma {:induction false} RunsTheLockProtocol(w: World, acts: seq<Action>)
    requires Feasible(w, acts)
    ensures Core.Feasible(w.core, LockSteps(acts))
    ensures Core.Run(w.core, LockSteps(acts)) == Run(w, acts).core
    decreases |acts|
  {
    if acts != [] {
      CoreAfterStep(w, acts[0]);
      RunsTheLockProtocol(Next(w, acts[0]), acts[1..]);
      var step, rest := LockStep(acts[0]), LockSteps(acts[1..]);
      if step == [] {
        assert LockSteps(acts) == rest;
      } else {
        assert LockSteps(acts)[0] == step[0] && LockSteps(acts)[1..] == rest;
      }
    }
  }

  /** So every world reached here holds a world of the lock protocol, and what is proved
      of those (mutual exclusion, order of the lines, who sleeps) holds here. */
  lemma CoreIsReachable(w: World)
    requires Reachable(w)
    ensures Core.Reachable(w.core)
  {
    var clock: int, acts: seq<Action> :| Feasible(Start(clock), acts) && w == Run(Start(clock), acts);
    RunsTheLockProtocol(Start(clock), acts);
  }

  // ----- and seen from the work queue, one of its runs -----

  /** The transaction of the work queue that `a` is, if any; for the queue, whatever
      happens to registrations is a change of the agents table. */
  ghost function QueueStep(w: World, a: Action): seq<Queue.Action>
    requires Enabled(w, a)
  {
    if a.Work? then [a.t]
    else if a.Lock? && a.a.Tick? then [Queue.Tick(a.a.seconds)]
    else if a.RegisterTx? || a.UnregisterTx? || a.DeleteLapsedTx? then [Queue.SetAgents(Next(w, a).work.agents)]
    else []
  }

  ghost function QueueSteps(w: World, acts: seq<Action>): seq<Queue.Action>
    requires Feasible(w, acts)
    decreases |acts|
  {
    if acts == [] then [] else QueueStep(w, acts[0]) + QueueSteps(Next(w, acts[0]), acts[1..])
  }

  lemma QueueAfterStep(w: World, a: Action)
    requires Enabled(w, a)
    ensures QueueStep(w, a) == [] ==> Next(w, a).work == w.work
    ensures QueueStep(w, a) != [] ==> |QueueStep(w, a)| == 1 && Queue.Enabled(w.work, QueueStep(w, a)[0])
                                      && Next(w, a).work == Queue.Next(w.work, QueueStep(w, a)[0])
  {
  }

  lemma {:induction false} RunsTheQueue(w: World, acts: seq<Action>)
    requires Feasible(w, acts)
    ensures Queue.Feasible(w.work, QueueSteps(w, acts))
    ensures Queue.Run(w.work, QueueSteps(w, acts)) == Run(w, acts).work
    decreases |acts|
  {
    if acts != [] {
      QueueAfterStep(w, acts[0]);
      RunsTheQueue(Next(w, acts[0]), acts[1..]);
      var step, rest := QueueStep(w, acts[0]), QueueSteps(Next(w, acts[0]), acts[1..]);
      if step == [] {
        assert QueueSteps(w, acts) == rest;
      } else {
        assert QueueSteps(w, acts)[0] == step[0] && QueueSteps(w, acts)[1..] == rest;
      }
    }
  }

  /** So what is proved of the work queue's reachable worlds holds here as well. */
  lemma QueueIsReachable(w: World)
    requires Reachable(w)
    ensures Queue.Reachable(w.work)
  {
    var clock: int, acts: seq<Action> :| Feasible(Start(clock), acts) && w == Run(Start(clock), acts);
    RunsTheQueue(Start(clock), acts);
  }

  // ----- what every run keeps -----

  ghost predicate Kept(w: World) {
    Queue.Sound(w.work) && Safety.CallsSound(w.core) && w.work.clock == w.core.clock
  }

  lemma StepKeeps(w: World, a: Action)
    requires Enabled(w, a) && Kept(w)
    ensures Kept(Next(w, a))
  {
    QueueAfterStep(w, a);
    if QueueStep(w, a) != [] { Queue.StepKeepsSound(w.work, QueueStep(w, a)[0]); }
    CoreAfterStep(w, a);
    if LockStep(a) != [] { Safety.StepKeepsCalls(w.core, LockStep(a)[0]); }
    ClocksAgree(w, a);
  }

  lemma ClocksAgree(w: World, a: Action)
    requires Enabled(w, a) && w.work.clock == w.core.clock
    ensures Next(w, a).work.clock == Next(w, a).core.clock
  {
    if a.Work? {
      assert Next(w, a).work.clock == w.work.clock;
    } else if a.Lock? && !a.a.Tick? {
      Core.OnlyTicksMoveTheClock(w.core, a.a);
    } else if a.ReleaseLapsedTx? {
      Core.OnlyTicksMoveTheClock(w.core, Core.ReleaseAgentTx(a.p, a.agent));
    }
  }

  lemma {:induction false} RunKeeps(w: World, acts: seq<Action>)
    requires Feasible(w, acts) && Kept(w)
    ensures Kept(Run(w, acts))
    decreases |acts|
  {
    if acts != [] {
      StepKeeps(w, acts[0]);
      RunKeeps(Next(w, acts[0]), acts[1..]);
    }
  }

  lemma ReachableKept(w: World)
    requires Reachable(w)
    ensures Kept(w)
  {
    var clock: int, acts: seq<Action> :| Feasible(Start(clock), acts) && w == Run(Start(clock), acts);
    RunKeeps(Start(clock), acts);
  }

  // ----- a registration is its agent's own affair -----

  /** What one step makes of the registration of `x`: only its own heartbeat, its own
      departure and its deletion by the reaper count. */
  function RegistrationAfterStep(before: Option<Agent>, a: Action, x: string): Option<Agent> {
    if a.RegisterTx? && a.agent == x then
      Some(Agent(if before.Some? then before.value.registeredAt else a.readAt, a.readAt + a.ttl))
    else if (a.UnregisterTx? || a.DeleteLapsedTx?) && a.agent == x then None
    else before
  }

  function RegistrationAfter(before: Option<Agent>, acts: seq<Action>, x: string): Option<Agent>
    decreases |acts|
  {
    if acts == [] then before else RegistrationAfter(RegistrationAfterStep(before, acts[0], x), acts[1..], x)
  }

  function RegistrationOf(agents: Agents, x: string): Option<Agent> {
    if x in agents then Some(agents[x]) else None
  }

  /** Over any run, the registration of an agent is what its own heartbeats, its own
      departures and the reaper's deletions of it make of it; no step about anyone else,
      and no other reaper, touches it. */
  lemma {:induction false} RegistrationIsItsOwn(w: World, acts: seq<Action>, x: string)
    requires Feasible(w, acts)
    ensures RegistrationOf(Run(w, acts).work.agents, x) == RegistrationAfter(RegistrationOf(w.work.agents, x), acts, x)
    decreases |acts|
  {
    if acts != [] {
      RegistrationStep(w, acts[0], x);
      RegistrationIsItsOwn(Next(w, acts[0]), acts[1..], x);
    }
  }

  lemma RegistrationStep(w: World, a: Action, x: string)
    requires Enabled(w, a)
    ensures RegistrationOf(Next(w, a).work.agents, x) == RegistrationAfterStep(RegistrationOf(w.work.agents, x), a, x)
  {
  }

  // ----- an agent that has stopped -----

  /** A commit that grants `agent` a lock. */
  predicate GrantsTo(c: Core.World, a: Core.Action, agent: string)
    requires Core.Enabled(c, a)
  {
    || ((a.FirstTx? || a.RetryTx?) && c.procs[a.p].call.agent == agent)
    || (a.BatchTx? && c.procs[a.p].agent == agent)
  }

  /** A step by which `agent` gets a lock, a task or a registration. */
  predicate TakenBy(w: World, a: Action, agent: string)
    requires Enabled(w, a)
  {
    match a
    case Lock(x) => GrantsTo(w.core, x, agent)
    case RegisterTx(actor, _, _) => actor == agent
    case Work(x) => x.ClaimTx? && x.agent == agent
    case _ => false
  }

  ghost predicate Silent(w: World, acts: seq<Action>, agent: string)
    requires Feasible(w, acts)
    decreases |acts|
  {
    acts != [] ==> !TakenBy(w, acts[0], agent) && Silent(Next(w, acts[0]), acts[1..], agent)
  }

  ghost predicate NoneHeldBy(t: Table, agent: string) {
    forall n | n in t :: t[n].agent != agent
  }

  ghost predicate HoldsNoLock(w: World, agent: string) {
    NoneHeldBy(w.core.table, agent)
  }

  ghost predicate HoldsNoClaim(w: World, agent: string) {
    forall id | id in w.work.rows && w.work.rows[id].state.Claimed? :: w.work.rows[id].leaseAgent != Some(agent)
  }

  lemma LockStepWithout(c: Core.World, a: Core.Action, agent: string)
    requires Core.Enabled(c, a) && !GrantsTo(c, a, agent) && NoneHeldBy(c.table, agent)
    ensures NoneHeldBy(Core.Next(c, a).table, agent)
  {
    if !Core.Commits(a) { Core.OnlyCommitsTouchTheTable(c, a); }
  }

  /** Steps that do not touch the locks. */
  lemma OtherStepWithout(w: World, a: Action, agent: string)
    requires Enabled(w, a) && !TakenBy(w, a, agent)
    ensures agent !in w.work.agents ==> agent !in Next(w, a).work.agents
    ensures HoldsNoClaim(w, agent) ==> HoldsNoClaim(Next(w, a), agent)
    ensures !a.Lock? && !a.ReleaseLapsedTx? ==> Next(w, a).core == w.core
  {
  }

  lemma StepWithout(w: World, a: Action, agent: string)
    requires Enabled(w, a) && !TakenBy(w, a, agent)
    ensures HoldsNoLock(w, agent) ==> HoldsNoLock(Next(w, a), agent)
    ensures agent !in w.work.agents ==> agent !in Next(w, a).work.agents
    ensures HoldsNoClaim(w, agent) ==> HoldsNoClaim(Next(w, a), agent)
  {
    OtherStepWithout(w, a, agent);
    if HoldsNoLock(w, agent) {
      if a.Lock? {
        LockStepWithout(w.core, a.a, agent);
      } else if a.ReleaseLapsedTx? {
        LockStepWithout(w.core, Core.ReleaseAgentTx(a.p, a.agent), agent);
      }
    }
  }

  lemma {:induction false} RunWithout(w: World, acts: seq<Action>, agent: string)
    requires Feasible(w, acts) && Silent(w, acts, agent)
    ensures HoldsNoLock(w, agent) ==> HoldsNoLock(Run(w, acts), agent)
    ensures agent !in w.work.agents ==> agent !in Run(w, acts).work.agents
    ensures HoldsNoClaim(w, agent) ==> HoldsNoClaim(Run(w, acts), agent)
    decreases |acts|
  {
    if acts != [] {
      StepWithout(w, acts[0], agent);
      RunWithout(Next(w, acts[0]), acts[1..], agent);
    }
  }

  /** The presence reaper has nothing left to do to the agent. */
  ghost predicate NotDoomed(w: World, agent: string) {
    agent !in w.toRelease && !BeingReleased(w, agent)
  }

  /** How far the presence reaper has come with a silent agent it has selected. */
  ghost predicate UnderWay(w: World, agent: string) {
    agent in w.toRelease || (HoldsNoLock(w, agent) && (BeingReleased(w, agent) || agent !in w.work.agents))
  }

  lemma UnderWayStep(w: World, a: Action, agent: string)
    requires Enabled(w, a) && !TakenBy(w, a, agent) && UnderWay(w, agent)
    ensures UnderWay(Next(w, a), agent)
  {
    StepWithout(w, a, agent);
    if a.ReleaseLapsedTx? && a.agent == agent {
      assert HoldsNoLock(Next(w, a), agent);
    }
  }

  lemma {:induction false} SelectedIsReaped(w: World, acts: seq<Action>, agent: string)
    requires Feasible(w, acts) && Silent(w, acts, agent) && UnderWay(w, agent)
    ensures UnderWay(Run(w, acts), agent)
    decreases |acts|
  {
    if acts != [] {
      UnderWayStep(w, acts[0], agent);
      SelectedIsReaped(Next(w, acts[0]), acts[1..], agent);
    }
  }

  // ----- the lines behind its locks -----

  /** The run releases the locks of `agent`, and after that serves the head of every line
      behind them: finds the line empty or sends its head a signal. */
  ghost predicate LinesServed(w: World, acts: seq<Action>, agent: string)
    requires Feasible(w, acts)
    decreases |acts|
  {
    && acts != []
    && (|| (acts[0].ReleaseLapsedTx? && acts[0].agent == agent && HeadsServed(w, acts))
        || LinesServed(Next(w, acts[0]), acts[1..], agent))
  }

  ghost predicate HeadsServed(w: World, acts: seq<Action>)
    requires Feasible(w, acts) && acts != [] && acts[0].ReleaseLapsedTx?
  {
    var w', steps := Next(w, acts[0]), LockSteps(acts[1..]);
    && Core.Feasible(w'.core, steps)
    && forall name | name in HeldBy(w.core.table, acts[0].agent) ::
         Wakeups.HeadServed(w'.core, steps, acts[0].p, name)
  }

  lemma {:induction false} DoneStaysDone(c: Core.World, steps: seq<Core.Action>, p: nat)
    requires Core.Feasible(c, steps) && p in c.procs && c.procs[p] == Core.Waking({})
    ensures p in Core.Run(c, steps).procs && Core.Run(c, steps).procs[p] == Core.Waking({})
    decreases |steps|
  {
    if steps != [] {
      if steps[0].Tick? || steps[0].p != p { Core.OthersUntouched(c, steps[0], p); }
      DoneStaysDone(Core.Next(c, steps[0]), steps[1..], p);
    }
  }

  /** The reaper is not through with an agent before its releaser is done. */
  lemma {:induction false} ReleaserFinishes(w: World, acts: seq<Action>, agent: string, p: nat)
    requires Feasible(w, acts) && w.doing == Some(Releasing(agent, p)) && NotDoomed(Run(w, acts), agent)
    ensures p in Run(w, acts).core.procs && Run(w, acts).core.procs[p] == Core.Waking({})
    decreases |acts|
  {
    var w' := Next(w, acts[0]);
    if acts[0] == DeleteLapsedTx(agent) {
      RunsTheLockProtocol(w', acts[1..]);
      DoneStaysDone(w'.core, LockSteps(acts[1..]), p);
    } else {
      ReleaserFinishes(w', acts[1..], agent, p);
    }
  }

  lemma {:induction false} SelectedLinesServed(w: World, acts: seq<Action>, agent: string)
    requires Feasible(w, acts) && agent in w.toRelease && NotDoomed(Run(w, acts), agent)
    ensures LinesServed(w, acts, agent)
    decreases |acts|
  {
    var w', rest := Next(w, acts[0]), acts[1..];
    if acts[0].ReleaseLapsedTx? && acts[0].agent == agent {
      var p := acts[0].p;
      ReleaserFinishes(w', rest, agent, p);
      RunsTheLockProtocol(w', rest);
      forall name | name in HeldBy(w.core.table, agent)
        ensures Wakeups.HeadServed(w'.core, LockSteps(rest), p, name)
      {
        Wakeups.ReleaserServesEveryHead(w'.core, LockSteps(rest), p, name);
      }
    } else {
      SelectedLinesServed(w', rest, agent);
    }
  }

  /** Crash recovery. The registration of an agent has lapsed at the second the presence
      reaper reads, and the agent takes no further step. Whatever everyone else does in
      between, once the reaper's pass is through with it, it holds no lock and has no
      registration, and the head of every line behind its locks has been served; once
      the task reaper has run after that, it has no claim either; and none of this ever
      comes back. */
  lemma CrashRecovery(
      w: World, readAt: int, acts: seq<Action>, tasksReadAt: int, later: seq<Action>, agent: string)
    requires Reachable(w) && Enabled(w, SelectLapsed(readAt))
    requires agent in w.work.agents && w.work.agents[agent].expiresAt <= readAt
    requires Feasible(Next(w, SelectLapsed(readAt)), acts) && Silent(Next(w, SelectLapsed(readAt)), acts, agent)
    requires NotDoomed(Run(Next(w, SelectLapsed(readAt)), acts), agent)
    requires Enabled(Run(Next(w, SelectLapsed(readAt)), acts), Work(Queue.ReapTx(tasksReadAt)))
    requires Feasible(Next(Run(Next(w, SelectLapsed(readAt)), acts), Work(Queue.ReapTx(tasksReadAt))), later)
    requires Silent(Next(Run(Next(w, SelectLapsed(readAt)), acts), Work(Queue.ReapTx(tasksReadAt))), later, agent)
    ensures var mid := Run(Next(w, SelectLapsed(readAt)), acts);
            var end := Run(Next(mid, Work(Queue.ReapTx(tasksReadAt))), later);
            && HoldsNoLock(mid, agent) && agent !in mid.work.agents
            && HoldsNoLock(end, agent) && agent !in end.work.agents && HoldsNoClaim(end, agent)
    ensures LinesServed(Next(w, SelectLapsed(readAt)), acts, agent)
  {
    var w1 := Next(w, SelectLapsed(readAt));
    ReachableKept(w);
    StepKeeps(w, SelectLapsed(readAt));
    SelectedIsReaped(w1, acts, agent);
    SelectedLinesServed(w1, acts, agent);
    RunKeeps(w1, acts);
    var mid := Run(w1, acts);
    StepWithout(mid, Work(Queue.ReapTx(tasksReadAt)), agent);
    AbsentLosesClaims(mid, tasksReadAt, agent);
    RunWithout(Next(mid, Work(Queue.ReapTx(tasksReadAt))), later, agent);
  }

  lemma AbsentLosesClaims(w: World, readAt: int, agent: string)
    requires Queue.Sound(w.work) && agent !in w.work.agents && Enabled(w, Work(Queue.ReapTx(readAt)))
    ensures HoldsNoClaim(Next(w, Work(Queue.ReapTx(readAt))), agent)
  {
  }

  // ----- an agent that heartbeats in time -----

  predicate ByReaper(a: Action) {
    (a.Lock? && a.a.PurgeTx?) || (a.Work? && a.t.ReapTx?) || a.SelectLapsed? || a.ReleaseLapsedTx? || a.DeleteLapsedTx?
  }

  /** The agent has not let a registration lapse; it may have none. */
  ghost predicate NotLapsed(w: World, agent: string) {
    agent in w.work.agents ==> w.work.agents[agent].expiresAt > w.core.clock
  }

  /** So it is now and in every later world of the run. */
  ghost predicate NeverLapses(w: World, acts: seq<Action>, agent: string)
    requires Feasible(w, acts)
    decreases |acts|
  {
    NotLapsed(w, agent) && (acts != [] ==> NeverLapses(Next(w, acts[0]), acts[1..], agent))
  }

  /** A reaper's step takes from `agent` no registration, no unexpired lock and, if it is
      registered, no claim with an unexpired lease. */
  ghost predicate Spares(w: World, w': World, agent: string) {
    && (agent in w.work.agents ==> agent in w'.work.agents && w'.work.agents[agent] == w.work.agents[agent])
    && (forall n | LiveAt(w.core.table, n, w.core.clock) && w.core.table[n].agent == agent ::
          n in w'.core.table && w'.core.table[n] == w.core.table[n])
    && (agent in w.work.agents ==>
        forall id | id in w.work.rows && w.work.rows[id].state.Claimed? && w.work.rows[id].leaseAgent == Some(agent)
                    && w.work.rows[id].leaseExpiresAt.Some? && w.work.rows[id].leaseExpiresAt.value > w.core.clock ::
          id in w'.work.rows && w'.work.rows[id] == w.work.rows[id])
  }

  lemma PurgeSpares(w: World, a: Action, agent: string)
    requires Enabled(w, a) && a.Lock? && a.a.PurgeTx? && Kept(w)
    ensures Spares(w, Next(w, a), agent)
  {
    assert Safety.CallSound(w.core.procs[a.a.p], w.core.clock);
  }

  lemma TaskReapSpares(w: World, a: Action, agent: string)
    requires Enabled(w, a) && a.Work? && a.t.ReapTx? && NotLapsed(w, agent) && Kept(w)
    ensures Spares(w, Next(w, a), agent)
  {
  }

  lemma ReaperSpares(w: World, a: Action, agent: string)
    requires Enabled(w, a) && ByReaper(a) && NotDoomed(w, agent) && NotLapsed(w, agent) && Kept(w)
    ensures Spares(w, Next(w, a), agent)
  {
    if a.Lock? {
      PurgeSpares(w, a, agent);
    } else if a.Work? {
      TaskReapSpares(w, a, agent);
    }
  }

  lemma StepKeepsUndoomed(w: World, a: Action, agent: string)
    requires Enabled(w, a) && NotDoomed(w, agent) && NotLapsed(w, agent)
    ensures NotDoomed(Next(w, a), agent)
  {
  }

  lemma {:induction false} RunJoin(w: World, front: seq<Action>, back: seq<Action>)
    requires Feasible(w, front + back)
    ensures Feasible(w, front) && Feasible(Run(w, front), back)
    ensures Run(w, front + back) == Run(Run(w, front), back)
    decreases |front|
  {
    if front == [] {
      assert front + back == back;
    } else {
      assert (front + back)[1..] == front[1..] + back;
      RunJoin(Next(w, front[0]), front[1..], back);
    }
  }

  /** In any run in which an agent never lets a registration lapse, no step of any
      reaper, however it interleaves, takes anything live away from it. */
  lemma TimelyAgentIsSpared(w: World, acts: seq<Action>, agent: string, i: nat)
    requires Reachable(w) && Feasible(w, acts) && NeverLapses(w, acts, agent) && NotDoomed(w, agent)
    requires i < |acts| && ByReaper(acts[i])
    ensures Feasible(w, acts[..i]) && Feasible(w, acts[..i + 1])
    ensures Spares(Run(w, acts[..i]), Run(w, acts[..i + 1]), agent)
  {
    ReachableKept(w);
    TimelySpared(w, acts, agent, i);
  }

  lemma {:induction false} TimelySpared(w: World, acts: seq<Action>, agent: string, i: nat)
    requires Kept(w) && Feasible(w, acts) && NeverLapses(w, acts, agent) && NotDoomed(w, agent)
    requires i < |acts| && ByReaper(acts[i])
    ensures Feasible(w, acts[..i]) && Feasible(w, acts[..i + 1])
    ensures Spares(Run(w, acts[..i]), Run(w, acts[..i + 1]), agent)
    decreases |acts|
  {
    assert acts == acts[..i] + acts[i..] && acts == acts[..i + 1] + acts[i + 1..];
    RunJoin(w, acts[..i], acts[i..]);
    RunJoin(w, acts[..i + 1], acts[i + 1..]);
    if i == 0 {
      assert acts[..1][0] == acts[0] && acts[..1][1..] == [];
      ReaperSpares(w, acts[0], agent);
    } else {
      StepKeepsUndoomed(w, acts[0], agent);
      StepKeeps(w, acts[0]);
      TimelySpared(Next(w, acts[0]), acts[1..], agent, i - 1);
      assert acts[..i][0] == acts[0] && acts[..i][1..] == acts[1..][..i - 1];
      assert acts[..i + 1][0] == acts[0] && acts[..i + 1][1..] == acts[1..][..i];
    }
  }

  // ----- the gap between selecting and deleting -----

  /** The reaper does not finish with an agent without deleting it. */
  lemma {:induction false} DoomedIsDeleted(w: World, acts: seq<Action>, agent: string)
    requires Feasible(w, acts) && !NotDoomed(w, agent) && NotDoomed(Run(w, acts), agent)
    ensures DeleteLapsedTx(agent) in acts
    decreases |acts|
  {
    if acts[0] != DeleteLapsedTx(agent) {
      DoomedStep(w, acts[0], agent);
      DoomedIsDeleted(Next(w, acts[0]), acts[1..], agent);
    }
  }

  lemma DoomedStep(w: World, a: Action, agent: string)
    requires Enabled(w, a) && !NotDoomed(w, agent) && a != DeleteLapsedTx(agent)
    ensures !NotDoomed(Next(w, a), agent)
  {
  }

  lemma {:induction false} UndoomedIsKept(w: World, acts: seq<Action>, agent: string)
    requires Feasible(w, acts) && NotDoomed(w, agent) && NeverLapses(w, acts, agent)
    ensures DeleteLapsedTx(agent) !in acts
    decreases |acts|
  {
    if acts != [] {
      StepKeepsUndoomed(w, acts[0], agent);
      UndoomedIsKept(Next(w, acts[0]), acts[1..], agent);
    }
  }

  /** Exactly which heartbeats are wiped. An agent registers and then never lets that
      registration lapse: by the time the reaper has nothing left to do to it, it has
      deleted it if and only if it was selected or being released when it registered. */
  lemma HeartbeatWipedExactly(w: World, agent: string, ttl: int, readAt: int, acts: seq<Action>)
    requires Enabled(w, RegisterTx(agent, ttl, readAt))
    requires Feasible(Next(w, RegisterTx(agent, ttl, readAt)), acts)
    requires NeverLapses(Next(w, RegisterTx(agent, ttl, readAt)), acts, agent)
    requires NotDoomed(Run(Next(w, RegisterTx(agent, ttl, readAt)), acts), agent)
    ensures DeleteLapsedTx(agent) in acts <==> agent in w.toRelease || BeingReleased(w, agent)
  {
    var w' := Next(w, RegisterTx(agent, ttl, readAt));
    if NotDoomed(w', agent) { UndoomedIsKept(w', acts, agent); } else { DoomedIsDeleted(w', acts, agent); }
  }

  /** The reaper does not look again before it deletes: an agent that lapsed, was
      selected and then registered anew loses the new registration at once, as soon as
      the releaser of its locks is done. */
  lemma LateHeartbeatIsWiped(w: World, readAt: int, agent: string, ttl: int, p: nat, wakes: seq<Core.Action>)
    requires agent in w.work.agents && w.work.agents[agent].expiresAt <= readAt <= w.core.clock && ttl > 0
    requires w.toRelease == {} && w.doing.None? && p !in w.core.procs
    requires Core.Feasible(Core.Next(w.core, Core.ReleaseAgentTx(p, agent)), wakes)
    requires p in Core.Run(Core.Next(w.core, Core.ReleaseAgentTx(p, agent)), wakes).procs
    requires Core.Run(Core.Next(w.core, Core.ReleaseAgentTx(p, agent)), wakes).procs[p] == Core.Waking({})
    ensures var beat := [SelectLapsed(readAt), RegisterTx(agent, ttl, w.core.clock)];
            && Feasible(w, beat) && Present(Run(w, beat).work.agents, agent, w.core.clock)
            && var w1 := Run(w, beat);
               && Enabled(w1, ReleaseLapsedTx(agent, p))
               && var w2 := Next(w1, ReleaseLapsedTx(agent, p));
                  && Feasible(w2, Lifted(wakes)) && Enabled(Run(w2, Lifted(wakes)), DeleteLapsedTx(agent))
                  && agent !in Next(Run(w2, Lifted(wakes)), DeleteLapsedTx(agent)).work.agents
  {
    var beat := [SelectLapsed(readAt), RegisterTx(agent, ttl, w.core.clock)];
    RunTwo(w, beat[0], beat[1]);
    var w2 := Next(Run(w, beat), ReleaseLapsedTx(agent, p));
    RunLifted(w2, wakes);
  }

  /** Steps of the lock protocol as steps of this machine. */
  function Lifted(steps: seq<Core.Action>): seq<Action> {
    if steps == [] then [] else [Lock(steps[0])] + Lifted(steps[1..])
  }

  lemma {:induction false} RunLifted(w: World, steps: seq<Core.Action>)
    requires Core.Feasible(w.core, steps)
    ensures Feasible(w, Lifted(steps))
    ensures var w' := Run(w, Lifted(steps));
            && w'.core == Core.Run(w.core, steps) && w'.work.agents == w.work.agents
            && w'.toRelease == w.toRelease && w'.doing == w.doing
    decreases |steps|
  {
    if steps != [] {
      RunLifted(Next(w, Lock(steps[0])), steps[1..]);
      assert Lifted(steps)[0] == Lock(steps[0]) && Lifted(steps)[1..] == Lifted(steps[1..]);
    }
  }

  lemma RunTwo(w: World, a: Action, b: Action)
    requires Enabled(w, a) && Enabled(Next(w, a), b)
    ensures Feasible(w, [a, b]) && Run(w, [a, b]) == Next(Next(w, a), b)
  {
    assert [a, b][1..] == [b] && [b][1..] == [];
    var w2 := Next(Next(w, a), b);
    assert Feasible(w2, []) && Run(w2, []) == w2;
    assert Feasible(Next(w, a), [b]) && Run(Next(w, a), [b]) == w2;
  }
}
