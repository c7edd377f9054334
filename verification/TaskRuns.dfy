/** Runs of the task queue: every transaction of every caller and of the reaper, in any
    order, with registrations changing at will. Each task carries its own history. */
module TaskRuns {
  import opened Base
  import opened Registry
  import opened Tasks

  /** What happened to one task, in order. */
  datatype Event =
    | Took(token: Token, agent: string)
    | Returned
    | Ended(token: Token)

  datatype World = World(
    clock: int,
    rows: Rows,
    nextId: nat,
    agents: Agents,
    minted: set<Token>,
    history: map<nat, seq<Event>>)

  function Start(clock: int): World {
    World(clock, map[], 1, map[], {}, map[])
  }

  datatype Action =
    | Tick(passed: nat)
    | SetAgents(agents: Agents)   // any registrations, heartbeats and departures
    | PushTx(queue: string, payload: string, author: string, priority: int, now: int)
    | ClaimTx(queue: string, id: nat, agent: string, token: Token, seconds: int, now: int)
    | CompleteTx(id: nat, token: Token)
    | FailTx(id: nat, token: Token, requeue: bool)
    | ExtendTx(id: nat, token: Token, seconds: int, now: int)
    | ReapTx(now: int)

  /** The clock is read before the transaction, so `now` may lag behind it. */
  ghost predicate Enabled(w: World, a: Action) {
    match a
    case Tick(_) => true
    case SetAgents(_) => true
    case PushTx(_, _, _, _, now) => now <= w.clock
    case ClaimTx(queue, id, _, token, _, now) =>
      IsNext(w.rows, queue, id) && token != "" && token !in w.minted && now <= w.clock
    case CompleteTx(_, _) => true
    case FailTx(_, _, _) => true
    case ExtendTx(_, _, _, now) => now <= w.clock
    case ReapTx(now) => now <= w.clock
  }

  function LeaseSeconds(seconds: int): int {
    if seconds <= 0 then DEFAULT_LEASE_SECONDS else seconds
  }

  function Past(w: World, id: nat): seq<Event> {
    if id in w.history then w.history[id] else []
  }

  function Note(w: World, id: nat, e: Event): map<nat, seq<Event>> {
    w.history[id := Past(w, id) + [e]]
  }

  function Next(w: World, a: Action): World
    requires Enabled(w, a)
  {
    match a
    case Tick(passed) => w.(clock := w.clock + passed)
    case SetAgents(agents) => w.(agents := agents)
    case PushTx(queue, payload, author, priority, now) =>
      w.(rows := w.rows[w.nextId := NewTask(queue, payload, author, priority, now)], nextId := w.nextId + 1)
    case ClaimTx(_, id, agent, token, seconds, now) =>
      w.(rows := Claim(w.rows, id, agent, token, now + LeaseSeconds(seconds)),
         minted := w.minted + {token}, history := Note(w, id, Took(token, agent)))
    case CompleteTx(id, token) =>
      if HeldUnder(w.rows, id, token)
      then w.(rows := Finish(w.rows, id, token), history := Note(w, id, Ended(token))) else w
    case FailTx(id, token, requeue) =>
      if !HeldUnder(w.rows, id, token) then w
      else if requeue then w.(rows := Requeue(w.rows, id, token), history := Note(w, id, Returned))
      else w.(rows := Finish(w.rows, id, token), history := Note(w, id, Ended(token)))
    case ExtendTx(id, token, seconds, now) => w.(rows := Extend(w.rows, id, token, seconds, now))
    case ReapTx(now) =>
      w.(rows := Reap(w.rows, w.agents, now),
         history := w.history + map id | id in w.rows && Orphaned(w.rows[id], w.agents, now) ::
                                  Past(w, id) + [Returned])
  }

  ghost predicate Feasible(w: World, acts: seq<Action>)
    decreases |acts|
  {
    acts == [] || (Enabled(w, acts[0]) && Feasible(Next(w, acts[0]), acts[1..]))
  }

  ghost function Run(w: World, acts: seq<Action>): World
    requires Feasible(w, acts)
    decreases |acts|
  {
    if acts == [] then w else Run(Next(w, acts[0]), acts[1..])
  }

  ghost predicate Reachable(w: World) {
    exists clock: int, acts: seq<Action> :: Feasible(Start(clock), acts) && w == Run(Start(clock), acts)
  }

  // ----- the life of one task -----

  /** Where a task stands after its history. */
  datatype Standing = Waiting | Held(token: Token) | Over(token: Token) | Impossible

  ghost function After(s: Standing, e: Event): Standing {
    match (s, e)
    case (Waiting, Took(token, _)) => Held(token)
    case (Held(_), Returned) => Waiting
    case (Held(token), Ended(t)) => if t == token then Over(token) else Impossible
    case _ => Impossible
  }

  ghost function StandingOf(h: seq<Event>): Standing {
    if h == [] then Waiting else After(StandingOf(h[..|h| - 1]), h[|h| - 1])
  }

  lemma StandingAppend(h: seq<Event>, e: Event)
    ensures StandingOf(h + [e]) == After(StandingOf(h), e)
  {
    assert (h + [e])[..|h|] == h;
  }

  /** The row of a task says what its history says. */
  ghost predicate RowMatches(t: Task, h: seq<Event>) {
    match StandingOf(h)
    case Waiting => t.state.Pending?
    case Held(token) => t.state.Claimed? && t.leaseToken == Some(token)
    case Over(token) => t.state.Finished? && t.leaseToken == Some(token)
    case Impossible => false
  }

  /** One row is well kept: its id was given out, its lease columns are null exactly
      while it is pending, it agrees with its history, and its lease token was drawn. */
  ghost predicate KeptWell(w: World, id: nat)
    requires id in w.rows
  {
    var t := w.rows[id];
    && 0 < id < w.nextId
    && (if t.state.Pending? then Unleased(t) else Leased(t))
    && RowMatches(t, Past(w, id))
    && (t.leaseToken.Some? ==> t.leaseToken.value in w.minted && t.leaseToken.value != "")
  }

  /** No two tasks carry the same lease token. */
  ghost predicate LeasesApart(w: World) {
    forall i, j | i in w.rows && j in w.rows && i != j && w.rows[i].leaseToken.Some? ::
      w.rows[i].leaseToken != w.rows[j].leaseToken
  }

  ghost predicate Sound(w: World) {
    && w.nextId > 0
    && w.history.Keys <= w.rows.Keys
    && (forall id | id in w.rows :: KeptWell(w, id))
    && LeasesApart(w)
  }

  /** What no step ever changes. */
  ghost predicate SameTask(a: Task, b: Task) {
    && a.queue == b.queue && a.payload == b.payload && a.author == b.author
    && a.priority == b.priority && a.createdAt == b.createdAt
  }

  /** The task is still there with the same content and its past; once finished it is frozen. */
  ghost predicate Inherited(w: World, w': World, id: nat)
    requires id in w.rows
  {
    && id in w'.rows && SameTask(w.rows[id], w'.rows[id])
    && (w.rows[id].state.Finished? ==> w'.rows[id] == w.rows[id])
    && Past(w, id) <= Past(w', id)
  }

  /** Tasks never vanish, never change their content, and new ones get ever larger ids. */
  ghost predicate Conserved(w: World, w': World) {
    && w.nextId <= w'.nextId
    && (forall id | id in w'.rows :: id in w.rows || id >= w.nextId)
    && (forall id | id in w.rows :: Inherited(w, w', id))
  }

  /** The token was drawn and holds no claim. */
  ghost predicate Stale(w: World, token: Token) {
    token in w.minted && forall id | id in w.rows && w.rows[id].state.Claimed? :: w.rows[id].leaseToken != Some(token)
  }

  /** One row, one event: what the claim, the two ends and the reaper do to a task. */
  lemma RowStep(w: World, w': World, id: nat, e: Event)
    requires id in w.rows && KeptWell(w, id) && id in w'.rows && w'.nextId == w.nextId && w.minted <= w'.minted
    requires Past(w', id) == Past(w, id) + [e]
    requires match e
             case Took(token, agent) =>
               && w.rows[id].state.Pending? && token in w'.minted && token != ""
               && exists x: int :: w'.rows[id] == Lease(w.rows[id], agent, token, x)
             case Returned => w.rows[id].state.Claimed? && w'.rows[id] == Back(w.rows[id])
             case Ended(token) => HeldUnder(w.rows, id, token) && w'.rows[id] == w.rows[id].(state := Finished)
    ensures KeptWell(w', id) && Inherited(w, w', id)
  {
    StandingAppend(Past(w, id), e);
  }

  lemma RowUntouched(w: World, w': World, id: nat)
    requires id in w.rows && KeptWell(w, id) && id in w'.rows && w'.nextId >= w.nextId && w.minted <= w'.minted
    requires Past(w', id) == Past(w, id)
    requires || w'.rows[id] == w.rows[id]
             || (&& w.rows[id].state.Claimed?
                 && exists x: int :: w'.rows[id] == w.rows[id].(leaseExpiresAt := Some(x)))
    ensures KeptWell(w', id) && Inherited(w, w', id)
  {
  }

  lemma EndKeepsRow(w: World, a: Action, id: nat)
    requires Sound(w) && Enabled(w, a) && (a.CompleteTx? || a.FailTx?) && id in w.rows
    ensures id in Next(w, a).rows && KeptWell(Next(w, a), id) && Inherited(w, Next(w, a), id)
  {
    assert KeptWell(w, id);
    if a.id == id && HeldUnder(w.rows, id, a.token) {
      RowStep(w, Next(w, a), id, if a.FailTx? && a.requeue then Returned else Ended(a.token));
    } else {
      RowUntouched(w, Next(w, a), id);
    }
  }

  lemma ReapKeepsRow(w: World, a: Action, id: nat)
    requires Sound(w) && Enabled(w, a) && a.ReapTx? && id in w.rows
    ensures id in Next(w, a).rows && KeptWell(Next(w, a), id) && Inherited(w, Next(w, a), id)
  {
    assert KeptWell(w, id);
    if Orphaned(w.rows[id], w.agents, a.now) {
      RowStep(w, Next(w, a), id, Returned);
    } else {
      RowUntouched(w, Next(w, a), id);
    }
  }

  lemma StepKeepsRow(w: World, a: Action, id: nat)
    requires Sound(w) && Enabled(w, a) && id in w.rows
    ensures id in Next(w, a).rows && KeptWell(Next(w, a), id) && Inherited(w, Next(w, a), id)
  {
    match a {
      case ClaimTx(_, i, agent, token, _, _) =>
        assert KeptWell(w, id);
        if i == id { RowStep(w, Next(w, a), id, Took(token, agent)); } else { RowUntouched(w, Next(w, a), id); }
      case CompleteTx(_, _) => EndKeepsRow(w, a, id);
      case FailTx(_, _, _) => EndKeepsRow(w, a, id);
      case ReapTx(_) => ReapKeepsRow(w, a, id);
      case _ =>
        assert KeptWell(w, id);
        RowUntouched(w, Next(w, a), id);
    }
  }

  lemma StepKeepsApart(w: World, a: Action)
    requires Sound(w) && Enabled(w, a)
    ensures LeasesApart(Next(w, a))
  {
    if a.ClaimTx? {
      forall i | i in w.rows ensures w.rows[i].leaseToken != Some(a.token) { assert KeptWell(w, i); }
    }
  }

  lemma StepKeepsSound(w: World, a: Action)
    requires Sound(w) && Enabled(w, a)
    ensures Sound(Next(w, a)) && Conserved(w, Next(w, a))
  {
    var w' := Next(w, a);
    forall id | id in w.rows ensures id in w'.rows && KeptWell(w', id) && Inherited(w, w', id) {
      StepKeepsRow(w, a, id);
    }
    StepKeepsApart(w, a);
    StepAddsRows(w, a);
  }

  /** Only a push adds a row, under the next id. */
  lemma StepAddsRows(w: World, a: Action)
    requires Sound(w) && Enabled(w, a)
    ensures var w' := Next(w, a);
            && w'.history.Keys <= w'.rows.Keys && w.nextId <= w'.nextId
            && (forall id | id in w'.rows && id !in w.rows :: id == w.nextId && KeptWell(w', id))
  {
    assert forall id | id in w.rows :: KeptWell(w, id) ==> id < w.nextId;
  }

  lemma StepKeepsStale(w: World, a: Action, token: Token)
    requires Sound(w) && Enabled(w, a) && Stale(w, token)
    ensures Stale(Next(w, a), token)
  {
  }

  lemma ConservedTransitive(u: World, v: World, w: World)
    requires Conserved(u, v) && Conserved(v, w)
    ensures Conserved(u, w)
  {
    forall id | id in u.rows ensures Inherited(u, w, id) {
      assert Inherited(u, v, id) && Inherited(v, w, id);
    }
  }

  lemma {:induction false} RunKeepsSound(w: World, acts: seq<Action>)
    requires Sound(w) && Feasible(w, acts)
    ensures Sound(Run(w, acts)) && Conserved(w, Run(w, acts))
    ensures forall token | Stale(w, token) :: Stale(Run(w, acts), token)
    decreases |acts|
  {
    if acts != [] {
      var w' := Next(w, acts[0]);
      StepKeepsSound(w, acts[0]);
      forall token | Stale(w, token) ensures Stale(w', token) { StepKeepsStale(w, acts[0], token); }
      RunKeepsSound(w', acts[1..]);
      ConservedTransitive(w, w', Run(w, acts));
    }
  }

  lemma ReachableSound(w: World)
    requires Reachable(w)
    ensures Sound(w)
  {
    var clock: int, acts: seq<Action> :| Feasible(Start(clock), acts) && w == Run(Start(clock), acts);
    RunKeepsSound(Start(clock), acts);
  }

  // ----- what a history can look like -----

  lemma {:induction false} PrefixPossible(h: seq<Event>, k: nat)
    requires StandingOf(h) != Impossible && k <= |h|
    ensures StandingOf(h[..k]) != Impossible
    decreases |h|
  {
    if k == |h| {
      assert h[..k] == h;
    } else {
      PrefixPossible(h[..|h| - 1], k);
      assert h[..|h| - 1][..k] == h[..k];
    }
  }

  lemma StandingAfter(h: seq<Event>, k: nat)
    requires StandingOf(h) != Impossible && k < |h|
    ensures StandingOf(h[..k + 1]) == After(StandingOf(h[..k]), h[k]) != Impossible
  {
    PrefixPossible(h, k + 1);
    assert h[..k + 1][..k] == h[..k];
  }

  /** Two claims of one task are separated by its return to the pool. */
  lemma ClaimsSeparatedByReturn(w: World, id: nat, i: nat, j: nat)
    requires Reachable(w) && id in w.rows
    requires i < j < |Past(w, id)| && Past(w, id)[i].Took? && Past(w, id)[j].Took?
    ensures exists k :: i < k < j && Past(w, id)[k].Returned?
  {
    ReachableSound(w);
    assert KeptWell(w, id);
    var h := Past(w, id);
    StandingAfter(h, i);
    StandingAfter(h, i + 1);
    if h[i + 1].Ended? && i + 2 < |h| { StandingAfter(h, i + 2); }
    assert h[i + 1].Returned?;
  }

  /** A task is finished at most once, as the last thing that happens to it, and by
      the token of the claim just before. */
  lemma FinishedOnceByLatestClaim(w: World, id: nat, k: nat)
    requires Reachable(w) && id in w.rows && k < |Past(w, id)| && Past(w, id)[k].Ended?
    ensures k == |Past(w, id)| - 1 && k > 0
    ensures Past(w, id)[k - 1].Took? && Past(w, id)[k - 1].token == Past(w, id)[k].token
    ensures w.rows[id].state.Finished?
  {
    ReachableSound(w);
    assert KeptWell(w, id);
    var h := Past(w, id);
    StandingAfter(h, k);
    if k + 1 < |h| { StandingAfter(h, k + 1); }
    if k > 0 { StandingAfter(h, k - 1); }
    assert h[..|h|] == h;
  }

  /** A finished task stays exactly as it is, and every task keeps its content and id,
      in every continuation. */
  lemma TasksConserved(w: World, acts: seq<Action>, id: nat)
    requires Reachable(w) && Feasible(w, acts) && id in w.rows
    ensures id in Run(w, acts).rows && SameTask(w.rows[id], Run(w, acts).rows[id])
    ensures w.rows[id].state.Finished? ==> Run(w, acts).rows[id] == w.rows[id]
    ensures forall later | later in Run(w, acts).rows && later !in w.rows :: later > id
  {
    ReachableSound(w);
    RunKeepsSound(w, acts);
    assert Inherited(w, Run(w, acts), id);
    assert KeptWell(w, id);
  }

  /** A pushed task carries what was pushed through every continuation, whoever claims,
      returns or finishes it, and it starts out pending in its queue. */
  lemma PushedIsKept(
      w: World, queue: string, payload: string, author: string, priority: int, now: int, acts: seq<Action>)
    requires Reachable(w) && Enabled(w, PushTx(queue, payload, author, priority, now))
    requires Feasible(Next(w, PushTx(queue, payload, author, priority, now)), acts)
    ensures var w', id := Next(w, PushTx(queue, payload, author, priority, now)), w.nextId;
            && id !in w.rows && Waits(w'.rows, queue, id)
            && (forall j | j in w.rows :: j < id && w'.rows[j] == w.rows[j])
            && var rows := Run(w', acts).rows;
               && id in rows && rows[id].queue == queue && rows[id].payload == payload
               && rows[id].author == author && rows[id].priority == priority && rows[id].createdAt == now
  {
    var a := PushTx(queue, payload, author, priority, now);
    ReachableSound(w);
    forall j | j in w.rows ensures j < w.nextId { assert KeptWell(w, j); }
    StepKeepsSound(w, a);
    RunKeepsSound(Next(w, a), acts);
    assert Inherited(Next(w, a), Run(Next(w, a), acts), w.nextId);
  }

  /** The row of a task after a step: what each transaction does to its columns. */
  ghost function RowThen(w: World, a: Action, id: nat): Task
    requires id in w.rows && (w.rows[id].state.Claimed? ==> Leased(w.rows[id]))
  {
    var t := w.rows[id];
    var pooled := t.(state := Pending, leaseAgent := None, leaseToken := None, leaseExpiresAt := None);
    var held := t.state.Claimed?;
    if a.ClaimTx? && a.id == id then
      t.(state := Claimed, leaseAgent := Some(a.agent), leaseToken := Some(a.token),
         leaseExpiresAt := Some(a.now + if a.seconds <= 0 then 120 else a.seconds))
    else if (a.CompleteTx? || a.FailTx?) && a.id == id && held && t.leaseToken.value == a.token then
      if a.FailTx? && a.requeue then pooled else t.(state := Finished)
    else if a.ExtendTx? && a.id == id && held && t.leaseToken.value == a.token
            && a.seconds > 0 && a.now < t.leaseExpiresAt.value then
      t.(leaseExpiresAt := Some(a.now + a.seconds))
    else if a.ReapTx? && held
            && (|| t.leaseExpiresAt.value <= a.now
                || t.leaseAgent.value !in w.agents
                || w.agents[t.leaseAgent.value].expiresAt <= a.now) then pooled
    else t
  }

  lemma EndedRow(w: World, a: Action, id: nat)
    requires Enabled(w, a) && (a.CompleteTx? || a.FailTx?) && id in w.rows && KeptWell(w, id)
    ensures id in Next(w, a).rows && Next(w, a).rows[id] == RowThen(w, a, id)
  {
  }

  lemma ReapedRow(w: World, a: Action, id: nat)
    requires Enabled(w, a) && a.ReapTx? && id in w.rows && KeptWell(w, id)
    ensures id in Next(w, a).rows && Next(w, a).rows[id] == RowThen(w, a, id)
  {
  }

  /** The whole effect of each transaction on the row of a task, on its columns. */
  lemma RowAfterStep(w: World, a: Action, id: nat)
    requires Reachable(w) && Enabled(w, a) && id in w.rows
    ensures w.rows[id].state.Claimed? ==> Leased(w.rows[id])
    ensures id in Next(w, a).rows && Next(w, a).rows[id] == RowThen(w, a, id)
  {
    ReachableSound(w);
    assert KeptWell(w, id);
    if a.CompleteTx? || a.FailTx? {
      EndedRow(w, a, id);
    } else if a.ReapTx? {
      ReapedRow(w, a, id);
    }
  }

  // ----- leases -----

  ghost predicate Issued(w: World, id: nat, token: Token) {
    exists i :: 0 <= i < |Past(w, id)| && Past(w, id)[i].Took? && Past(w, id)[i].token == token
  }

  /** Every lease token ever given out was drawn, and for one task only. */
  ghost predicate IssuedOnce(w: World) {
    && (forall id, token :: Issued(w, id, token) ==> token in w.minted && token != "")
    && (forall i, j, token :: Issued(w, i, token) && Issued(w, j, token) ==> i == j)
  }

  lemma IssuedStep(w: World, a: Action, id: nat, token: Token)
    requires Enabled(w, a)
    ensures Issued(Next(w, a), id, token) <==> Issued(w, id, token) || (a.ClaimTx? && a.id == id && a.token == token)
  {
    var h, h' := Past(w, id), Past(Next(w, a), id);
    assert h <= h' && |h'| <= |h| + 1;
    assert forall i :: 0 <= i < |h| ==> h'[i] == h[i];
    if Issued(Next(w, a), id, token) {
      var i :| 0 <= i < |h'| && h'[i].Took? && h'[i].token == token;
      if i < |h| { assert h[i] == h'[i]; }
    }
    if a.ClaimTx? && a.id == id && a.token == token { assert h'[|h|] == Took(token, a.agent); }
  }

  lemma {:induction false} RunKeepsIssued(w: World, acts: seq<Action>)
    requires IssuedOnce(w) && Feasible(w, acts)
    ensures IssuedOnce(Run(w, acts))
    decreases |acts|
  {
    if acts != [] {
      var w' := Next(w, acts[0]);
      forall id, token
        ensures Issued(w', id, token)
            <==> Issued(w, id, token) || (acts[0].ClaimTx? && acts[0].id == id && acts[0].token == token)
      {
        IssuedStep(w, acts[0], id, token);
      }
      RunKeepsIssued(w', acts[1..]);
    }
  }

  lemma {:induction false} HeldWasTaken(h: seq<Event>, token: Token)
    requires StandingOf(h) == Held(token)
    ensures h != [] && h[|h| - 1].Took? && h[|h| - 1].token == token
  {
  }

  /** A lease token that no longer holds the claim it was given for is inert: in every
      continuation no completion, failure or renewal with it, on any task, succeeds
      or changes a row. */
  lemma StaleLeaseInert(w: World, id: nat, token: Token, acts: seq<Action>, any: nat, seconds: int, now: int)
    requires Reachable(w) && Issued(w, id, token) && !HeldUnder(w.rows, id, token)
    requires Feasible(w, acts)
    ensures var rows := Run(w, acts).rows;
            && !HeldUnder(rows, any, token)
            && Finish(rows, any, token) == rows && Requeue(rows, any, token) == rows
            && Extend(rows, any, token, seconds, now) == rows
  {
    var clock: int, past: seq<Action> :| Feasible(Start(clock), past) && w == Run(Start(clock), past);
    RunKeepsSound(Start(clock), past);
    RunKeepsIssued(Start(clock), past);
    forall other | other in w.rows && w.rows[other].state.Claimed? ensures w.rows[other].leaseToken != Some(token) {
      assert KeptWell(w, other);
      var h := Past(w, other);
      if StandingOf(h) == Held(token) {
        HeldWasTaken(h, token);
        assert Issued(w, other, token);
      }
    }
    assert Stale(w, token);
    RunKeepsSound(w, acts);
  }

  /** A lapsed lease is never revived: from a second at which it has run out, renewals
      that read that second or a later one leave the row as it is for as long as the
      claim lasts. */
  lemma {:induction false} LapsedLeaseStaysLapsed(w: World, acts: seq<Action>, id: nat, token: Token, since: int)
    requires Sound(w) && Feasible(w, acts)
    requires HeldUnder(w.rows, id, token) && Leased(w.rows[id]) && w.rows[id].leaseExpiresAt.value <= since
    requires forall i :: 0 <= i < |acts| && acts[i].ExtendTx? ==> acts[i].now >= since
    ensures HeldUnder(Run(w, acts).rows, id, token) ==> Run(w, acts).rows[id] == w.rows[id]
    decreases |acts|
  {
    if acts != [] {
      var w' := Next(w, acts[0]);
      StepKeepsSound(w, acts[0]);
      assert KeptWell(w, id);
      LapsedLeaseStep(w, acts[0], id, token, since);
      if HeldUnder(w'.rows, id, token) {
        LapsedLeaseStaysLapsed(w', acts[1..], id, token, since);
      } else {
        RunKeepsSound(w', acts[1..]);
        assert Stale(Run(w', acts[1..]), token);
      }
    }
  }

  lemma LapsedLeaseStep(w: World, a: Action, id: nat, token: Token, since: int)
    requires Sound(w) && Enabled(w, a) && HeldUnder(w.rows, id, token) && token in w.minted
    requires Leased(w.rows[id]) && w.rows[id].leaseExpiresAt.value <= since
    requires a.ExtendTx? ==> a.now >= since
    ensures if HeldUnder(Next(w, a).rows, id, token)
            then Next(w, a).rows[id] == w.rows[id] else Stale(Next(w, a), token)
  {
    forall other | other in w.rows && other != id ensures w.rows[other].leaseToken != Some(token) {
      assert LeasesApart(w);
    }
  }

  /** The reaper returns exactly the claims whose lease has run out at its second, or
      whose claimant has no registration reaching past it (never having registered
      counts as absent); every other task is left as it is. */
  lemma ReapReturnsExactly(w: World, now: int, id: nat)
    requires Reachable(w) && id in w.rows
    ensures w.rows[id].state.Claimed? ==> Leased(w.rows[id])
    ensures var t, t' := w.rows[id], Reap(w.rows, w.agents, now)[id];
            if t.state.Claimed?
               && (|| t.leaseExpiresAt.value <= now
                   || t.leaseAgent.value !in w.agents
                   || w.agents[t.leaseAgent.value].expiresAt <= now)
            then t'.state.Pending? && Unleased(t') && SameTask(t, t')
            else t' == t
  {
    ReachableSound(w);
    assert KeptWell(w, id);
  }

  /** The steps that end a claim: its own completion or failure, and a reap that finds its
      lease run out or its claimant without a registration reaching past the second read. */
  predicate EndsClaim(w: World, a: Action, id: nat, token: Token)
    requires HeldUnder(w.rows, id, token) && Leased(w.rows[id])
  {
    || ((a.CompleteTx? || a.FailTx?) && a.id == id && a.token == token)
    || (&& a.ReapTx?
        && var t := w.rows[id];
           || t.leaseExpiresAt.value <= a.now
           || t.leaseAgent.value !in w.agents
           || w.agents[t.leaseAgent.value].expiresAt <= a.now)
  }

  /** No step of the run ends the claim. */
  ghost predicate Outlasts(w: World, acts: seq<Action>, id: nat, token: Token)
    requires Feasible(w, acts)
    decreases |acts|
  {
    acts != [] ==>
      && HeldUnder(w.rows, id, token) && Leased(w.rows[id]) && !EndsClaim(w, acts[0], id, token)
      && Outlasts(Next(w, acts[0]), acts[1..], id, token)
  }

  lemma EndClaimStep(w: World, a: Action, id: nat, token: Token)
    requires Sound(w) && Enabled(w, a) && HeldUnder(w.rows, id, token) && Leased(w.rows[id]) && token in w.minted
    requires a.CompleteTx? || a.FailTx?
    ensures if EndsClaim(w, a, id, token) then Stale(Next(w, a), token) else HeldUnder(Next(w, a).rows, id, token)
  {
    assert forall other | other in w.rows && other != id :: w.rows[other].leaseToken != Some(token);
  }

  lemma ReapClaimStep(w: World, a: Action, id: nat, token: Token)
    requires Sound(w) && Enabled(w, a) && HeldUnder(w.rows, id, token) && Leased(w.rows[id]) && token in w.minted
    requires a.ReapTx?
    ensures if EndsClaim(w, a, id, token) then Stale(Next(w, a), token) else HeldUnder(Next(w, a).rows, id, token)
  {
    assert forall other | other in w.rows && other != id :: w.rows[other].leaseToken != Some(token);
  }

  lemma ClaimStep(w: World, a: Action, id: nat, token: Token)
    requires Sound(w) && Enabled(w, a) && HeldUnder(w.rows, id, token) && Leased(w.rows[id]) && token in w.minted
    ensures if EndsClaim(w, a, id, token) then Stale(Next(w, a), token) else HeldUnder(Next(w, a).rows, id, token)
  {
    if a.CompleteTx? || a.FailTx? {
      EndClaimStep(w, a, id, token);
    } else if a.ReapTx? {
      ReapClaimStep(w, a, id, token);
    }
  }

  /** A claim is held after a run if and only if no step of the run ends it: claims by
      others, pushes, renewals and reaps within its lease and registration leave it. */
  lemma {:induction false} ClaimLastsExactly(w: World, acts: seq<Action>, id: nat, token: Token)
    requires Sound(w) && Feasible(w, acts) && HeldUnder(w.rows, id, token)
    ensures HeldUnder(Run(w, acts).rows, id, token) <==> Outlasts(w, acts, id, token)
    decreases |acts|
  {
    if acts != [] {
      assert KeptWell(w, id);
      ClaimStep(w, acts[0], id, token);
      StepKeepsSound(w, acts[0]);
      if EndsClaim(w, acts[0], id, token) {
        RunKeepsSound(Next(w, acts[0]), acts[1..]);
        assert Stale(Run(w, acts), token);
      } else {
        ClaimLastsExactly(Next(w, acts[0]), acts[1..], id, token);
      }
    }
  }
}
