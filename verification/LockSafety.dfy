/** Mutual exclusion over every interleaving, and the fate of stale tokens. */
module LockSafety {
  import opened Base
  import opened LockTable
  import opened LockProtocol

  /** The commit `v` granted `name`. */
  ghost predicate Grants(v: Version, name: string) {
    v.cause.GrantedTo? && name in v.cause.names
  }

  /** The commit `v` deleted a row of `name` on the authority of its token or its agent:
      a token shown must be the row's, and only without one does the agent's name count. */
  ghost predicate AuthorisedDelete(v: Version, name: string, row: Row) {
    && name !in v.table
    && match v.cause
       case ReleasedBy(n, token, agent) =>
         n == name && (if token != "" then token == row.token else agent != "" && agent == row.agent)
       case AgentGone(agent) => row.agent == agent
       case _ => false
  }

  /** The same grant: one token, one holder, one second of acquisition. */
  predicate SameTenure(a: Row, b: Row) {
    a.token == b.token && a.agent == b.agent && a.acquiredAt == b.acquiredAt
  }

  /** The commit `v` renewed the row `row` of `name` for someone who showed its token or,
      in the older form, the name of its holder. */
  ghost predicate AuthorisedRenewal(v: Version, name: string, row: Row) {
    && v.cause.Extended? && v.cause.name == name
    && match v.cause.who
       case Bearer(token) => token != "" && token == row.token
       case Holder(agent) => agent != "" && agent == row.agent
  }

  /** One commit after another treats `name` lawfully: it is granted only if free at the
      second the winner read, a row changes only by an authorised renewal read before its
      expiry, both set the expiry to that second plus the ttl asked for, and a row goes
      only by an authorised delete or once expired. */
  ghost predicate Lawful(u: Version, v: Version, name: string) {
    if Grants(v, name) then
      && name in v.table && v.table[name].acquiredAt == v.cause.readAt <= v.at
      && v.table[name].expiresAt == v.cause.readAt + v.cause.ttl > v.cause.readAt
      && !LiveAt(u.table, name, v.table[name].acquiredAt)
    else if name in v.table then
      && name in u.table
      && (v.table[name] == u.table[name]
          || (&& AuthorisedRenewal(v, name, u.table[name]) && v.cause.readAt <= v.at
              && SameTenure(u.table[name], v.table[name])
              && u.table[name].expiresAt > v.cause.readAt
              && v.table[name].expiresAt == v.cause.readAt + v.cause.ttl > v.cause.readAt))
    else
      name in u.table ==> AuthorisedDelete(v, name, u.table[name]) || u.table[name].expiresAt <= v.at
  }

  ghost predicate LawfulPair(u: Version, v: Version) {
    forall name :: Lawful(u, v, name)
  }

  ghost predicate LawfulAt(h: seq<Version>, k: nat)
    requires k < |h|
  {
    k > 0 ==> LawfulPair(h[k - 1], h[k]) && h[k - 1].at <= h[k].at
  }

  ghost predicate Chained(h: seq<Version>) {
    && h != [] && h[0].cause.Opened? && h[0].table == map[]
    && (forall k :: 0 <= k < |h| ==> LawfulAt(h, k))
  }

  /** The call asks for a positive ttl and acts on no second that has not come yet. */
  ghost predicate CallSound(x: Proc, clock: int) {
    match x
    case Trying(call, now) => now <= clock && call.ttl > 0
    case Joining(call) => call.ttl > 0
    case Looping(call, _, _) => call.ttl > 0
    case Heading(call, _, _) => call.ttl > 0
    case Retrying(call, _, _, now) => now <= clock && call.ttl > 0
    case Parked(call, _, _, _) => call.ttl > 0
    case Batching(_, _, ttl, now) => now <= clock && ttl > 0
    case Renewing(_, _, ttl, now) => now <= clock && ttl > 0
    case Purging(now) => now <= clock
    case Sweeping(now) => now <= clock
    case Probing(now, _) => now <= clock
    case Poking(now, _, _) => now <= clock
    case _ => true
  }

  ghost predicate CallsSound(w: World) {
    forall p | p in w.procs :: CallSound(w.procs[p], w.clock)
  }

  ghost predicate TokensMinted(w: World) {
    forall n | n in w.table :: w.table[n].token in w.minted
  }

  function Latest(w: World): Version
    requires w.history != []
  {
    w.history[|w.history| - 1]
  }

  /** The table is the last version of a lawful history. */
  ghost predicate HistorySafe(w: World) {
    && Chained(w.history)
    && Latest(w).table == w.table
    && Latest(w).at <= w.clock
    && TokensMinted(w)
  }

  ghost predicate Safe(w: World) {
    HistorySafe(w) && CallsSound(w)
  }

  lemma ChainedAppend(h: seq<Version>, v: Version)
    requires Chained(h) && LawfulPair(h[|h| - 1], v) && h[|h| - 1].at <= v.at
    ensures Chained(h + [v])
  {
    var h' := h + [v];
    forall k | 0 <= k < |h'| ensures LawfulAt(h', k) {
      if k < |h| { assert LawfulAt(h, k); }
    }
  }

  lemma CommitKeepsSafe(w: World, table: Table, cause: Cause)
    requires HistorySafe(w)
    requires LawfulPair(Latest(w), Version(w.clock, table, cause))
    requires forall n | n in table :: table[n].token in w.minted
    ensures HistorySafe(Commit(w, table, cause))
  {
    ChainedAppend(w.history, Version(w.clock, table, cause));
  }

  /** A grant of names that were free at a second already past. */
  lemma GrantKeepsSafe(w: World, table: Table, names: set<string>, now: int, ttl: int)
    requires HistorySafe(w) && now <= w.clock && ttl > 0 && AllFree(w.table, names, now)
    requires table.Keys == w.table.Keys + names
    requires forall n | n in w.table && n !in names :: table[n] == w.table[n]
    requires forall n | n in names ::
               table[n].token in w.minted && table[n].acquiredAt == now && table[n].expiresAt == now + ttl
    ensures HistorySafe(Commit(w, table, GrantedTo(names, now, ttl)))
  {
    CommitKeepsSafe(w, table, GrantedTo(names, now, ttl));
  }

  /** A commit that only deletes: with authority, or what had expired. */
  lemma DeleteKeepsSafe(w: World, table: Table, cause: Cause)
    requires HistorySafe(w) && !cause.GrantedTo?
    requires table.Keys <= w.table.Keys && forall n | n in table :: table[n] == w.table[n]
    requires forall n | n in w.table && n !in table ::
               AuthorisedDelete(Version(w.clock, table, cause), n, w.table[n]) || w.table[n].expiresAt <= w.clock
    ensures HistorySafe(Commit(w, table, cause))
  {
    CommitKeepsSafe(w, table, cause);
  }

  lemma AttemptKeepsSafe(w: World, call: Call, now: int, token: Token)
    requires HistorySafe(w) && now <= w.clock && call.ttl > 0 && Unused(w, token) && !LiveAt(w.table, call.name, now)
    ensures HistorySafe(GrantOne(w, call, now, token))
  {
    var table := Acquire(w.table, call.name, call.agent, token, now, call.ttl);
    GrantKeepsSafe(Mint(w, {token}), table, {call.name}, now, call.ttl);
  }

  lemma BatchKeepsSafe(w: World, x: Proc, tokens: map<string, Token>)
    requires HistorySafe(w) && x.Batching? && x.now <= w.clock && x.ttl > 0 && tokens.Keys == x.names
    requires AllFree(w.table, x.names, x.now)
    ensures HistorySafe(GrantBatch(w, x, tokens))
  {
    assert forall n | n in tokens :: tokens[n] in tokens.Values;
    var table := AcquireAll(w.table, x.names, x.agent, tokens, x.now, x.ttl);
    GrantKeepsSafe(Mint(w, tokens.Values), table, x.names, x.now, x.ttl);
  }

  lemma RenewKeepsSafe(w: World, name: string, who: Renewer, now: int, ttl: int)
    requires HistorySafe(w) && now <= w.clock && ttl > 0
    ensures HistorySafe(Commit(w, Renew(w.table, name, who, now, ttl), Extended(name, who, now, ttl)))
  {
    CommitKeepsSafe(w, Renew(w.table, name, who, now, ttl), Extended(name, who, now, ttl));
  }

  lemma GrantStepKeepsHistory(w: World, a: Action)
    requires Safe(w) && Enabled(w, a) && (a.FirstTx? || a.RetryTx? || a.BatchTx?)
    ensures HistorySafe(Next(w, a))
  {
    var x := w.procs[a.p];
    if a.BatchTx? {
      if AllFree(w.table, x.names, x.now) { BatchKeepsSafe(w, x, a.tokens); }
    } else {
      if !LiveAt(w.table, x.call.name, x.now) { AttemptKeepsSafe(w, x.call, x.now, a.token); }
    }
  }

  lemma DeleteStepKeepsHistory(w: World, a: Action)
    requires Safe(w) && Enabled(w, a) && (a.ReleaseTx? || a.ReleaseAgentTx? || a.PurgeTx?)
    ensures HistorySafe(Next(w, a))
  {
    if a.ReleaseTx? {
      if Releases(w.table, a.name, a.token, a.agent) {
        DeleteKeepsSafe(w, Release(w.table, a.name, a.token, a.agent), ReleasedBy(a.name, a.token, a.agent));
      }
    } else if a.ReleaseAgentTx? {
      DeleteKeepsSafe(w, ReleaseAgent(w.table, a.agent), AgentGone(a.agent));
    } else {
      DeleteKeepsSafe(w, Unexpired(w.table, w.procs[a.p].now), Purged);
    }
  }

  lemma StepKeepsHistory(w: World, a: Action)
    requires Safe(w) && Enabled(w, a)
    ensures HistorySafe(Next(w, a))
  {
    if a.FirstTx? || a.RetryTx? || a.BatchTx? {
      GrantStepKeepsHistory(w, a);
    } else if a.RenewTx? {
      var x := w.procs[a.p];
      RenewKeepsSafe(w, x.name, x.who, x.now, x.ttl);
    } else if Commits(a) {
      DeleteStepKeepsHistory(w, a);
    } else {
      OnlyCommitsTouchTheTable(w, a);
    }
  }

  lemma StepKeepsCalls(w: World, a: Action)
    requires CallsSound(w) && Enabled(w, a)
    ensures CallsSound(Next(w, a))
  {
    var w' := Next(w, a);
    forall q | q in w'.procs ensures CallSound(w'.procs[q], w'.clock) {
      if a.Tick? || a.p != q { OthersUntouched(w, a, q); } else { ActorStaysSound(w, a); }
    }
  }

  lemma ActorStaysSound(w: World, a: Action)
    requires Enabled(w, a) && !a.Tick? && (a.p in w.procs ==> CallSound(w.procs[a.p], w.clock))
    ensures a.p in Next(w, a).procs ==> CallSound(Next(w, a).procs[a.p], Next(w, a).clock)
  {
    if Commits(a) { CommitterStaysSound(w, a); }
  }

  lemma CommitterStaysSound(w: World, a: Action)
    requires Enabled(w, a) && Commits(a) && (a.p in w.procs ==> CallSound(w.procs[a.p], w.clock))
    ensures a.p in Next(w, a).procs ==> CallSound(Next(w, a).procs[a.p], Next(w, a).clock)
  {
  }

  lemma StepKeepsSafe(w: World, a: Action)
    requires Safe(w) && Enabled(w, a)
    ensures Safe(Next(w, a))
  {
    StepKeepsHistory(w, a);
    StepKeepsCalls(w, a);
  }

  lemma {:induction false} RunKeepsSafe(w: World, acts: seq<Action>)
    requires Safe(w) && Feasible(w, acts)
    ensures Safe(Run(w, acts))
    decreases |acts|
  {
    if acts != [] {
      StepKeepsSafe(w, acts[0]);
      RunKeepsSafe(Next(w, acts[0]), acts[1..]);
    }
  }

  lemma ReachableSafe(w: World)
    requires Reachable(w)
    ensures Safe(w)
  {
    var clock: int, acts: seq<Action> :| Feasible(Start(clock), acts) && w == Run(Start(clock), acts);
    RunKeepsSafe(Start(clock), acts);
  }

  /** At commit `k` the tenure of `name` that commit `i` granted comes to an end:
      its row was still there just before, and it is then either deleted by someone
      with the row's token or agent, or past the expiry last set for it. */
  ghost predicate TenureEnds(h: seq<Version>, i: nat, k: nat, name: string)
    requires i < k < |h|
  {
    && name in h[i].table && name in h[k - 1].table
    && h[k - 1].table[name].token == h[i].table[name].token
    && h[k - 1].table[name].agent == h[i].table[name].agent
    && (name !in h[k].table || Grants(h[k], name))
    && (AuthorisedDelete(h[k], name, h[k - 1].table[name]) || h[k - 1].table[name].expiresAt <= h[k].at)
  }

  lemma TenureEndsBefore(h: seq<Version>, i: nat, j: nat, name: string) returns (k: nat)
    requires Chained(h) && i < j < |h| && Grants(h[i], name)
    requires Grants(h[j], name) || name !in h[j].table
    ensures i < k <= j && TenureEnds(h, i, k, name)
    ensures h[k].at <= h[j].at
  {
    assert LawfulAt(h, i) && Lawful(h[i - 1], h[i], name);
    k := i + 1;
    while !Grants(h[k], name) && name in h[k].table
      invariant i < k <= j
      invariant name in h[k - 1].table
      invariant h[k - 1].table[name].token == h[i].table[name].token
      invariant h[k - 1].table[name].agent == h[i].table[name].agent
      decreases j - k
    {
      assert LawfulAt(h, k) && Lawful(h[k - 1], h[k], name);
      k := k + 1;
    }
    assert LawfulAt(h, k) && Lawful(h[k - 1], h[k], name);
    InOrder(h, k, j);
  }

  lemma {:induction false} InOrder(h: seq<Version>, i: nat, j: nat)
    requires Chained(h) && i <= j < |h|
    ensures h[i].at <= h[j].at
    decreases j - i
  {
    if i < j {
      assert LawfulAt(h, j);
      InOrder(h, i, j - 1);
    }
  }

  /** Mutual exclusion. In every reachable world, between two grants of one name the
      first tenure ended: by an authorised delete, or because the clock had reached
      the expiry last set for it by the time of the later grant. */
  lemma MutualExclusion(w: World, i: nat, j: nat, name: string)
    requires Reachable(w)
    requires i < j < |w.history| && Grants(w.history[i], name) && Grants(w.history[j], name)
    ensures exists k :: i < k <= j && TenureEnds(w.history, i, k, name) && w.history[k].at <= w.history[j].at
  {
    ReachableSafe(w);
    var k := TenureEndsBefore(w.history, i, j, name);
  }

  /** A granted lock is still held under the same token unless its tenure ended lawfully. */
  lemma HeldOrEnded(w: World, i: nat, name: string)
    requires Reachable(w) && i < |w.history| && Grants(w.history[i], name)
    ensures || (exists k :: i < k < |w.history| && TenureEnds(w.history, i, k, name))
            || (&& name in w.table && name in w.history[i].table
                && w.table[name].token == w.history[i].table[name].token
                && w.table[name].agent == w.history[i].table[name].agent)
  {
    ReachableSafe(w);
    var h := w.history;
    assert LawfulAt(h, i) && Lawful(h[i - 1], h[i], name);
    if j :| i < j < |h| && (Grants(h[j], name) || name !in h[j].table) {
      var k := TenureEndsBefore(h, i, j, name);
    } else {
      TenureLasts(h, i, |h| - 1, name);
    }
  }

  lemma {:induction false} TenureLasts(h: seq<Version>, i: nat, j: nat, name: string)
    requires Chained(h) && i <= j < |h| && name in h[i].table
    requires forall m :: i < m <= j ==> !Grants(h[m], name) && name in h[m].table
    ensures h[j].table[name].token == h[i].table[name].token
    ensures h[j].table[name].agent == h[i].table[name].agent
    decreases j - i
  {
    if i < j {
      TenureLasts(h, i, j - 1, name);
      assert LawfulAt(h, j) && Lawful(h[j - 1], h[j], name);
    }
  }

  /** Version `k` set the expiry of `name`: to the second its grant or renewal read, plus
      the ttl it asked for. */
  ghost predicate SetsExpiry(h: seq<Version>, k: nat, name: string)
    requires k < |h|
  {
    && name in h[k].table
    && (Grants(h[k], name) || (k > 0 && name in h[k - 1].table && AuthorisedRenewal(h[k], name, h[k - 1].table[name])))
    && h[k].table[name].expiresAt == h[k].cause.readAt + h[k].cause.ttl
  }

  /** The row of `name` is as version `k` left it. */
  ghost predicate SameSince(h: seq<Version>, k: nat, name: string)
    requires k < |h| && name in h[k].table
  {
    forall j :: k <= j < |h| ==> name in h[j].table && h[j].table[name] == h[k].table[name]
  }

  lemma UnsetMeansSame(h: seq<Version>, k: nat, name: string)
    requires Chained(h) && k < |h| && name in h[k].table && !SetsExpiry(h, k, name)
    ensures k > 0 && name in h[k - 1].table && h[k - 1].table[name] == h[k].table[name]
  {
    assert LawfulAt(h, k);
    assert k > 0 && Lawful(h[k - 1], h[k], name);
  }

  lemma LastSetting(h: seq<Version>, name: string) returns (k: nat)
    requires Chained(h) && name in h[|h| - 1].table
    ensures k < |h| && SetsExpiry(h, k, name) && SameSince(h, k, name)
  {
    k := |h| - 1;
    while !SetsExpiry(h, k, name)
      invariant k < |h| && name in h[k].table && SameSince(h, k, name)
      decreases k
    {
      UnsetMeansSame(h, k, name);
      forall j | k - 1 <= j < |h| ensures name in h[j].table && h[j].table[name] == h[k - 1].table[name] {
        if j >= k { assert SameSince(h, k, name); }
      }
      k := k - 1;
    }
  }

  /** In every reachable world the expiry of a row is the second read by its last grant
      or renewal plus the ttl asked for there; it does not pile up. */
  lemma ExpiryFromLastReading(w: World, name: string)
    requires Reachable(w) && name in w.table
    ensures exists k: nat :: k < |w.history| && SetsExpiry(w.history, k, name) && SameSince(w.history, k, name)
                             && w.table[name].expiresAt == w.history[k].cause.readAt + w.history[k].cause.ttl
  {
    ReachableSafe(w);
    var k := LastSetting(w.history, name);
    assert w.history[|w.history| - 1].table[name] == w.history[k].table[name];
  }

  // ----- every commit, as later readers see it -----

  /** Whether the second `m` will find `agent` holding `name` under `token` once `a` has
      been done: the whole effect of all 23 steps on the table. */
  ghost predicate HoldsAfter(w: World, a: Action, name: string, agent: string, token: Token, m: int)
    requires Enabled(w, a)
  {
    var before := Holds(w.table, name, agent, token, m);
    if a.FirstTx? || a.RetryTx? then
      var x := w.procs[a.p];
      if name == x.call.name && !LiveAt(w.table, name, x.now)
      then agent == x.call.agent && token == a.token && m < x.now + x.call.ttl else before
    else if a.BatchTx? then
      var x := w.procs[a.p];
      if name in x.names && AllFree(w.table, x.names, x.now)
      then agent == x.agent && token == a.tokens[name] && m < x.now + x.ttl else before
    else if a.RenewTx? then
      var x := w.procs[a.p];
      if name == x.name && LiveAt(w.table, name, x.now) && MayRenew(w.table[name], x.who)
      then agent == w.table[name].agent && token == w.table[name].token && m < x.now + x.ttl else before
    else if a.ReleaseTx? then
      before && !(name == a.name && if a.token != "" then token == a.token else a.agent != "" && agent == a.agent)
    else if a.ReleaseAgentTx? then
      before && agent != a.agent
    else if a.PurgeTx? then
      before && Holds(w.table, name, agent, token, w.procs[a.p].now)
    else before
  }

  lemma CommitSeenBy(w: World, a: Action, name: string, agent: string, token: Token, m: int)
    requires Enabled(w, a)
    ensures Holds(Next(w, a).table, name, agent, token, m) <==> HoldsAfter(w, a, name, agent, token, m)
  {
    if !Commits(a) {
      OnlyCommitsTouchTheTable(w, a);
    } else if a.FirstTx? || a.RetryTx? {
      var call, now := w.procs[a.p].call, w.procs[a.p].now;
      OpSeenBy(w.table, AcquireOp(call.name, call.agent, a.token, now, call.ttl), name, agent, token, m);
    } else if a.BatchTx? {
      var x := w.procs[a.p];
      OpSeenBy(w.table, BatchOp(x.names, x.agent, a.tokens, x.now, x.ttl), name, agent, token, m);
    } else if a.RenewTx? {
      var x := w.procs[a.p];
      OpSeenBy(w.table, RenewOp(x.name, x.who, x.now, x.ttl), name, agent, token, m);
    } else if a.PurgeTx? {
      PurgeSeenBy(w.table, w.procs[a.p].now, name, agent, token, m);
    } else {
      ReleaseSeenBy(w, a, name, agent, token, m);
    }
  }

  lemma ReleaseSeenBy(w: World, a: Action, name: string, agent: string, token: Token, m: int)
    requires Enabled(w, a) && (a.ReleaseTx? || a.ReleaseAgentTx?)
    ensures Holds(Next(w, a).table, name, agent, token, m) <==> HoldsAfter(w, a, name, agent, token, m)
  {
    var op := if a.ReleaseTx? then ReleaseOp(a.name, a.token, a.agent) else ReleaseAgentOp(a.agent);
    OpSeenBy(w.table, op, name, agent, token, m);
  }

  /** A first attempt, a batch and a renewal with nothing in between act at the second of
      the clock: what any reader sees after them. A first attempt that meets a holder goes
      on to join the line only if it may wait, and none touches the lines. */
  lemma UndisturbedAttempt(w: World, p: nat, call: Call, token: Token, n: string, agent: string, k: Token, m: int)
    requires Enabled(w, BeginLock(p, call)) && Unused(w, token)
    ensures var w1 := Next(w, BeginLock(p, call));
            && Enabled(w1, FirstTx(p, token))
            && (Holds(Next(w1, FirstTx(p, token)).table, n, agent, k, m) <==>
                  if n == call.name && !LiveAt(w.table, n, w.clock)
                  then agent == call.agent && k == token && m < w.clock + call.ttl
                  else Holds(w.table, n, agent, k, m))
    ensures var w2 := Next(Next(w, BeginLock(p, call)), FirstTx(p, token));
            && w2.queues == w.queues
            && (if LiveAt(w.table, call.name, w.clock) && call.wait > 0
                then p in w2.procs && w2.procs[p] == Joining(call)
                else p !in w2.procs)
  {
    CommitSeenBy(Next(w, BeginLock(p, call)), FirstTx(p, token), n, agent, k, m);
  }

  lemma UndisturbedBatch(
      w: World, p: nat, names: set<string>, holder: string, ttl: int, tokens: map<string, Token>,
      n: string, agent: string, k: Token, m: int)
    requires Enabled(w, BeginBatch(p, names, holder, ttl))
    requires Enabled(Next(w, BeginBatch(p, names, holder, ttl)), BatchTx(p, tokens))
    ensures Holds(Next(Next(w, BeginBatch(p, names, holder, ttl)), BatchTx(p, tokens)).table, n, agent, k, m) <==>
              if n in names && AllFree(w.table, names, w.clock)
              then agent == holder && n in tokens && k == tokens[n] && m < w.clock + ttl
              else Holds(w.table, n, agent, k, m)
  {
    CommitSeenBy(Next(w, BeginBatch(p, names, holder, ttl)), BatchTx(p, tokens), n, agent, k, m);
  }

  lemma UndisturbedRenewal(
      w: World, p: nat, name: string, who: Renewer, ttl: int, n: string, agent: string, k: Token, m: int)
    requires Enabled(w, BeginRenew(p, name, who, ttl))
    ensures var w1 := Next(w, BeginRenew(p, name, who, ttl));
            && Enabled(w1, RenewTx(p))
            && (Holds(Next(w1, RenewTx(p)).table, n, agent, k, m) <==>
                  if n == name && LiveAt(w.table, n, w.clock) && MayRenew(w.table[n], who)
                  then agent == w.table[n].agent && k == w.table[n].token && m < w.clock + ttl
                  else Holds(w.table, n, agent, k, m))
  {
    CommitSeenBy(Next(w, BeginRenew(p, name, who, ttl)), RenewTx(p), n, agent, k, m);
  }

  /** A release of a held name takes its row if and only if the caller shows the row's
      token or, showing none, names the row's agent; it touches no other row, and a
      refused one changes nothing at all. */
  lemma ReleasedExactly(w: World, p: nat, name: string, token: Token, agent: string)
    requires Enabled(w, ReleaseTx(p, name, token, agent)) && name in w.table
    ensures var w', row := Next(w, ReleaseTx(p, name, token, agent)), w.table[name];
            && (name !in w'.table
                <==> (token != "" && token == row.token) || (token == "" && agent != "" && agent == row.agent))
            && (name in w'.table ==> w' == w)
            && (forall n | n != name ::
                  (n in w'.table <==> n in w.table) && (n in w.table ==> w'.table[n] == w.table[n]))
  {
  }

  // ----- stale tokens -----

  ghost predicate Issued(h: seq<Version>, name: string, token: Token) {
    exists i :: 0 <= i < |h| && name in h[i].table && h[i].table[name].token == token
  }

  /** Every token in the history was drawn, and was only ever issued for one name. */
  ghost predicate TokensTracked(w: World) {
    && (forall n, t :: Issued(w.history, n, t) ==> t in w.minted && t != "")
    && (forall m, n, t :: Issued(w.history, m, t) && Issued(w.history, n, t) ==> m == n)
    && (forall n | n in w.table :: Issued(w.history, n, w.table[n].token))
  }

  /** `token` is drawn and opens nothing. */
  ghost predicate Stale(w: World, token: Token) {
    token != "" && token in w.minted && forall n | n in w.table :: w.table[n].token != token
  }

  lemma CommitTracks(w: World, w': World, newTokens: set<Token>)
    requires TokensTracked(w)
    requires w'.history != [] && w'.history == w.history + [Latest(w')] && Latest(w').table == w'.table
    requires w'.minted == w.minted + newTokens && newTokens !! w.minted && "" !in newTokens
    requires forall n | n in w'.table ::
               || (n in w.table && w'.table[n].token == w.table[n].token)
               || (&& w'.table[n].token in newTokens
                   && forall m | m in w'.table && m != n :: w'.table[m].token != w'.table[n].token)
    ensures TokensTracked(w')
    ensures forall token | Stale(w, token) :: Stale(w', token)
  {
    var h, h' := w.history, w'.history;
    forall n, t ensures Issued(h', n, t) <==> Issued(h, n, t) || (n in w'.table && w'.table[n].token == t) {
      if Issued(h, n, t) {
        var i :| 0 <= i < |h| && n in h[i].table && h[i].table[n].token == t;
        assert h'[i] == h[i];
      }
      if n in w'.table && w'.table[n].token == t { assert h'[|h|].table == w'.table; }
      if Issued(h', n, t) {
        var i :| 0 <= i < |h'| && n in h'[i].table && h'[i].table[n].token == t;
        if i < |h| { assert h'[i] == h[i]; }
      }
    }
  }

  lemma QuietTracks(w: World, w': World)
    requires TokensTracked(w)
    requires w'.history == w.history && w'.table == w.table && w.minted <= w'.minted
    ensures TokensTracked(w')
    ensures forall token | Stale(w, token) :: Stale(w', token)
  {
  }

  lemma AttemptTracks(w: World, a: Action)
    requires w.history != [] && TokensTracked(w) && Enabled(w, a) && (a.FirstTx? || a.RetryTx?)
    ensures TokensTracked(Next(w, a))
    ensures forall token | Stale(w, token) :: Stale(Next(w, a), token)
  {
    var x := w.procs[a.p];
    if LiveAt(w.table, x.call.name, x.now) {
      QuietTracks(w, Next(w, a));
    } else {
      CommitTracks(w, Next(w, a), {a.token});
    }
  }

  lemma BatchTracks(w: World, a: Action)
    requires w.history != [] && TokensTracked(w) && Enabled(w, a) && a.BatchTx?
    ensures TokensTracked(Next(w, a))
    ensures forall token | Stale(w, token) :: Stale(Next(w, a), token)
  {
    var x := w.procs[a.p];
    if AllFree(w.table, x.names, x.now) {
      assert forall n | n in a.tokens :: a.tokens[n] in a.tokens.Values;
      CommitTracks(w, Next(w, a), a.tokens.Values);
    } else {
      QuietTracks(w, Next(w, a));
    }
  }

  lemma NothingIssuedTracks(w: World, a: Action)
    requires w.history != [] && TokensTracked(w) && Enabled(w, a)
    requires a.RenewTx? || a.ReleaseTx? || a.ReleaseAgentTx? || a.PurgeTx?
    ensures TokensTracked(Next(w, a))
    ensures forall token | Stale(w, token) :: Stale(Next(w, a), token)
  {
    if a.ReleaseTx? && !Releases(w.table, a.name, a.token, a.agent) {
      assert Next(w, a) == w;
    } else {
      CommitTracks(w, Next(w, a), {});
    }
  }

  lemma StepTracks(w: World, a: Action)
    requires w.history != [] && TokensTracked(w) && Enabled(w, a)
    ensures Next(w, a).history != [] && TokensTracked(Next(w, a))
    ensures forall token | Stale(w, token) :: Stale(Next(w, a), token)
  {
    if a.FirstTx? || a.RetryTx? {
      AttemptTracks(w, a);
    } else if a.BatchTx? {
      BatchTracks(w, a);
    } else if Commits(a) {
      NothingIssuedTracks(w, a);
    } else {
      OnlyCommitsTouchTheTable(w, a);
      QuietTracks(w, Next(w, a));
    }
  }

  lemma {:induction false} RunTracks(w: World, acts: seq<Action>)
    requires w.history != [] && TokensTracked(w) && Feasible(w, acts)
    ensures TokensTracked(Run(w, acts))
    ensures forall token | Stale(w, token) :: Stale(Run(w, acts), token)
    decreases |acts|
  {
    if acts != [] {
      StepTracks(w, acts[0]);
      RunTracks(Next(w, acts[0]), acts[1..]);
    }
  }

  /** A lock token that was issued for `name` and no longer sits in its row is inert:
      in every continuation no release and no renewal with it, on any name, succeeds
      or changes the table. */
  lemma StaleTokenInert(
      w: World, name: string, token: Token, acts: seq<Action>, anyName: string, agent: string, now: int, ttl: int)
    requires Reachable(w) && Issued(w.history, name, token)
    requires name in w.table ==> w.table[name].token != token
    requires Feasible(w, acts)
    ensures !Releases(Run(w, acts).table, anyName, token, agent)
    ensures Release(Run(w, acts).table, anyName, token, agent) == Run(w, acts).table
    ensures RenewOutcome(Run(w, acts).table, anyName, Bearer(token), now) != Renewed
    ensures Renew(Run(w, acts).table, anyName, Bearer(token), now, ttl) == Run(w, acts).table
  {
    var clock: int, past: seq<Action> :| Feasible(Start(clock), past) && w == Run(Start(clock), past);
    RunTracks(Start(clock), past);
    RunTracks(w, acts);
    assert Stale(w, token);
  }
}
