/** The `locks` table: one row per name, and every transaction that touches it,
    written as a function of the table, the second the caller read, and a token. */
module LockTable {
  import opened Base

  datatype Row = Row(agent: string, token: Token, acquiredAt: int, expiresAt: int)

  type Table = map<string, Row>

  /** The name is held by a row that has not expired at `now`. */
  predicate LiveAt(t: Table, name: string, now: int) {
    name in t && t[name].expiresAt > now
  }

  /** What is left after `DELETE ... WHERE expires_at <= now`; also the live view at `now`. */
  function Unexpired(t: Table, now: int): Table {
    map n | n in t && t[n].expiresAt > now :: t[n]
  }

  // ----- the transactions -----

  function Acquire(t: Table, name: string, agent: string, token: Token, now: int, ttl: int): Table {
    if LiveAt(t, name, now) then t else t[name := Row(agent, token, now, now + ttl)]
  }

  predicate AllFree(t: Table, names: set<string>, now: int) {
    forall n | n in names :: !LiveAt(t, n, now)
  }

  /** All names or none. */
  function AcquireAll(
      t: Table, names: set<string>, agent: string, tokens: map<string, Token>, now: int, ttl: int): Table
    requires names <= tokens.Keys
  {
    if AllFree(t, names, now)
    then t + map n | n in names :: Row(agent, tokens[n], now, now + ttl)
    else t
  }

  /** A matching token, or (older clients) no token and the holder's agent id. */
  predicate MayRelease(row: Row, token: Token, agent: string) {
    (token != "" && token == row.token) || (token == "" && agent != "" && agent == row.agent)
  }

  predicate Releases(t: Table, name: string, token: Token, agent: string) {
    name in t && MayRelease(t[name], token, agent)
  }

  function Release(t: Table, name: string, token: Token, agent: string): Table {
    if Releases(t, name, token, agent) then t - {name} else t
  }

  function HeldBy(t: Table, agent: string): set<string> {
    set n | n in t && t[n].agent == agent
  }

  function ReleaseAgent(t: Table, agent: string): Table {
    t - HeldBy(t, agent)
  }

  /** Who asks for a renewal: the bearer of a token, or (older clients) an agent id. */
  datatype Renewer = Bearer(token: Token) | Holder(agent: string)

  predicate MayRenew(row: Row, who: Renewer) {
    match who
    case Bearer(token) => token != "" && token == row.token
    case Holder(agent) => agent != "" && agent == row.agent
  }

  datatype RenewAnswer = Renewed | NotFound | NotOwned

  function RenewOutcome(t: Table, name: string, who: Renewer, now: int): RenewAnswer {
    if !LiveAt(t, name, now) then NotFound
    else if !MayRenew(t[name], who) then NotOwned
    else Renewed
  }

  function Renew(t: Table, name: string, who: Renewer, now: int, ttl: int): Table {
    if RenewOutcome(t, name, who, now) == Renewed
    then t[name := t[name].(expiresAt := now + ttl)]
    else t
  }

  // ----- transactions as data, so that whole runs can be compared -----

  datatype Op =
    | AcquireOp(name: string, agent: string, token: Token, now: int, ttl: int)
    | BatchOp(names: set<string>, agent: string, tokens: map<string, Token>, now: int, ttl: int)
    | RenewOp(name: string, who: Renewer, now: int, ttl: int)
    | ListOp(now: int)
    | ReleaseOp(name: string, token: Token, agent: string)
    | ReleaseAgentOp(agent: string)

  predicate WellFormed(op: Op) {
    op.BatchOp? ==> op.names <= op.tokens.Keys
  }

  /** What the caller is told. */
  datatype Answer =
    | Granted
    | HeldByOther(row: Row)
    | NamesBusy(holders: map<string, Row>)
    | RenewSaid(renew: RenewAnswer)
    | Listed(rows: Table)
    | Released(count: nat)

  function Reply(t: Table, op: Op): Answer {
    match op
    case AcquireOp(name, _, _, now, _) => if LiveAt(t, name, now) then HeldByOther(t[name]) else Granted
    case BatchOp(names, _, _, now, _) =>
      if AllFree(t, names, now) then Granted
      else NamesBusy(map n | n in names && LiveAt(t, n, now) :: t[n])
    case RenewOp(name, who, now, _) => RenewSaid(RenewOutcome(t, name, who, now))
    case ListOp(now) => Listed(Unexpired(t, now))
    case ReleaseOp(name, token, agent) => Released(if Releases(t, name, token, agent) then 1 else 0)
    case ReleaseAgentOp(agent) => Released(|HeldBy(t, agent)|)
  }

  function Apply(t: Table, op: Op): Table
    requires WellFormed(op)
  {
    match op
    case AcquireOp(name, agent, token, now, ttl) => Acquire(t, name, agent, token, now, ttl)
    case BatchOp(names, agent, tokens, now, ttl) => AcquireAll(t, names, agent, tokens, now, ttl)
    case RenewOp(name, who, now, ttl) => Renew(t, name, who, now, ttl)
    case ListOp(_) => t
    case ReleaseOp(name, token, agent) => Release(t, name, token, agent)
    case ReleaseAgentOp(agent) => ReleaseAgent(t, agent)
  }

  /** Whether the transaction tests expiry; the two releases do not. */
  predicate TestsExpiry(op: Op) {
    !op.ReleaseOp? && !op.ReleaseAgentOp?
  }

  /** A batch that finds a name live changes nothing and is told exactly the live rows
      among its names; any other leaves every name held under its own token and every
      other row as it was. It changes nothing in that case only if it names nothing. */
  lemma BatchIsAllOrNothing(
      t: Table, names: set<string>, agent: string, tokens: map<string, Token>, now: int, ttl: int)
    requires names <= tokens.Keys
    requires forall m, n | m in t && n in names :: t[m].token != tokens[n]
    ensures var t' := AcquireAll(t, names, agent, tokens, now, ttl);
            var r := Reply(t, BatchOp(names, agent, tokens, now, ttl));
            && (t' == t <==> names == {} || exists n :: n in names && LiveAt(t, n, now))
            && (r.NamesBusy? <==> exists n :: n in names && LiveAt(t, n, now))
            && (r.NamesBusy? ==> t' == t && forall n :: (n in r.holders <==> n in names && LiveAt(t, n, now))
                                                      && (n in r.holders ==> r.holders[n] == t[n]))
            && (!r.NamesBusy? ==>
                  && (forall n | n in names :: n in t' && t'[n] == Row(agent, tokens[n], now, now + ttl))
                  && (forall n | n !in names :: (n in t' <==> n in t) && (n in t ==> t'[n] == t[n])))
  {
    var t' := AcquireAll(t, names, agent, tokens, now, ttl);
    if AllFree(t, names, now) {
      if names == {} {
        assert t' == t;
      } else {
        var n :| n in names;
        assert t'[n].token == tokens[n];
      }
    }
  }

  // ----- what later readers see -----

  /** A reader at second `m` finds `agent` holding `name` under `token`. */
  predicate Holds(t: Table, name: string, agent: string, token: Token, m: int) {
    name in t && t[name].agent == agent && t[name].token == token && m < t[name].expiresAt
  }

  /** A name is live at a second exactly when a reader then finds someone holding it. */
  lemma LiveMeansHeld(t: Table, name: string, m: int)
    ensures LiveAt(t, name, m) <==> exists a: string, k: Token :: Holds(t, name, a, k, m)
  {
    if LiveAt(t, name, m) { assert Holds(t, name, t[name].agent, t[name].token, m); }
  }

  /** Every transaction, by what any reader sees afterwards at any second: a grant of a
      free name holds it for the ttl from the second read; a renewal by one entitled keeps
      the holder and its token and runs for the ttl from the second read, not from the old
      expiry; a release takes what its token or agent covers; nothing else changes. */
  lemma OpSeenBy(t: Table, op: Op, n: string, a: string, k: Token, m: int)
    requires WellFormed(op)
    ensures Holds(Apply(t, op), n, a, k, m) <==>
              match op
              case AcquireOp(name, agent, token, now, ttl) =>
                if n == name && !LiveAt(t, name, now) then a == agent && k == token && m < now + ttl
                else Holds(t, n, a, k, m)
              case BatchOp(names, agent, tokens, now, ttl) =>
                if n in names && (forall o | o in names :: !LiveAt(t, o, now))
                then a == agent && k == tokens[n] && m < now + ttl
                else Holds(t, n, a, k, m)
              case RenewOp(name, who, now, ttl) =>
                if n == name && LiveAt(t, name, now) && MayRenew(t[name], who)
                then a == t[name].agent && k == t[name].token && m < now + ttl
                else Holds(t, n, a, k, m)
              case ListOp(_) => Holds(t, n, a, k, m)
              case ReleaseOp(name, token, agent) =>
                Holds(t, n, a, k, m) && !(n == name && if token != "" then k == token else agent != "" && a == agent)
              case ReleaseAgentOp(agent) => Holds(t, n, a, k, m) && a != agent
  {
  }

  /** A purge takes exactly what a reader at its second no longer finds. */
  lemma PurgeSeenBy(t: Table, purgedAt: int, n: string, a: string, k: Token, m: int)
    ensures Holds(Unexpired(t, purgedAt), n, a, k, m) <==> Holds(t, n, a, k, m) && Holds(t, n, a, k, purgedAt)
  {
  }

  /** What a renewal is told: nothing is found unless someone holds the name at the second
      read, and then it is for whoever shows the row's token or, in the older form, names
      its agent. */
  lemma RenewalAnswered(t: Table, name: string, who: Renewer, now: int)
    ensures RenewOutcome(t, name, who, now) == NotFound <==> forall a, k :: !Holds(t, name, a, k, now)
    ensures RenewOutcome(t, name, who, now) == Renewed <==>
              exists a, k ::
                Holds(t, name, a, k, now) && if who.Bearer? then who.token == k != "" else who.agent == a != ""
  {
    LiveMeansHeld(t, name, now);
    if LiveAt(t, name, now) { assert Holds(t, name, t[name].agent, t[name].token, now); }
  }

  // ----- lazy expiry refines a table from which dead rows are purged at once -----

  /** The two tables hold the same rows still alive at `since`. */
  ghost predicate Agree(lazy: Table, eager: Table, since: int) {
    Unexpired(lazy, since) == Unexpired(eager, since)
  }

  lemma AgreeOn(lazy: Table, eager: Table, since: int, n: string, now: int)
    requires Agree(lazy, eager, since) && now >= since
    ensures LiveAt(lazy, n, now) <==> LiveAt(eager, n, now)
    ensures LiveAt(lazy, n, now) ==> lazy[n] == eager[n]
  {
    assert n in Unexpired(lazy, since) <==> LiveAt(lazy, n, since);
    assert n in Unexpired(eager, since) <==> LiveAt(eager, n, since);
    if LiveAt(lazy, n, since) { assert Unexpired(lazy, since)[n] == Unexpired(eager, since)[n]; }
  }

  lemma AgreeFromRows(lazy: Table, eager: Table, since: int)
    requires forall n :: LiveAt(lazy, n, since) <==> LiveAt(eager, n, since)
    requires forall n :: LiveAt(lazy, n, since) ==> n in eager && lazy[n] == eager[n]
    ensures Agree(lazy, eager, since)
  {
    assert forall n :: n in Unexpired(lazy, since) <==> LiveAt(lazy, n, since);
    assert forall n :: n in Unexpired(eager, since) <==> LiveAt(eager, n, since);
  }

  /** Purging at any second up to `since` is invisible at `since`. */
  lemma PurgeAgrees(t: Table, purgedAt: int, since: int)
    requires purgedAt <= since
    ensures Agree(t, Unexpired(t, purgedAt), since)
  {
    AgreeFromRows(t, Unexpired(t, purgedAt), since);
  }

  /** One transaction keeps the agreement. */
  lemma StateAgrees(lazy: Table, eager: Table, since: int, op: Op)
    requires Agree(lazy, eager, since) && WellFormed(op)
    requires TestsExpiry(op) ==> op.now >= since
    ensures Agree(Apply(lazy, op), Apply(eager, op), since)
  {
    var lazy', eager' := Apply(lazy, op), Apply(eager, op);
    if TestsExpiry(op) { LiveAgrees(lazy, eager, since, op.now); }
    forall n ensures LiveAt(lazy', n, since) <==> LiveAt(eager', n, since)
      ensures LiveAt(lazy', n, since) ==> n in eager' && lazy'[n] == eager'[n]
    {
      AgreeOn(lazy, eager, since, n, since);
    }
    AgreeFromRows(lazy', eager', since);
  }

  lemma LiveAgrees(lazy: Table, eager: Table, since: int, now: int)
    requires Agree(lazy, eager, since) && now >= since
    ensures forall n :: LiveAt(lazy, n, now) <==> LiveAt(eager, n, now)
    ensures forall n :: LiveAt(lazy, n, now) ==> n in eager && lazy[n] == eager[n]
    ensures Unexpired(lazy, now) == Unexpired(eager, now)
  {
    forall n ensures LiveAt(lazy, n, now) <==> LiveAt(eager, n, now)
      ensures LiveAt(lazy, n, now) ==> n in eager && lazy[n] == eager[n]
    {
      AgreeOn(lazy, eager, since, n, now);
    }
    AgreeFromRows(lazy, eager, now);
  }

  /** A transaction that tests expiry answers alike on both. */
  lemma ReplyAgrees(lazy: Table, eager: Table, since: int, op: Op)
    requires Agree(lazy, eager, since) && TestsExpiry(op) && op.now >= since
    ensures Reply(lazy, op) == Reply(eager, op)
  {
    LiveAgrees(lazy, eager, since, op.now);
    if op.BatchOp? {
      assert AllFree(lazy, op.names, op.now) <==> AllFree(eager, op.names, op.now);
    }
  }

  /** A run: transactions, with the reaper's purges in between. */
  datatype Event = Do(op: Op) | PurgeAt(now: int)

  ghost predicate AllWellFormed(events: seq<Event>) {
    forall i :: 0 <= i < |events| && events[i].Do? ==> WellFormed(events[i].op)
  }

  /** Each transaction that tests expiry reads no second earlier than `since`, nor
      than any purge before it. What purges come after it does not matter. */
  ghost predicate ReadsKeepUp(events: seq<Event>, since: int)
    decreases |events|
  {
    events == [] ||
    match events[0]
    case Do(op) => (TestsExpiry(op) ==> op.now >= since) && ReadsKeepUp(events[1..], since)
    case PurgeAt(now) => ReadsKeepUp(events[1..], Larger(since, now))
  }

  /** The latest of `since` and the purges of the run. */
  function LatestPurge(events: seq<Event>, since: int): int
    decreases |events|
  {
    if events == [] then since
    else LatestPurge(events[1..], if events[0].PurgeAt? then Larger(since, events[0].now) else since)
  }

  function Effect(t: Table, e: Event): Table
    requires e.Do? ==> WellFormed(e.op)
  {
    match e
    case Do(op) => Apply(t, op)
    case PurgeAt(now) => Unexpired(t, now)
  }

  ghost function Final(t: Table, events: seq<Event>): Table
    requires AllWellFormed(events)
    decreases |events|
  {
    if events == [] then t else Final(Effect(t, events[0]), events[1..])
  }

  /** The answers given along the run by the transactions that test expiry. */
  ghost function Replies(t: Table, events: seq<Event>): seq<Answer>
    requires AllWellFormed(events)
    decreases |events|
  {
    if events == [] then []
    else
      (if events[0].Do? && TestsExpiry(events[0].op) then [Reply(t, events[0].op)] else [])
      + Replies(Effect(t, events[0]), events[1..])
  }

  function WithoutPurges(events: seq<Event>): seq<Event> {
    if events == [] then []
    else (if events[0].Do? then [events[0]] else []) + WithoutPurges(events[1..])
  }

  lemma {:induction false} WithoutPurgesWellFormed(events: seq<Event>)
    requires AllWellFormed(events)
    ensures AllWellFormed(WithoutPurges(events))
  {
    if events != [] {
      WithoutPurgesWellFormed(events[1..]);
    }
  }

  /** Agreement at one second is agreement at every later one. */
  lemma AgreeLater(lazy: Table, eager: Table, since: int, later: int)
    requires Agree(lazy, eager, since) && since <= later
    ensures Agree(lazy, eager, later)
  {
    LiveAgrees(lazy, eager, since, later);
  }

  /** The reaper's purges can be dropped from any run whose clients read the clock no
      earlier than the purges before them: the clients get the same answers, and the
      tables end up with the same rows alive at the last purge. */
  lemma {:induction false} LazyRefinesEager(lazy: Table, eager: Table, events: seq<Event>, since: int)
    requires AllWellFormed(events) && ReadsKeepUp(events, since) && Agree(lazy, eager, since)
    ensures AllWellFormed(WithoutPurges(events))
    ensures Replies(lazy, WithoutPurges(events)) == Replies(eager, events)
    ensures Agree(Final(lazy, WithoutPurges(events)), Final(eager, events), LatestPurge(events, since))
    decreases |events|
  {
    WithoutPurgesWellFormed(events);
    if events == [] { return; }
    var rest := events[1..];
    match events[0]
    case Do(op) =>
      StateAgrees(lazy, eager, since, op);
      if TestsExpiry(op) { ReplyAgrees(lazy, eager, since, op); }
      LazyRefinesEager(Apply(lazy, op), Apply(eager, op), rest, since);
      assert WithoutPurges(events)[0] == events[0] && WithoutPurges(events)[1..] == WithoutPurges(rest);
    case PurgeAt(now) =>
      var bound := Larger(since, now);
      AgreeLater(lazy, eager, since, bound);
      PurgeAgrees(eager, now, bound);
      LazyRefinesEager(lazy, Unexpired(eager, now), rest, bound);
      assert WithoutPurges(events) == WithoutPurges(rest);
  }

  /** The bound is exact, for every transaction that tests expiry: a purge at `purgedAt`
      is invisible to it, whatever the table, if and only if it read `purgedAt` or later.
      (A batch that names nothing sees no purge at all.) */
  lemma PurgeInvisibleExactly(op: Op, purgedAt: int)
    requires TestsExpiry(op)
    ensures (forall t: Table :: Reply(Unexpired(t, purgedAt), op) == Reply(t, op))
        <==> op.now >= purgedAt || (op.BatchOp? && op.names == {})
  {
    if op.now >= purgedAt {
      forall t: Table ensures Reply(Unexpired(t, purgedAt), op) == Reply(t, op) {
        PurgeAgrees(t, purgedAt, op.now);
        ReplyAgrees(t, Unexpired(t, purgedAt), op.now, op);
      }
    } else if !(op.BatchOp? && op.names == {}) {
      var name := NameIn(op);
      var t: Table := map[name := Row("", "", 0, purgedAt)];
      assert LiveAt(t, name, op.now) && name !in Unexpired(t, purgedAt);
      OneDeadRowSeen(t, Unexpired(t, purgedAt), name, op);
    }
  }

  /** A name the transaction asks about. */
  ghost function NameIn(op: Op): string
    requires TestsExpiry(op) && (op.BatchOp? ==> op.names != {})
  {
    match op
    case AcquireOp(name, _, _, _, _) => name
    case BatchOp(names, _, _, _, _) => var n :| n in names; n
    case RenewOp(name, _, _, _) => name
    case _ => ""
  }

  lemma OneDeadRowSeen(t: Table, purged: Table, name: string, op: Op)
    requires TestsExpiry(op) && (op.BatchOp? ==> op.names != {}) && name == NameIn(op)
    requires t.Keys == {name} && LiveAt(t, name, op.now) && purged == map[]
    ensures Reply(purged, op) != Reply(t, op)
  {
    if op.BatchOp? {
      assert AllFree(purged, op.names, op.now) && !AllFree(t, op.names, op.now);
    } else if op.ListOp? {
      assert name in Unexpired(t, op.now) && name !in Unexpired(purged, op.now);
    }
  }

  /** The names a release, by token or by agent, deletes. */
  function Deletes(t: Table, op: Op): set<string>
    requires !TestsExpiry(op)
  {
    if op.ReleaseOp? then (if Releases(t, op.name, op.token, op.agent) then {op.name} else {}) else HeldBy(t, op.agent)
  }

  /** A release does not test expiry, so purging changes its answer exactly when it
      would have deleted a row already expired. */
  lemma ReleaseSeesDeadRows(t: Table, purgedAt: int, op: Op)
    requires !TestsExpiry(op)
    ensures Reply(Unexpired(t, purgedAt), op) != Reply(t, op)
        <==> exists n :: n in Deletes(t, op) && t[n].expiresAt <= purgedAt
    ensures Apply(t, op) == t - Deletes(t, op)
  {
    var before, after := Deletes(t, op), Deletes(Unexpired(t, purgedAt), op);
    assert forall n :: n in after <==> n in before && t[n].expiresAt > purgedAt;
    if n :| n in before && t[n].expiresAt <= purgedAt {
      ProperSubsetIsSmaller(after, before, n);
    } else {
      assert after == before;
    }
  }

  lemma ProperSubsetIsSmaller(a: set<string>, b: set<string>, n: string)
    requires a <= b && n in b && n !in a
    ensures |a| < |b|
  {
    SubsetIsNoLarger(a, b - {n});
  }

  lemma {:induction false} SubsetIsNoLarger(a: set<string>, b: set<string>)
    requires a <= b
    ensures |a| <= |b|
    decreases |a|
  {
    if n :| n in a { SubsetIsNoLarger(a - {n}, b - {n}); }
  }
}
