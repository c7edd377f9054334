/** The durable work queue: a tasks table whose rows are leased, finished or returned
    to the pending pool, each change being one guarded transaction. */
module Tasks {
  import opened Base
  import opened Registry

  datatype TaskState = Pending | Claimed | Finished

  datatype Task = Task(
    queue: string, payload: string, author: string, priority: int, createdAt: int,
    state: TaskState,
    leaseAgent: Option<string>, leaseToken: Option<Token>, leaseExpiresAt: Option<int>)

  /** By autoincrement id. */
  type Rows = map<nat, Task>

  const DEFAULT_LEASE_SECONDS: int := 120

  predicate Unleased(t: Task) {
    t.leaseAgent.None? && t.leaseToken.None? && t.leaseExpiresAt.None?
  }

  predicate Leased(t: Task) {
    t.leaseAgent.Some? && t.leaseToken.Some? && t.leaseExpiresAt.Some?
  }

  /** Ids lie below the next one, and the lease columns are null exactly while pending. */
  ghost predicate WellKept(rows: Rows, nextId: nat) {
    && nextId > 0
    && (forall id | id in rows :: 0 < id < nextId)
    && (forall id | id in rows :: if rows[id].state.Pending? then Unleased(rows[id]) else Leased(rows[id]))
  }

  // ----- the transactions -----

  function NewTask(queue: string, payload: string, author: string, priority: int, now: int): Task {
    Task(queue, payload, author, priority, now, Pending, None, None, None)
  }

  predicate Waits(rows: Rows, queue: string, id: nat) {
    id in rows && rows[id].queue == queue && rows[id].state.Pending?
  }

  /** Higher priority first, then the older id. */
  predicate Ahead(rows: Rows, a: nat, b: nat) {
    && a in rows && b in rows
    && (rows[a].priority > rows[b].priority || (rows[a].priority == rows[b].priority && a < b))
  }

  ghost predicate IsNext(rows: Rows, queue: string, id: nat) {
    Waits(rows, queue, id) && forall other | Waits(rows, queue, other) && other != id :: Ahead(rows, id, other)
  }

  function Lease(t: Task, agent: string, token: Token, expiresAt: int): Task {
    t.(state := Claimed, leaseAgent := Some(agent), leaseToken := Some(token), leaseExpiresAt := Some(expiresAt))
  }

  function Claim(rows: Rows, id: nat, agent: string, token: Token, expiresAt: int): Rows
    requires id in rows
  {
    rows[id := Lease(rows[id], agent, token, expiresAt)]
  }

  /** The row is claimed under this very token. */
  predicate HeldUnder(rows: Rows, id: nat, token: Token) {
    token != "" && id in rows && rows[id].state.Claimed? && rows[id].leaseToken == Some(token)
  }

  function Back(t: Task): Task {
    t.(state := Pending, leaseAgent := None, leaseToken := None, leaseExpiresAt := None)
  }

  function Finish(rows: Rows, id: nat, token: Token): Rows {
    if HeldUnder(rows, id, token) then rows[id := rows[id].(state := Finished)] else rows
  }

  function Requeue(rows: Rows, id: nat, token: Token): Rows {
    if HeldUnder(rows, id, token) then rows[id := Back(rows[id])] else rows
  }

  predicate MayExtend(rows: Rows, id: nat, token: Token, seconds: int, now: int) {
    seconds > 0 && HeldUnder(rows, id, token) && rows[id].leaseExpiresAt.Some? && rows[id].leaseExpiresAt.value > now
  }

  function Extend(rows: Rows, id: nat, token: Token, seconds: int, now: int): Rows {
    if MayExtend(rows, id, token, seconds, now)
    then rows[id := rows[id].(leaseExpiresAt := Some(now + seconds))]
    else rows
  }

  /** The lease has run out, or the claimant has no unexpired registration. */
  predicate Orphaned(t: Task, agents: Agents, now: int) {
    && t.state.Claimed?
    && (|| (t.leaseExpiresAt.Some? && t.leaseExpiresAt.value <= now)
        || (t.leaseAgent.Some? && !Present(agents, t.leaseAgent.value, now)))
  }

  function Reap(rows: Rows, agents: Agents, now: int): Rows {
    map id | id in rows :: if Orphaned(rows[id], agents, now) then Back(rows[id]) else rows[id]
  }

  // ----- what later readers of the table see -----

  /** A claim, a renewal, a finish and a return, by which claims they leave: `k` holds the
      claim of task `j` afterwards if and only if it is given out or was held and not
      ended, and the task is pending if and only if it was and is not claimed, or is
      returned. */
  lemma ClaimsSeenBy(rows: Rows, id: nat, agent: string, token: Token, expiresAt: int, j: nat, k: Token, queue: string)
    requires id in rows && rows[id].state.Pending? && token != ""
    ensures HeldUnder(Claim(rows, id, agent, token, expiresAt), j, k)
        <==> if j == id then k == token else HeldUnder(rows, j, k)
    ensures HeldUnder(Finish(rows, j, token), id, k) <==> HeldUnder(rows, id, k) && !(j == id && k == token)
    ensures Waits(Claim(rows, id, agent, token, expiresAt), queue, j) <==> j != id && Waits(rows, queue, j)
    ensures HeldUnder(rows, j, k) <==> k != "" && j in rows && rows[j].state.Claimed? && rows[j].leaseToken == Some(k)
  {
  }

  /** Ending a claim: it takes the claim's own token, and then the task is finished for
      good or pending again; whoever shows another token changes nothing. */
  lemma EndsSeenBy(rows: Rows, id: nat, token: Token, j: nat, k: Token)
    ensures Finish(rows, id, token) != rows <==> HeldUnder(rows, id, token)
    ensures Requeue(rows, id, token) != rows <==> HeldUnder(rows, id, token)
    ensures HeldUnder(rows, id, token) ==> Finish(rows, id, token)[id].state.Finished?
                                           && Requeue(rows, id, token)[id].state.Pending?
    ensures HeldUnder(Finish(rows, id, token), j, k) <==> HeldUnder(rows, j, k) && !(j == id && k == token)
    ensures HeldUnder(Requeue(rows, id, token), j, k) <==> HeldUnder(rows, j, k) && !(j == id && k == token)
  {
    if HeldUnder(rows, id, token) {
      assert Finish(rows, id, token)[id] != rows[id] && Requeue(rows, id, token)[id] != rows[id];
    }
  }

  /** How long a lease lasts: a claim survives a reap at `m` exactly while the lease runs,
      from the claim or from its last renewal, and its claimant is registered past `m`. */
  lemma LeaseLasts(rows: Rows, agents: Agents, id: nat, agent: string, token: Token, expiresAt: int, m: int)
    requires id in rows && token != ""
    ensures HeldUnder(Reap(Claim(rows, id, agent, token, expiresAt), agents, m), id, token)
        <==> m < expiresAt && agent in agents && m < agents[agent].expiresAt
  {
  }

  /** A renewal in time, with the claim's token and a positive length, succeeds, and the
      lease then runs for that long from the second read; any other changes nothing. */
  lemma RenewalExtends(rows: Rows, agents: Agents, id: nat, token: Token, seconds: int, now: int, m: int)
    requires HeldUnder(rows, id, token) && Leased(rows[id])
    ensures MayExtend(rows, id, token, seconds, now) <==> seconds > 0 && now < rows[id].leaseExpiresAt.value
    ensures MayExtend(rows, id, token, seconds, now) ==>
              (HeldUnder(Reap(Extend(rows, id, token, seconds, now), agents, m), id, token)
               <==> m < now + seconds && Present(agents, rows[id].leaseAgent.value, m))
    ensures !MayExtend(rows, id, token, seconds, now) ==> Extend(rows, id, token, seconds, now) == rows
    ensures forall j | j in rows && j != id :: Extend(rows, id, token, seconds, now)[j] == rows[j]
  {
  }

  // ----- claims drain a queue in order -----

  ghost function PendingIn(rows: Rows, queue: string): set<nat> {
    set id | id in rows && Waits(rows, queue, id)
  }

  /** A claimed task failed with requeue leaves the table as it was before the claim,
      so the task is back in its place in the claim order. */
  lemma FailedClaimUndone(rows: Rows, nextId: nat, id: nat, agent: string, token: Token, expiresAt: int)
    requires WellKept(rows, nextId) && id in rows && rows[id].state.Pending? && token != ""
    ensures Requeue(Claim(rows, id, agent, token, expiresAt), id, token) == rows
  {
    assert Back(Lease(rows[id], agent, token, expiresAt)) == rows[id];
  }

  /** One successful claim: the task picked and the lease given for it. */
  datatype Pick = Pick(id: nat, agent: string, token: Token, expiresAt: int)

  function Picked(rows: Rows, pick: Pick): Rows
    requires pick.id in rows
  {
    Claim(rows, pick.id, pick.agent, pick.token, pick.expiresAt)
  }

  /** What repeated claims on `queue` hand out until nothing is pending. */
  ghost predicate Drains(rows: Rows, queue: string, picks: seq<Pick>)
    decreases |picks|
  {
    if picks == [] then PendingIn(rows, queue) == {}
    else IsNext(rows, queue, picks[0].id) && Drains(Picked(rows, picks[0]), queue, picks[1..])
  }

  lemma ClaimLeavesTheRest(rows: Rows, queue: string, id: nat, agent: string, token: Token, expiresAt: int)
    requires Waits(rows, queue, id)
    ensures PendingIn(Claim(rows, id, agent, token, expiresAt), queue) == PendingIn(rows, queue) - {id}
    ensures |PendingIn(Claim(rows, id, agent, token, expiresAt), queue)| == |PendingIn(rows, queue)| - 1
  {
    var rows' := Claim(rows, id, agent, token, expiresAt);
    assert forall j :: Waits(rows', queue, j) <==> Waits(rows, queue, j) && j != id;
    assert PendingIn(rows', queue) == PendingIn(rows, queue) - {id};
  }

  /** A drain claims every pending task once, by priority, then age. */
  lemma DrainOrder(rows: Rows, queue: string, picks: seq<Pick>)
    requires Drains(rows, queue, picks)
    ensures |picks| == |PendingIn(rows, queue)|
    ensures forall i :: 0 <= i < |picks| ==> picks[i].id in PendingIn(rows, queue)
    ensures forall id | id in PendingIn(rows, queue) :: exists i :: 0 <= i < |picks| && picks[i].id == id
    ensures forall i, j :: 0 <= i < j < |picks| ==>
              && rows[picks[i].id].priority >= rows[picks[j].id].priority
              && (rows[picks[i].id].priority == rows[picks[j].id].priority ==> picks[i].id < picks[j].id)
  {
    DrainAhead(rows, queue, picks);
    assert forall i, j :: 0 <= i < j < |picks| ==> Ahead(rows, picks[i].id, picks[j].id);
  }

  lemma {:induction false} DrainAhead(rows: Rows, queue: string, picks: seq<Pick>)
    requires Drains(rows, queue, picks)
    ensures |picks| == |PendingIn(rows, queue)|
    ensures forall i :: 0 <= i < |picks| ==> picks[i].id in PendingIn(rows, queue)
    ensures forall id | id in PendingIn(rows, queue) :: exists i :: 0 <= i < |picks| && picks[i].id == id
    ensures forall i, j :: 0 <= i < j < |picks| ==> Ahead(rows, picks[i].id, picks[j].id)
    decreases |picks|
  {
    if picks != [] {
      var first, rest := picks[0], picks[1..];
      var rows' := Picked(rows, first);
      ClaimLeavesTheRest(rows, queue, first.id, first.agent, first.token, first.expiresAt);
      DrainAhead(rows', queue, rest);
      assert forall i :: 0 < i < |picks| ==> picks[i] == rest[i - 1];
      forall i, j | 0 <= i < j < |picks| ensures Ahead(rows, picks[i].id, picks[j].id) {
        assert rest[j - 1].id in PendingIn(rows', queue);
        if i > 0 { assert Ahead(rows', rest[i - 1].id, rest[j - 1].id) && rest[i - 1].id in PendingIn(rows', queue); }
      }
      forall id | id in PendingIn(rows, queue) ensures exists i :: 0 <= i < |picks| && picks[i].id == id {
        if id == first.id {
          assert picks[0].id == id;
        } else {
          assert id in PendingIn(rows', queue);
          var i :| 0 <= i < |rest| && rest[i].id == id;
          assert picks[i + 1].id == id;
        }
      }
    }
  }

  /** Among waiting tasks one comes first. */
  lemma {:induction false} NextExists(rows: Rows, queue: string, among: set<nat>) returns (id: nat)
    requires among != {} && among <= PendingIn(rows, queue)
    ensures id in among && forall other | other in among && other != id :: Ahead(rows, id, other)
    decreases |among|
  {
    var x :| x in among;
    if among - {x} == {} {
      id := x;
      assert among == {x};
    } else {
      var y := NextExists(rows, queue, among - {x});
      id := if Ahead(rows, x, y) then x else y;
      assert forall other | other in among && other != x :: other in among - {x};
    }
  }

  /** Repeated claims do come to an end, whatever is pending. */
  lemma {:induction false} DrainExists(rows: Rows, queue: string, agent: string, token: Token, expiresAt: int)
    returns (picks: seq<Pick>)
    ensures Drains(rows, queue, picks)
    decreases |PendingIn(rows, queue)|
  {
    if PendingIn(rows, queue) == {} {
      picks := [];
    } else {
      var id := NextExists(rows, queue, PendingIn(rows, queue));
      ClaimLeavesTheRest(rows, queue, id, agent, token, expiresAt);
      var rest := DrainExists(Claim(rows, id, agent, token, expiresAt), queue, agent, token, expiresAt);
      picks := [Pick(id, agent, token, expiresAt)] + rest;
    }
  }
}
