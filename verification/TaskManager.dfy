/** The task manager as a mutable object over the tasks table. */
module TaskManagers {
  import opened Base
  import opened Registry
  import opened Tasks

  /** A row as clients see it. */
  datatype TaskView = TaskView(id: nat, queue: string, payload: string, author: string, priority: int,
                               state: TaskState, leaseAgent: string, leaseRemaining: int)

  /** Lease details are shown only while the task is claimed. */
  ghost predicate Shows(v: TaskView, id: nat, t: Task, now: int) {
    && v.id == id && v.queue == t.queue && v.payload == t.payload && v.author == t.author
    && v.priority == t.priority && v.state == t.state
    && (if t.state.Claimed?
        then t.leaseAgent == Some(v.leaseAgent) && t.leaseExpiresAt.Some?
             && v.leaseRemaining == SecsLeft(t.leaseExpiresAt.value, now)
        else v.leaseAgent == "" && v.leaseRemaining == 0)
  }

  /** No other pending task of the queue has a higher priority, or the same and a lower id. */
  ghost predicate Foremost(rows: Rows, queue: string, id: nat)
    requires id in rows
  {
    forall other | other in rows && rows[other].queue == queue && rows[other].state.Pending? && other != id ::
      && rows[id].priority >= rows[other].priority
      && (rows[id].priority == rows[other].priority ==> id < other)
  }

  lemma NextIsForemost(rows: Rows, queue: string, id: nat)
    requires IsNext(rows, queue, id)
    ensures Foremost(rows, queue, id)
  {
    forall other | other in rows && rows[other].queue == queue && rows[other].state.Pending? && other != id
      ensures Ahead(rows, id, other)
    {
      assert Waits(rows, queue, other);
    }
  }

  class TaskManager {
    var rows: Rows
    var nextId: nat

    constructor ()
      ensures Valid() && rows == map[] && nextId == 1
    {
      rows, nextId := map[], 1;
    }

    ghost predicate Valid()
      reads this
    {
      WellKept(rows, nextId)
    }

    method Push(queue: string, payload: string, author: string, priority: int, now: int) returns (id: nat)
      requires Valid()
      modifies this
      ensures Valid()
      ensures id !in old(rows) && (forall other | other in old(rows) :: other < id) && id < nextId
      ensures rows == old(rows)[id := NewTask(queue, payload, author, priority, now)]
      ensures Waits(rows, queue, id) && rows[id].payload == payload && rows[id].author == author
      ensures rows[id].priority == priority && rows[id].createdAt == now
    {
      id := nextId;
      rows := rows[id := NewTask(queue, payload, author, priority, now)];
      nextId := nextId + 1;
    }

    /** The pending task of `queue` to hand out next: highest priority, then oldest. */
    method SelectNext(queue: string) returns (best: Option<nat>)
      requires Valid()
      ensures best.None? ==> PendingIn(rows, queue) == {}
      ensures best.Some? ==> IsNext(rows, queue, best.value)
      ensures best.Some? ==> Waits(rows, queue, best.value) && Foremost(rows, queue, best.value)
    {
      best := None;
      for id := 1 to nextId
        invariant best.None? ==> forall i | 0 < i < id :: !Waits(rows, queue, i)
        invariant best.Some? ==> Waits(rows, queue, best.value) && 0 < best.value < id
                                 && forall i | 0 < i < id && Waits(rows, queue, i) && i != best.value ::
                                      Ahead(rows, best.value, i)
      {
        if Waits(rows, queue, id) && (best.None? || rows[id].priority > rows[best.value].priority) {
          best := Some(id);
        }
      }
      if best.Some? { NextIsForemost(rows, queue, best.value); }
    }

    method ClaimNext(queue: string, agentID: string, leaseSeconds: int, now: int, token: Token)
      returns (claimed: Option<TaskView>)
      requires Valid()
      modifies `rows
      ensures Valid()
      ensures claimed.None? <==> old(PendingIn(rows, queue)) == {}
      ensures claimed.None? ==> rows == old(rows)
      ensures claimed.Some? ==>
                && Waits(old(rows), queue, claimed.value.id) && Foremost(old(rows), queue, claimed.value.id)
                && claimed.value.leaseAgent == agentID
                && rows == Claim(old(rows), claimed.value.id, agentID, token, now + claimed.value.leaseRemaining)
                && Shows(claimed.value, claimed.value.id, rows[claimed.value.id], now)
                && claimed.value.leaseRemaining == if leaseSeconds <= 0 then 120 else leaseSeconds
    {
      var seconds := if leaseSeconds <= 0 then DEFAULT_LEASE_SECONDS else leaseSeconds;
      var best := SelectNext(queue);
      if best.None? { return None; }
      var id := best.value;
      assert id in PendingIn(rows, queue);
      var t := rows[id];
      rows := rows[id := t.(state := Claimed, leaseAgent := Some(agentID), leaseToken := Some(token),
                            leaseExpiresAt := Some(now + seconds))];
      claimed := Some(TaskView(id, queue, t.payload, t.author, t.priority, Claimed, agentID, seconds));
    }

    /** The guarded change behind completing and failing. */
    method Transition(id: nat, leaseToken: Token, newState: TaskState, clearLease: bool) returns (changed: bool)
      requires Valid() && (if clearLease then newState.Pending? else newState.Finished?)
      modifies `rows
      ensures Valid()
      ensures changed == HeldUnder(old(rows), id, leaseToken)
      ensures rows == if clearLease then Requeue(old(rows), id, leaseToken) else Finish(old(rows), id, leaseToken)
    {
      if leaseToken == "" { return false; }
      changed := id in rows && rows[id].state.Claimed? && rows[id].leaseToken == Some(leaseToken);
      if changed {
        if clearLease {
          rows := rows[id := rows[id].(state := newState, leaseAgent := None, leaseToken := None,
                                       leaseExpiresAt := None)];
        } else {
          rows := rows[id := rows[id].(state := newState)];
        }
      }
    }

    method Complete(id: nat, leaseToken: Token) returns (ok: bool)
      requires Valid()
      modifies `rows
      ensures Valid()
      ensures ok == HeldUnder(old(rows), id, leaseToken) && rows == Finish(old(rows), id, leaseToken)
    {
      ok := Transition(id, leaseToken, Finished, false);
    }

    method Fail(id: nat, leaseToken: Token, requeue: bool) returns (ok: bool)
      requires Valid()
      modifies `rows
      ensures Valid()
      ensures ok == HeldUnder(old(rows), id, leaseToken)
      ensures rows == if requeue then Requeue(old(rows), id, leaseToken) else Finish(old(rows), id, leaseToken)
    {
      if requeue {
        ok := Transition(id, leaseToken, Pending, true);
      } else {
        ok := Transition(id, leaseToken, Finished, false);
      }
    }

    method RenewLease(id: nat, leaseToken: Token, leaseSeconds: int, now: int) returns (ok: bool)
      requires Valid()
      modifies `rows
      ensures Valid()
      ensures ok == MayExtend(old(rows), id, leaseToken, leaseSeconds, now)
      ensures rows == Extend(old(rows), id, leaseToken, leaseSeconds, now)
    {
      if leaseToken == "" || leaseSeconds <= 0 { return false; }
      ok := id in rows && rows[id].state.Claimed? && rows[id].leaseToken == Some(leaseToken)
         && rows[id].leaseExpiresAt.Some? && rows[id].leaseExpiresAt.value > now;
      if ok {
        rows := rows[id := rows[id].(leaseExpiresAt := Some(now + leaseSeconds))];
      }
    }

    /** Returns the orphaned claims to the pool, one guarded update over the table. */
    method ReapOnce(agents: Agents, now: int)
      requires Valid()
      modifies `rows
      ensures Valid()
      ensures rows == Reap(old(rows), agents, now)
    {
      ghost var was := rows;
      for id := 0 to nextId
        invariant Valid() && rows.Keys == was.Keys && nextId == old(nextId)
        invariant forall i | i in rows ::
                    rows[i] == if i < id && Orphaned(was[i], agents, now) then Back(was[i]) else was[i]
      {
        if id in rows && Orphaned(rows[id], agents, now) {
          rows := rows[id := Back(rows[id])];
        }
      }
    }

    /** A task of `queue`, as clients see it. */
    ghost predicate Lists(v: TaskView, queue: string, now: int)
      reads this
    {
      v.id in rows && rows[v.id].queue == queue && Shows(v, v.id, rows[v.id], now)
    }

    /** Every task of `queue`, oldest first. */
    method List(queue: string, now: int) returns (out: seq<TaskView>)
      requires Valid()
      ensures forall i, j :: 0 <= i < j < |out| ==> out[i].id < out[j].id
      ensures forall i :: 0 <= i < |out| ==> Lists(out[i], queue, now)
      ensures forall id | id in rows && rows[id].queue == queue :: exists i :: 0 <= i < |out| && out[i].id == id
    {
      out := [];
      for id := 0 to nextId
        invariant forall i, j :: 0 <= i < j < |out| ==> out[i].id < out[j].id
        invariant forall i :: 0 <= i < |out| ==> out[i].id < id && Lists(out[i], queue, now)
        invariant forall k | k in rows && k < id && rows[k].queue == queue ::
                    exists i :: 0 <= i < |out| && out[i].id == k
      {
        if id in rows && rows[id].queue == queue {
          var t := rows[id];
          var v := TaskView(id, t.queue, t.payload, t.author, t.priority, t.state,
                            if t.state.Claimed? then t.leaseAgent.value else "",
                            if t.state.Claimed? then SecsLeft(t.leaseExpiresAt.value, now) else 0);
          ghost var was := out;
          out := out + [v];
          assert out[|was|].id == id;
          assert forall i :: 0 <= i < |was| ==> out[i] == was[i];
        }
      }
    }
  }
}
