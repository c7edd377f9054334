/** The presence manager as a mutable object: heartbeats, departures, and the reaper
    that frees the locks of agents whose registration has lapsed. */
module PresenceManagers {
  import opened Base
  import opened Names
  import opened LockTable
  import opened Registry
  import opened LockManagers

  /** The names held by any of `gone`. */
  function HeldByAny(t: Table, gone: set<string>): set<string> {
    set n | n in t && t[n].agent in gone
  }

  datatype AgentView = AgentView(agentID: string, remaining: int)

  class PresenceManager {
    var agents: Agents
    const locks: LockManager

    constructor (locks: LockManager)
      ensures agents == map[] && this.locks == locks
    {
      agents, this.locks := map[], locks;
    }

    method Register(agentID: string, ttl: int, now: int) returns (ok: bool)
      modifies `agents
      ensures ok <==> ttl > 0
      ensures agents == if ok then Registry.Register(old(agents), agentID, ttl, now) else old(agents)
      ensures forall a | a != agentID ::
                (a in agents <==> a in old(agents)) && (a in agents ==> agents[a] == old(agents)[a])
      ensures ok ==> agentID in agents && agents[agentID].expiresAt == now + ttl
    {
      if ttl <= 0 { return false; }
      var expiresAt := now + ttl;
      if agentID in agents {
        agents := agents[agentID := agents[agentID].(expiresAt := expiresAt)];
      } else {
        agents := agents[agentID := Agent(now, expiresAt)];
      }
      ok := true;
    }

    /** A graceful exit: frees the agent's locks, waking the lines, and forgets it. */
    method Unregister(agentID: string)
      requires locks.Valid()
      modifies `agents, locks`table, locks.made
      ensures locks.Valid()
      ensures agents == old(agents) - {agentID}
      ensures locks.table == ReleaseAgent(old(locks.table), agentID)
      ensures forall n :: locks.LineOf(n) == old(locks.LineOf(n))
      ensures forall w | w in locks.made ::
                w.signalled == (old(w.signalled) || (w.home in HeldBy(old(locks.table), agentID) && locks.Leads(w)))
    {
      var _ := locks.ReleaseAgentLocks(agentID);
      agents := agents - {agentID};
    }

    /** First half of the reaper: who has lapsed at `now`. */
    method SelectExpired(now: int) returns (expired: set<string>)
      ensures expired == Expired(agents, now)
    {
      expired := set a | a in agents && agents[a].expiresAt <= now;
    }

    /** Second half: for each selected agent, whatever its registration says by now,
        free its locks, wake the lines and delete its row. */
    method ReapAgents(expired: set<string>)
      requires locks.Valid()
      modifies `agents, locks`table, locks.made
      ensures locks.Valid()
      ensures agents == old(agents) - expired
      ensures locks.table == old(locks.table) - HeldByAny(old(locks.table), expired)
      ensures forall n :: locks.LineOf(n) == old(locks.LineOf(n))
      ensures forall w | w in locks.made ::
                w.signalled == (old(w.signalled)
                                || (w.home in HeldByAny(old(locks.table), expired) && locks.Leads(w)))
    {
      var todo := expired;
      while todo != {}
        invariant locks.Valid() && todo <= expired
        invariant agents == old(agents) - (expired - todo)
        invariant locks.table == old(locks.table) - HeldByAny(old(locks.table), expired - todo)
        invariant forall n :: locks.LineOf(n) == old(locks.LineOf(n))
        invariant forall w | w in locks.made ::
                    w.signalled == (old(w.signalled)
                                    || (w.home in HeldByAny(old(locks.table), expired - todo) && locks.Leads(w)))
        decreases |todo|
      {
        var id :| id in todo;
        ReleaseNext(old(locks.table), locks.table, expired - todo, id);
        Unregister(id);
        assert expired - (todo - {id}) == (expired - todo) + {id};
        todo := todo - {id};
      }
      assert expired - todo == expired;
    }

    /** One tick with nothing in between the two halves. */
    method ReapOnce(now: int)
      requires locks.Valid()
      modifies `agents, locks`table, locks.made
      ensures locks.Valid()
      ensures agents == old(agents) - Expired(old(agents), now)
      ensures locks.table == old(locks.table) - HeldByAny(old(locks.table), Expired(old(agents), now))
      ensures forall n :: locks.LineOf(n) == old(locks.LineOf(n))
      ensures forall n | n in HeldByAny(old(locks.table), Expired(old(agents), now)) && locks.Waiters(n) != [] ::
                locks.Waiters(n)[0].signalled
    {
      var expired := SelectExpired(now);
      ReapAgents(expired);
      assert forall n | locks.Waiters(n) != [] :: locks.Waiters(n)[0] in locks.Waiters(n);
    }

    /** Everyone registered and not lapsed, by agent id. */
    method ListAgents(now: int) returns (out: seq<AgentView>)
      ensures forall i, j :: 0 <= i < j < |out| ==> Less(out[i].agentID, out[j].agentID)
      ensures forall i :: 0 <= i < |out| ==>
                && Present(agents, out[i].agentID, now)
                && out[i].remaining == agents[out[i].agentID].expiresAt - now
      ensures forall a | Present(agents, a, now) :: exists i :: 0 <= i < |out| && out[i].agentID == a
    {
      var ids := SortedKeys(set a | a in agents && agents[a].expiresAt > now);
      out := [];
      for i := 0 to |ids|
        invariant |out| == i
        invariant forall j :: 0 <= j < i ==>
                    && ids[j] in agents && out[j].agentID == ids[j]
                    && out[j].remaining == agents[ids[j]].expiresAt - now
      {
        assert ids[i] in Elements(ids);
        out := out + [AgentView(ids[i], SecsLeft(agents[ids[i]].expiresAt, now))];
      }
      forall a | Present(agents, a, now) ensures exists i :: 0 <= i < |out| && out[i].agentID == a {
        assert a in Elements(ids);
        var i :| 0 <= i < |ids| && ids[i] == a;
        assert out[i].agentID == a;
      }
      assert forall i :: 0 <= i < |ids| ==> ids[i] in Elements(ids);
    }
  }

  lemma ReleaseNext(start: Table, t: Table, done: set<string>, id: string)
    requires t == start - HeldByAny(start, done)
    ensures ReleaseAgent(t, id) == start - HeldByAny(start, done + {id})
    ensures HeldBy(t, id) == HeldByAny(start, done + {id}) - HeldByAny(start, done)
  {
  }
}
