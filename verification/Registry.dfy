/** The `agents` table: who is registered, and until when. */
module Registry {

  datatype Agent = Agent(registeredAt: int, expiresAt: int)

  type Agents = map<string, Agent>

  predicate Present(agents: Agents, agent: string, now: int) {
    agent in agents && agents[agent].expiresAt > now
  }

  /** First registration, or a heartbeat that keeps the original registration second. */
  function Register(agents: Agents, agent: string, ttl: int, now: int): Agents {
    agents[agent := Agent(if agent in agents then agents[agent].registeredAt else now, now + ttl)]
  }

  function Expired(agents: Agents, now: int): set<string> {
    set a | a in agents && agents[a].expiresAt <= now
  }

  /** A heartbeat, by what any reader sees afterwards: its agent is present until the ttl
      from the second read runs out, first seen when it was first registered, and every
      other registration is as it was. */
  lemma HeartbeatSeenBy(agents: Agents, agent: string, ttl: int, now: int, a: string, m: int)
    ensures var after := Register(agents, agent, ttl, now);
            && (Present(after, a, m) <==> if a == agent then m < now + ttl else Present(agents, a, m))
            && (a in after <==> a == agent || a in agents)
            && (a in agents ==> after[a].registeredAt == agents[a].registeredAt)
            && (agent !in agents ==> after[agent].registeredAt == now)
            && (a in agents && a != agent ==> after[a] == agents[a])
  {
  }

  /** The reaper selects exactly the registered who are not present at its second, and
      nobody who reads that second or later misses them. */
  lemma SelectionSeenBy(agents: Agents, now: int, a: string, m: int)
    requires m >= now
    ensures a in Expired(agents, now) <==> a in agents && !Present(agents, a, now)
    ensures Present(agents - Expired(agents, now), a, m) <==> Present(agents, a, m)
    ensures Present(agents, a, m) <==> a in agents && m < agents[a].expiresAt
  {
  }
}
