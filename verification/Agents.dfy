/** The map from container ids to the agents that resize them. A lookup of an id without an entry leaves an empty one
    behind, and recording an agent does not overwrite what is there. */
module Agents {
  import opened Containers

  datatype AgentEntry = Empty | Linked

  type AgentMap = map<ContainerId, AgentEntry>

  predicate HasAgent(agents: AgentMap, id: ContainerId) {
    id in agents && agents[id].Linked?
  }

  function LookUp(agents: AgentMap, id: ContainerId): AgentMap {
    if id in agents then agents else agents[id := Empty]
  }

  function LookUpAll(agents: AgentMap, ids: set<ContainerId>): AgentMap {
    map id | id in agents.Keys + ids :: if id in agents then agents[id] else Empty
  }

  function AddAgent(agents: AgentMap, id: ContainerId): AgentMap {
    if id in agents then agents else agents[id := Linked]
  }

  lemma LookUpNone(agents: AgentMap)
    ensures LookUpAll(agents, {}) == agents
  {
  }

  lemma LookUpMore(agents: AgentMap, ids: set<ContainerId>, id: ContainerId)
    ensures LookUp(LookUpAll(agents, ids), id) == LookUpAll(agents, ids + {id})
  {
  }

  /** Looking up ids changes nobody's agent. */
  lemma LookUpKeepsAgents(agents: AgentMap, ids: set<ContainerId>, id: ContainerId)
    ensures HasAgent(LookUpAll(agents, ids), id) <==> HasAgent(agents, id)
    ensures HasAgent(LookUp(agents, id), id) <==> HasAgent(agents, id)
  {
  }
}
