/** `AgentRegistry` (src/App.tsx): a JavaScript `Map` from agent id to agent.
    A `Map` remembers the order in which keys were first set, so the registry
    is an insertion-ordered map: the ids in first-insertion order plus the
    map itself. */
module AgentRegistry {
  import opened Wrappers
  import opened Agents

  datatype Registry = Registry(order: seq<string>, agents: map<string, Agent>)

  /** `order` lists each key of `agents` exactly once, and every agent is
      filed under its own id. */
  ghost predicate Valid(r: Registry) {
    && (forall i, j :: 0 <= i < j < |r.order| ==> r.order[i] != r.order[j])
    && (forall id :: id in r.agents <==> id in r.order)
    && (forall id :: id in r.agents ==> r.agents[id].id == id)
  }

  /** The registry before anything is registered. */
  function Empty(): (r: Registry)
    ensures Valid(r)
    ensures forall id :: Find(r, id) == None
    ensures List(r) == []
  {
    Registry([], map[])
  }

  /** `register(agent)`: `Map.set(agent.id, agent)`. */
  function Register(r: Registry, a: Agent): (r': Registry)
    ensures Valid(r) ==> Valid(r')
    // last write wins
    ensures Find(r', a.id) == Some(a)
    // nothing else changes
    ensures forall y :: y != a.id ==> Find(r', y) == Find(r, y)
    // a known id keeps its place; a new id goes to the end
    ensures a.id in r.agents ==> r'.order == r.order
    ensures a.id !in r.agents ==> r'.order == r.order + [a.id]
  {
    var agents' := r.agents[a.id := a];
    if a.id in r.agents then Registry(r.order, agents') else Registry(r.order + [a.id], agents')
  }

  /** `find(id)`: absent, not an error, for an id never registered. */
  function Find(r: Registry, id: string): (o: Option<Agent>)
    ensures o.None? <==> id !in r.agents
    ensures o.Some? ==> o.value == r.agents[id]
  {
    if id in r.agents then Some(r.agents[id]) else None
  }

  /** `list()`: `Array.from(map.values())`, in first-insertion order. */
  function List(r: Registry): (s: seq<Agent>)
    requires Valid(r)
    ensures |s| == |r.order|
    // one agent per registered id, each the one `find` returns
    ensures forall i :: 0 <= i < |s| ==> s[i].id == r.order[i] && Find(r, r.order[i]) == Some(s[i])
    ensures forall i, j :: 0 <= i < j < |s| ==> s[i].id != s[j].id
    ensures forall a :: a in s <==> a.id in r.agents && Find(r, a.id) == Some(a)
  {
    seq(|r.order|, i requires 0 <= i < |r.order| => r.agents[r.order[i]])
  }

  /** Registering an agent whose id is already known keeps the list's length
      and every position; only that id's entry changes. */
  lemma RegisterKnownKeepsList(r: Registry, a: Agent)
    requires Valid(r) && a.id in r.agents
    ensures |List(Register(r, a))| == |List(r)|
    ensures forall i :: 0 <= i < |List(r)| ==>
              List(Register(r, a))[i] == (if List(r)[i].id == a.id then a else List(r)[i])
  {
  }

  /** Registering a new id appends its agent to the list. */
  lemma RegisterNewAppends(r: Registry, a: Agent)
    requires Valid(r) && a.id !in r.agents
    ensures List(Register(r, a)) == List(r) + [a]
  {
  }

  /** Registering the same agent twice is registering it once. */
  lemma RegisterTwice(r: Registry, a: Agent)
    ensures Register(Register(r, a), a) == Register(r, a)
  {
  }

  /** `n` consecutive registrations of one agent. */
  function RegisterRepeatedly(r: Registry, a: Agent, n: nat): (r': Registry)
    ensures Valid(r) ==> Valid(r')
    ensures n == 0 ==> r' == r
    ensures n > 0 ==> Find(r', a.id) == Some(a)
  {
    if n == 0 then r else Register(RegisterRepeatedly(r, a, n - 1), a)
  }

  /** Re-registering the same agent, as happens on every render, is
      idempotent: any positive number of registrations equals one. */
  lemma {:induction false} RegisterIdempotent(r: Registry, a: Agent, n: nat)
    requires n >= 1
    ensures RegisterRepeatedly(r, a, n) == Register(r, a)
  {
    if n > 1 {
      RegisterIdempotent(r, a, n - 1);
      RegisterTwice(r, a);
    }
  }

  /** The agent registered at start-up (src/App.tsx line 65). */
  const OllamaAgent := Agent("agent:ollama", "Ollama", "A simple agent that can summarize text.", ["summarize"], Llama)

  /** The registry after `renders` renders of `App`, each of which registers
      the Ollama agent again. */
  function AfterRenders(r: Registry, renders: nat): (r': Registry)
    requires renders >= 1
    ensures Valid(r) ==> Valid(r')
    ensures r' == Register(r, OllamaAgent)
    ensures Find(r', "agent:ollama") == Some(OllamaAgent)
  {
    RegisterIdempotent(r, OllamaAgent, renders);
    RegisterRepeatedly(r, OllamaAgent, renders)
  }
}
