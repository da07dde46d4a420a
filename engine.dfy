/** The engine, seen only through the action/outcome protocol: it performs
    actions, ticks the simulation time forward and reports where an agent's
    bodies are. The physics behind it is not modelled: every answer the
    engine gives is a fixed function of the history of what happened so far,
    supplied when the engine is built. */
module Engines {
  import opened Wrappers
  import opened Geometry
  import opened Actions

  /** One entry of the engine's history. */
  datatype Event = Performed(action: Action, caller: Option<AgentId>) | Ticked

  /** What tick() returns: the time reached and the world's history. */
  datatype Snapshot = Snapshot(t: real, history: seq<Event>)

  class Engine {
    var t: real
    var history: seq<Event>
    /** Every tick advances the time by at least this much. */
    const minStep: real
    /** The time after a tick, given the time before it. */
    const advance: real -> real
    /** The outcome of performing an action after the given history. */
    const respond: (seq<Event>, Action) -> Option<Value>
    /** The bounding box of an agent's bodies after the given history. */
    const agentBox: (seq<Event>, AgentId) -> BoundingBox
    /** The polygons of an agent's bodies after the given history. */
    const agentPolys: (seq<Event>, AgentId) -> seq<Poly>

    ghost predicate Valid() {
      0.0 < minStep && forall x :: advance(x) >= x + minStep
    }

    constructor (t0: real, minStep: real, advance: real -> real,
                 respond: (seq<Event>, Action) -> Option<Value>,
                 agentBox: (seq<Event>, AgentId) -> BoundingBox,
                 agentPolys: (seq<Event>, AgentId) -> seq<Poly>)
      ensures this.t == t0 && this.history == []
      ensures this.minStep == minStep && this.advance == advance && this.respond == respond
      ensures this.agentBox == agentBox && this.agentPolys == agentPolys
    {
      this.t := t0;
      this.history := [];
      this.minStep := minStep;
      this.advance := advance;
      this.respond := respond;
      this.agentBox := agentBox;
      this.agentPolys := agentPolys;
    }

    /** perform(action, agent): the outcome, absent when the action failed. */
    method Perform(a: Action, caller: Option<AgentId>) returns (o: Option<Value>)
      modifies this
      ensures history == old(history) + [Performed(a, caller)] && t == old(t)
      ensures o == respond(old(history), a)
    {
      o := respond(history, a);
      history := history + [Performed(a, caller)];
    }

    /** tick(): one simulation step. */
    method Tick() returns (s: Snapshot)
      modifies this
      ensures history == old(history) + [Ticked] && t == advance(old(t))
      ensures s == Snapshot(t, history)
    {
      t := advance(t);
      history := history + [Ticked];
      s := Snapshot(t, history);
    }

    /** The current bounding box of an agent (Agent.boundingBox()). */
    function BoundingBoxOf(agent: AgentId): BoundingBox
      reads this
    {
      agentBox(history, agent)
    }

    /** The current polygons of an agent's bodies. */
    function PolysOf(agent: AgentId): seq<Poly>
      reads this
    {
      agentPolys(history, agent)
    }
  }
}
