/** The locomotion task: it builds the world (the terrain and the agent),
    places the agent just right of the terrain's left border and just above
    it, then ticks the engine until the duration is reached, handing every
    snapshot to a consumer and recording what the agent looks like after
    each tick. */
module Locomotion {
  import opened Wrappers
  import opened Geometry
  import opened Ranges
  import opened Actions
  import opened Engines

  /** The terrain, seen through the queries locomotion makes of it. */
  datatype Terrain = Terrain(
    poly: Poly,
    withinBordersXRange: DoubleRange,
    /** The highest terrain point over an x-range. */
    maxHeightAt: DoubleRange -> real,
    /** The terrain height at an x coordinate. */
    maxYAtX: real -> real)

  datatype LocomotionTask = LocomotionTask(duration: real, terrain: Terrain, initialXGap: real, initialYGap: real)

  const InitialXGap: real := 1.0
  const InitialYGap: real := 0.25

  /** Locomotion(duration, terrain): locomotion with the default gaps. */
  function DefaultTask(duration: real, terrain: Terrain): (task: LocomotionTask)
    ensures task.duration == duration && task.terrain == terrain
    ensures task.initialXGap == InitialXGap && task.initialYGap == InitialYGap
  {
    LocomotionTask(duration, terrain, InitialXGap, InitialYGap)
  }

  /** One agent as observed: the polygons of its bodies and the terrain
      height below the centre of its bounding box. */
  datatype AgentObservation = AgentObservation(polys: seq<Poly>, terrainHeight: real)

  datatype AgentsObservation = AgentsObservation(agents: seq<AgentObservation>)

  /** Whatever receives the snapshots; it keeps them in order. */
  class SnapshotConsumer {
    var accepted: seq<Snapshot>

    constructor ()
      ensures accepted == []
    {
      accepted := [];
    }

    method Accept(s: Snapshot)
      modifies this
      ensures accepted == old(accepted) + [s]
    {
      accepted := accepted + [s];
    }
  }

  function XRange(b: BoundingBox): DoubleRange {
    DoubleRange(b.min.x, b.max.x)
  }

  /** The history after the world is built and the agent placed, starting
      from h: the terrain body, the agent, a horizontal translation putting
      the left of the agent's box initialXGap right of the terrain's left
      border, and a vertical one putting its bottom initialYGap above the
      highest terrain point under its (new) x-range. */
  ghost function Placed(task: LocomotionTask, agent: AgentId,
                        agentBox: (seq<Event>, AgentId) -> BoundingBox, h: seq<Event>): seq<Event>
  {
    var h1 := h + [Performed(CreateUnmovableBody(task.terrain.poly), None), Performed(AddAgent(agent), None)];
    var bb0 := agentBox(h1, agent);
    var h2 := h1 + [Performed(TranslateAgent(agent, Point(task.terrain.withinBordersXRange.min + task.initialXGap - bb0.min.x, 0.0)), None)];
    var bb1 := agentBox(h2, agent);
    h2 + [Performed(TranslateAgent(agent, Point(0.0, task.terrain.maxHeightAt(XRange(bb1)) + task.initialYGap - bb1.min.y)), None)]
  }

  /** An engine whose agent boxes move exactly as the agent is translated. */
  ghost predicate TranslationsMove(agentBox: (seq<Event>, AgentId) -> BoundingBox, agent: AgentId) {
    forall h: seq<Event>, v: Point, c: Option<AgentId> ::
      agentBox(h + [Performed(TranslateAgent(agent, v), c)], agent) == TranslateBox(agentBox(h, agent), v)
  }

  /** With such an engine, the agent ends up with the left of its box
      initialXGap right of the border, its width unchanged, and the bottom
      of its box initialYGap above the highest terrain point under it. */
  lemma Placement(task: LocomotionTask, agent: AgentId,
                  agentBox: (seq<Event>, AgentId) -> BoundingBox, h: seq<Event>)
    requires TranslationsMove(agentBox, agent)
    ensures var h1 := h + [Performed(CreateUnmovableBody(task.terrain.poly), None), Performed(AddAgent(agent), None)];
      var bb0 := agentBox(h1, agent);
      var bb := agentBox(Placed(task, agent, agentBox, h), agent);
      bb.min.x == task.terrain.withinBordersXRange.min + task.initialXGap &&
      bb.max.x - bb.min.x == bb0.max.x - bb0.min.x &&
      bb.max.y - bb.min.y == bb0.max.y - bb0.min.y &&
      bb.min.y == task.terrain.maxHeightAt(XRange(bb)) + task.initialYGap
  {
    var h1 := h + [Performed(CreateUnmovableBody(task.terrain.poly), None), Performed(AddAgent(agent), None)];
    var bb0 := agentBox(h1, agent);
    var v1 := Point(task.terrain.withinBordersXRange.min + task.initialXGap - bb0.min.x, 0.0);
    var h2 := h1 + [Performed(TranslateAgent(agent, v1), None)];
    assert agentBox(h2, agent) == TranslateBox(bb0, v1);
    var bb1 := agentBox(h2, agent);
    var v2 := Point(0.0, task.terrain.maxHeightAt(XRange(bb1)) + task.initialYGap - bb1.min.y);
    assert agentBox(h2 + [Performed(TranslateAgent(agent, v2), None)], agent) == TranslateBox(bb1, v2);
  }

  /** The number of ticks still possible before the time t reaches d, when
      every tick advances it by at least m. */
  function Steps(d: real, m: real, t: real): (n: nat)
    requires m > 0.0
    ensures n == 0 <==> t >= d
  {
    if t >= d then 0 else ((d - t) / m).Floor + 1
  }

  lemma DivideBelow(b: real, a: real, m: real)
    requires m > 0.0 && b <= a - m
    ensures b / m <= a / m - 1.0
  {
    var x := b / m - (a / m - 1.0);
    assert x * m == b - (a - m);
  }

  lemma StepsDecrease(d: real, m: real, t: real, t': real)
    requires m > 0.0 && t < d && t' >= t + m
    ensures Steps(d, m, t') < Steps(d, m, t)
  {
    if t' < d {
      DivideBelow(d - t', d - t, m);
    }
  }

  ghost predicate Advances(advance: real -> real, minStep: real) {
    0.0 < minStep && forall x :: advance(x) >= x + minStep
  }

  /** The snapshots that ticking from time t and history h produces until
      the time reaches d. */
  ghost function Ticks(advance: real -> real, minStep: real, d: real, t: real, h: seq<Event>): seq<Snapshot>
    requires Advances(advance, minStep)
    decreases Steps(d, minStep, t)
  {
    if t >= d then []
    else
      StepsDecrease(d, minStep, t, advance(t));
      [Snapshot(advance(t), h + [Ticked])] + Ticks(advance, minStep, d, advance(t), h + [Ticked])
  }

  /** The observations recorded for the snapshots, keyed by the snapshot
      time; a later one at the same time replaces an earlier one. */
  function Observed(snaps: seq<Snapshot>, observe: seq<Event> -> AgentsObservation): map<real, AgentsObservation> {
    if snaps == [] then map[]
    else Observed(snaps[..|snaps| - 1], observe)[snaps[|snaps| - 1].t := observe(snaps[|snaps| - 1].history)]
  }

  /** What locomotion observes after a history: the agent's polygons and the
      terrain height at the x of its box centre. */
  function ObservationAt(terrain: Terrain, agentPolys: (seq<Event>, AgentId) -> seq<Poly>,
                         agentBox: (seq<Event>, AgentId) -> BoundingBox, agent: AgentId, h: seq<Event>): AgentsObservation
  {
    AgentsObservation([AgentObservation(agentPolys(h, agent), terrain.maxYAtX(BoxCenter(agentBox(h, agent)).x))])
  }

  /** The observation function locomotion records with. */
  function Observer(terrain: Terrain, agentPolys: (seq<Event>, AgentId) -> seq<Poly>,
                    agentBox: (seq<Event>, AgentId) -> BoundingBox, agent: AgentId): seq<Event> -> AgentsObservation
  {
    h => ObservationAt(terrain, agentPolys, agentBox, agent, h)
  }

  function Last(snaps: seq<Snapshot>): Snapshot
    requires snaps != []
  {
    snaps[|snaps| - 1]
  }

  /** One tick more, unfolded. */
  lemma TicksStep(advance: real -> real, minStep: real, d: real, t: real, h: seq<Event>)
    requires Advances(advance, minStep) && t < d
    ensures Ticks(advance, minStep, d, t, h) ==
      [Snapshot(advance(t), h + [Ticked])] + Ticks(advance, minStep, d, advance(t), h + [Ticked])
  {
  }

  lemma RecordStep(done: seq<Snapshot>, s: Snapshot, observe: seq<Event> -> AgentsObservation, rest: seq<Snapshot>)
    ensures Observed(done + [s], observe) == Observed(done, observe)[s.t := observe(s.history)]
    ensures Last(done + [s]) == s
    ensures done + ([s] + rest) == done + [s] + rest
  {
    assert (done + [s])[..|done|] == done;
  }

  /** One iteration of the ticking loop: tick, hand the snapshot over, and
      record the observation under the new time. */
  method TickAndRecord(engine: Engine, consumer: SnapshotConsumer, observe: seq<Event> -> AgentsObservation,
                       observations: map<real, AgentsObservation>)
    returns (observations': map<real, AgentsObservation>, snapshot: Snapshot)
    modifies engine, consumer
    ensures engine.t == engine.advance(old(engine.t)) && engine.history == old(engine.history) + [Ticked]
    ensures snapshot == Snapshot(engine.t, engine.history)
    ensures consumer.accepted == old(consumer.accepted) + [snapshot]
    ensures observations' == observations[engine.t := observe(snapshot.history)]
  {
    snapshot := engine.Tick();
    consumer.Accept(snapshot);
    observations' := observations[engine.t := observe(snapshot.history)];
  }

  /** The ticking loop of run(...). */
  method TickUntil(duration: real, engine: Engine, consumer: SnapshotConsumer, observe: seq<Event> -> AgentsObservation)
    returns (observations: map<real, AgentsObservation>)
    requires engine.Valid()
    modifies engine, consumer
    ensures var snaps := Ticks(engine.advance, engine.minStep, duration, old(engine.t), old(engine.history));
      consumer.accepted == old(consumer.accepted) + snaps &&
      observations == Observed(snaps, observe) &&
      (snaps == [] ==> engine.t == old(engine.t) && engine.history == old(engine.history)) &&
      (snaps != [] ==> engine.t == Last(snaps).t && engine.history == Last(snaps).history)
  {
    var advance, minStep := engine.advance, engine.minStep;
    assert Advances(advance, minStep);
    ghost var all := Ticks(advance, minStep, duration, engine.t, engine.history);
    ghost var done: seq<Snapshot> := [];
    observations := map[];
    while engine.t < duration
      invariant all == done + Ticks(advance, minStep, duration, engine.t, engine.history)
      invariant consumer.accepted == old(consumer.accepted) + done
      invariant observations == Observed(done, observe)
      invariant done == [] ==> engine.t == old(engine.t) && engine.history == old(engine.history)
      invariant done != [] ==> engine.t == Last(done).t && engine.history == Last(done).history
      decreases Steps(duration, minStep, engine.t)
    {
      TicksStep(advance, minStep, duration, engine.t, engine.history);
      StepsDecrease(duration, minStep, engine.t, advance(engine.t));
      var snapshot;
      observations, snapshot := TickAndRecord(engine, consumer, observe, observations);
      RecordStep(done, snapshot, observe, Ticks(advance, minStep, duration, engine.t, engine.history));
      done := done + [snapshot];
    }
    assert done == all;
  }

  /** The set-up part of run(...): builds the world and places the agent. */
  method Build(task: LocomotionTask, agent: AgentId, engine: Engine)
    modifies engine
    ensures engine.history == Placed(task, agent, engine.agentBox, old(engine.history))
    ensures engine.t == old(engine.t)
  {
    ghost var h := engine.history;
    var _ := engine.Perform(CreateUnmovableBody(task.terrain.poly), None);
    var _ := engine.Perform(AddAgent(agent), None);
    ghost var h1 := engine.history;
    assert h1 == h + [Performed(CreateUnmovableBody(task.terrain.poly), None), Performed(AddAgent(agent), None)];
    var agentBB := engine.BoundingBoxOf(agent);
    var v1 := Point(task.terrain.withinBordersXRange.min + task.initialXGap - agentBB.min.x, 0.0);
    var _ := engine.Perform(TranslateAgent(agent, v1), None);
    ghost var h2 := engine.history;
    agentBB := engine.BoundingBoxOf(agent);
    var maxY := task.terrain.maxHeightAt(XRange(agentBB));
    var v2 := Point(0.0, maxY + task.initialYGap - agentBB.min.y);
    var _ := engine.Perform(TranslateAgent(agent, v2), None);
    assert engine.history == h2 + [Performed(TranslateAgent(agent, v2), None)];
  }

  /** run(agent, engine, consumer): builds and places, then ticks; the
      outcome's observations are keyed by the time after each tick. */
  method Run(task: LocomotionTask, agent: AgentId, engine: Engine, consumer: SnapshotConsumer)
    returns (observations: map<real, AgentsObservation>)
    requires engine.Valid()
    modifies engine, consumer
    ensures var placed := Placed(task, agent, engine.agentBox, old(engine.history));
      var snaps := Ticks(engine.advance, engine.minStep, task.duration, old(engine.t), placed);
      consumer.accepted == old(consumer.accepted) + snaps &&
      observations == Observed(snaps, Observer(task.terrain, engine.agentPolys, engine.agentBox, agent)) &&
      (snaps == [] ==> engine.t == old(engine.t) && engine.history == placed) &&
      (snaps != [] ==> engine.t == Last(snaps).t && engine.history == Last(snaps).history)
  {
    Build(task, agent, engine);
    observations := TickUntil(task.duration, engine, consumer, Observer(task.terrain, engine.agentPolys, engine.agentBox, agent));
  }

  /** The ticks stop as soon as the time reaches the duration: no tick when
      it already has, otherwise every snapshot but the last is before it
      and the last is not. Each snapshot's history is the starting one plus
      one more Ticked per tick. */
  lemma {:induction false} TicksMeaning(advance: real -> real, minStep: real, d: real, t: real, h: seq<Event>)
    requires Advances(advance, minStep)
    ensures var s := Ticks(advance, minStep, d, t, h);
      (s == [] <==> t >= d) &&
      (forall k :: 0 <= k < |s| - 1 ==> s[k].t < d) &&
      (s != [] ==> Last(s).t >= d) &&
      (forall k :: 0 <= k < |s| ==> s[k].history == h + seq(k + 1, _ => Ticked)) &&
      (forall k :: 0 <= k < |s| ==> s[k].t >= t + minStep)
    decreases Steps(d, minStep, t)
  {
    if t < d {
      var t' := advance(t);
      var h' := h + [Ticked];
      StepsDecrease(d, minStep, t, t');
      TicksMeaning(advance, minStep, d, t', h');
      var rest := Ticks(advance, minStep, d, t', h');
      var s := Ticks(advance, minStep, d, t, h);
      assert s == [Snapshot(t', h')] + rest;
      forall k | 0 <= k < |s|
        ensures s[k].history == h + seq(k + 1, _ => Ticked)
      {
        if k > 0 {
          assert s[k] == rest[k - 1];
          assert h' + seq(k, _ => Ticked) == h + seq(k + 1, _ => Ticked);
        }
      }
      forall k | 0 <= k < |s| - 1
        ensures s[k].t < d
      {
        if k > 0 {
          assert s[k] == rest[k - 1];
        } else {
          assert rest != [];
        }
      }
    }
  }

  /** Snapshot times strictly increase. */
  lemma {:induction false} TicksIncrease(advance: real -> real, minStep: real, d: real, t: real, h: seq<Event>)
    requires Advances(advance, minStep)
    ensures var s := Ticks(advance, minStep, d, t, h);
      forall i, j :: 0 <= i < j < |s| ==> s[i].t < s[j].t
    decreases Steps(d, minStep, t)
  {
    if t < d {
      var t' := advance(t);
      var h' := h + [Ticked];
      StepsDecrease(d, minStep, t, t');
      TicksIncrease(advance, minStep, d, t', h');
      TicksMeaning(advance, minStep, d, t', h');
      var rest := Ticks(advance, minStep, d, t', h');
      var s := Ticks(advance, minStep, d, t, h);
      assert s == [Snapshot(t', h')] + rest;
      forall i, j | 0 <= i < j < |s|
        ensures s[i].t < s[j].t
      {
        assert s[j] == rest[j - 1];
        if i > 0 {
          assert s[i] == rest[i - 1];
        }
      }
    }
  }

  /** With strictly increasing times, the recorded observations are keyed by
      exactly the snapshot times, and each holds what was observed right
      after that snapshot's tick. */
  lemma {:induction false} ObservedMeaning(snaps: seq<Snapshot>, observe: seq<Event> -> AgentsObservation)
    requires forall i, j :: 0 <= i < j < |snaps| ==> snaps[i].t < snaps[j].t
    ensures forall x :: x in Observed(snaps, observe) <==> exists k :: 0 <= k < |snaps| && snaps[k].t == x
    ensures forall k :: 0 <= k < |snaps| ==> Observed(snaps, observe)[snaps[k].t] == observe(snaps[k].history)
    decreases |snaps|
  {
    if snaps != [] {
      var front := snaps[..|snaps| - 1];
      var last := Last(snaps);
      ObservedMeaning(front, observe);
      forall x | x in Observed(snaps, observe)
        ensures exists k :: 0 <= k < |snaps| && snaps[k].t == x
      {
        if x != last.t {
          assert x in Observed(front, observe);
          var k :| 0 <= k < |front| && front[k].t == x;
          assert snaps[k].t == x;
        } else {
          assert snaps[|snaps| - 1].t == x;
        }
      }
      forall k | 0 <= k < |snaps|
        ensures Observed(snaps, observe)[snaps[k].t] == observe(snaps[k].history)
      {
        if k < |front| {
          assert front[k] == snaps[k];
          assert snaps[k].t < last.t;
        }
      }
    }
  }
}
