/** The outcome of the balancing task: observations keyed by time, their
    average absolute swing angle, optionally with a malus for every
    observation where not all agents are on the swing, and the projection
    of the outcome on a time range. */
module Balancing {
  import opened Wrappers
  import opened Ranges

  datatype BalancingObservation = BalancingObservation(swingAngle: real, allAgentsOnSwing: bool)

  datatype TimedObservation = TimedObservation(t: real, observation: BalancingObservation)

  /** The observations, in strictly increasing time order (a sorted map). */
  datatype BalancingOutcome = BalancingOutcome(observations: seq<TimedObservation>)

  predicate TimeOrdered(os: seq<TimedObservation>) {
    forall i, j :: 0 <= i < j < |os| ==> os[i].t < os[j].t
  }

  const NoObservations: string := "IllegalArgumentException: No observations: cannot compute average angle"

  /** What an observation contributes: its absolute swing angle, plus the
      malus when not all agents are on the swing. */
  function Contribution(o: BalancingObservation, malus: real): real {
    Abs(o.swingAngle) + (if o.allAgentsOnSwing then 0.0 else malus)
  }

  function SumContributions(os: seq<TimedObservation>, malus: real): real {
    if os == [] then 0.0 else SumContributions(os[..|os| - 1], malus) + Contribution(os[|os| - 1].observation, malus)
  }

  function SumAngles(os: seq<TimedObservation>): real {
    if os == [] then 0.0 else SumAngles(os[..|os| - 1]) + Abs(os[|os| - 1].observation.swingAngle)
  }

  /** avgSwingAngle(): the mean absolute swing angle; it fails when there
      are no observations. */
  function AvgSwingAngle(o: BalancingOutcome): (r: Result<real>)
    ensures r.Err? <==> o.observations == []
    ensures r.Err? ==> r.error == NoObservations
    ensures r.Ok? ==> r.value * (|o.observations| as real) == SumAngles(o.observations)
  {
    if o.observations == [] then Err(NoObservations)
    else Ok(SumAngles(o.observations) / (|o.observations| as real))
  }

  /** avgSwingAngleWithMalus(malus): the mean contribution; it fails when
      there are no observations. */
  function AvgSwingAngleWithMalus(o: BalancingOutcome, malus: real): (r: Result<real>)
    ensures r.Err? <==> o.observations == []
    ensures r.Err? ==> r.error == NoObservations
    ensures r.Ok? ==> r.value * (|o.observations| as real) == SumContributions(o.observations, malus)
  {
    if o.observations == [] then Err(NoObservations)
    else Ok(SumContributions(o.observations, malus) / (|o.observations| as real))
  }

  lemma {:induction false} SumAnglesNonNegative(os: seq<TimedObservation>)
    ensures SumAngles(os) >= 0.0
    decreases |os|
  {
    if os != [] {
      SumAnglesNonNegative(os[..|os| - 1]);
    }
  }

  /** The average absolute swing angle is never negative. */
  lemma AvgSwingAngleNonNegative(o: BalancingOutcome)
    requires o.observations != []
    ensures AvgSwingAngle(o).value >= 0.0
  {
    SumAnglesNonNegative(o.observations);
  }

  /** When no malus is charged (it is 0, or every observation has all
      agents on the swing) the sums agree. */
  lemma {:induction false} SumsAgree(os: seq<TimedObservation>, malus: real)
    requires malus == 0.0 || forall i :: 0 <= i < |os| ==> os[i].observation.allAgentsOnSwing
    ensures SumContributions(os, malus) == SumAngles(os)
    decreases |os|
  {
    if os != [] {
      var front := os[..|os| - 1];
      assert forall i :: 0 <= i < |front| ==> front[i] == os[i];
      SumsAgree(front, malus);
    }
  }

  /** Without a malus to charge, both averages are the same. */
  lemma MalusFreeAverage(o: BalancingOutcome, malus: real)
    requires malus == 0.0 || forall i :: 0 <= i < |o.observations| ==> o.observations[i].observation.allAgentsOnSwing
    ensures AvgSwingAngleWithMalus(o, malus) == AvgSwingAngle(o)
  {
    SumsAgree(o.observations, malus);
  }

  /** A non-negative malus never lowers the sum. */
  lemma {:induction false} MalusNeverLowers(os: seq<TimedObservation>, malus: real)
    requires malus >= 0.0
    ensures SumContributions(os, malus) >= SumAngles(os)
    decreases |os|
  {
    if os != [] {
      MalusNeverLowers(os[..|os| - 1], malus);
    }
  }

  /** With a non-negative malus, the malus average is at least the plain
      average. */
  lemma MalusAverageAtLeast(o: BalancingOutcome, malus: real)
    requires o.observations != [] && malus >= 0.0
    ensures AvgSwingAngleWithMalus(o, malus).value >= AvgSwingAngle(o).value
  {
    MalusNeverLowers(o.observations, malus);
    var n := |o.observations| as real;
    var a := AvgSwingAngle(o).value;
    var b := AvgSwingAngleWithMalus(o, malus).value;
    assert (b - a) * n >= 0.0;
  }

  /** The observations whose time lies in the range, bounds included, in
      their order. */
  function InRange(os: seq<TimedObservation>, range: DoubleRange): (r: seq<TimedObservation>)
    ensures forall x :: x in r <==> x in os && range.min <= x.t <= range.max
    ensures |r| <= |os|
  {
    if os == [] then []
    else
      var front := InRange(os[..|os| - 1], range);
      var last := os[|os| - 1];
      assert forall x :: x in os <==> x in os[..|os| - 1] || x == last by {
        assert os == os[..|os| - 1] + [last];
      }
      if range.min <= last.t <= range.max then front + [last] else front
  }

  /** Filtering keeps the time order. */
  lemma {:induction false} InRangeOrdered(os: seq<TimedObservation>, range: DoubleRange)
    requires TimeOrdered(os)
    ensures TimeOrdered(InRange(os, range))
    decreases |os|
  {
    if os != [] {
      var front := os[..|os| - 1];
      var last := os[|os| - 1];
      assert TimeOrdered(front);
      InRangeOrdered(front, range);
      var f := InRange(front, range);
      forall x | x in f
        ensures x.t < last.t
      {
        assert x in front;
        var i :| 0 <= i < |front| && front[i] == x;
        assert os[i] == x;
      }
    }
  }

  /** subOutcome(range): the outcome over the observations in the range. */
  function SubOutcome(o: BalancingOutcome, range: DoubleRange): (r: BalancingOutcome)
    ensures forall x :: x in r.observations <==> x in o.observations && range.min <= x.t <= range.max
    ensures TimeOrdered(o.observations) ==> TimeOrdered(r.observations)
  {
    InRangeKeepsOrder(o.observations, range);
    BalancingOutcome(InRange(o.observations, range))
  }

  lemma InRangeKeepsOrder(os: seq<TimedObservation>, range: DoubleRange)
    ensures TimeOrdered(os) ==> TimeOrdered(InRange(os, range))
  {
    if TimeOrdered(os) {
      InRangeOrdered(os, range);
    }
  }
}
