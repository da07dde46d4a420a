/** The self-assembling agent: unitNumber independent voxel units, each with
    its own sensors and its own numerical controller ("brain"). Each tick it
    reads last tick's outcomes into the units' inputs, steps the brains,
    clips their outputs into [-1,1] and lays out the next tick's actions:
    all sense actions, one actuation per unit, attach/detach requests per
    side, and, per side and signal channel, an emitted message paired with
    the sensing of the neighbours' message. */
module SelfAssembly {
  import opened Wrappers
  import opened Geometry
  import opened Ranges
  import opened Voxels
  import opened Actions
  import opened Engines
  import opened InputReading

  /** A sensor builds, for a body, the sense action it performs each tick:
      the side-attachment sensor of one side, or any other sensor, known by
      its name and the range of its readings. */
  datatype Sensor = SideAttachmentSensor(side: Side) | NamedSensor(name: string, range: Interval)

  /** Sensor.apply. */
  function Apply(sensor: Sensor, body: BodyId): (a: Action)
    ensures IsSense(a)
  {
    match sensor
    case SideAttachmentSensor(side) => SenseSideAttachment(side, body)
    case NamedSensor(name, range) => SenseBy(name, body, range)
  }

  /** A numerical controller with the input and output sizes it declares. */
  datatype Brain = Brain(nOfInputs: nat, nOfOutputs: nat, step: (real, seq<real>) -> seq<real>)

  /** checkDimension(nOfInputs, nOfOutputs) passes. */
  predicate CheckDimension(b: Brain, nOfInputs: nat, nOfOutputs: nat) {
    b.nOfInputs == nOfInputs && b.nOfOutputs == nOfOutputs
  }

  /** A brain's outputs, each clipped into the output range [-1,1]: values
      already in range are kept, the others move to the nearer bound. */
  function ClipAll(out: seq<real>): (r: seq<real>)
    ensures |r| == |out|
    ensures forall k :: 0 <= k < |r| ==> Contains(SymmetricUnit, r[k])
    ensures forall k :: 0 <= k < |r| && Contains(SymmetricUnit, out[k]) ==> r[k] == out[k]
    ensures forall k :: 0 <= k < |r| && out[k] > 1.0 ==> r[k] == 1.0
    ensures forall k :: 0 <= k < |r| && out[k] < -1.0 ==> r[k] == -1.0
  {
    seq(|out|, k requires 0 <= k < |out| => Clip(SymmetricUnit, out[k]))
  }

  const AttachActionThreshold: real := 0.25

  /** Inputs of a unit: one per sensor, and one per side and signal channel
      (the neighbours' messages sensed on that side). */
  function NOfInputs(nSensors: nat, nSignals: nat): (n: nat)
    ensures n >= nSensors && n - nSensors == |Sides| * nSignals
  {
    nSensors + nSignals * 4
  }

  /** Outputs of a unit (directional communication and attachment): one
      actuation, one per side for attachment, one per side and signal
      channel; they end exactly where the last side's message block ends. */
  function NOfOutputs(nSignals: nat): (n: nat)
    ensures n == SideBase(nSignals, |Sides|)
    ensures AttachIndex(|Sides| - 1) < SideBase(nSignals, 0)
  {
    SideBaseClosed(nSignals, |Sides|);
    4 * nSignals + 4 + 1
  }

  /** Where the outputs are read: index 0 actuates, 1 + s decides the
      attachment of side s, and the messages of side s, one per channel,
      start at SideBase(s). */
  const ActuationIndex: nat := 0

  function AttachIndex(s: nat): nat {
    1 + s
  }

  /** The message blocks follow the actuation and the four attachment
      outputs, nSignals outputs per side, in the order of Sides. */
  function SideBase(nSignals: nat, s: nat): nat {
    if s == 0 then 5 else SideBase(nSignals, s - 1) + nSignals
  }

  function MessageIndex(nSignals: nat, s: nat, j: nat): nat {
    SideBase(nSignals, s) + j
  }

  /** The message on side s and channel j is output 5 + s * nSignals + j. */
  lemma {:induction false} SideBaseClosed(nSignals: nat, s: nat)
    ensures SideBase(nSignals, s) == 5 + s * nSignals
  {
    if s > 0 {
      SideBaseClosed(nSignals, s - 1);
    }
  }

  /** The message block of each side fits in the outputs. */
  lemma MessageBlockFits(nSignals: nat, s: nat)
    requires s < 4
    ensures SideBase(nSignals, s) + nSignals <= NOfOutputs(nSignals)
  {
    assert SideBase(nSignals, 1) == 5 + nSignals;
    assert SideBase(nSignals, 2) == SideBase(nSignals, 1) + nSignals;
    assert SideBase(nSignals, 3) == SideBase(nSignals, 2) + nSignals;
  }

  /** The output indexes the agent reads are all below nOfOutputs, and every
      output is read for exactly one purpose. */
  lemma {:induction false} OutputIndexes(nSignals: nat, s: nat, j: nat, s': nat, j': nat)
    requires s < 4 && j < nSignals && s' < 4 && j' < nSignals
    ensures AttachIndex(s) < NOfOutputs(nSignals)
    ensures MessageIndex(nSignals, s, j) < NOfOutputs(nSignals)
    ensures ActuationIndex < AttachIndex(s) < MessageIndex(nSignals, s', j')
    ensures MessageIndex(nSignals, s, j) == MessageIndex(nSignals, s', j') ==> s == s' && j == j'
  {
    SideBaseClosed(nSignals, s);
    SideBaseClosed(nSignals, s');
    assert s * nSignals <= 3 * nSignals;
    if s < s' {
      assert s * nSignals + nSignals <= s' * nSignals;
    } else if s' < s {
      assert s' * nSignals + nSignals <= s * nSignals;
    }
  }

  /** Every output index below nOfOutputs is read for one of the purposes. */
  lemma {:induction false} OutputIndexesCover(nSignals: nat, x: nat)
    requires x < NOfOutputs(nSignals)
    ensures x == ActuationIndex ||
            (exists s :: 0 <= s < 4 && x == AttachIndex(s)) ||
            (exists s, j :: 0 <= s < 4 && 0 <= j < nSignals && x == MessageIndex(nSignals, s, j))
  {
    if x >= 5 {
      var s := (x - 5) / nSignals;
      var j := (x - 5) % nSignals;
      assert x - 5 == s * nSignals + j;
      SideBaseClosed(nSignals, s);
      assert x == MessageIndex(nSignals, s, j);
    } else if x >= 1 {
      assert x == AttachIndex(x - 1);
    }
  }

  // ---------------------------------------------------------------------
  // The layout of the actions emitted in one tick.

  /** What one tick's layout is computed from: the units, their sensors,
      bodies and current shapes, their clipped outputs, and how the engine
      turns a side midpoint into a direction angle. */
  datatype Frame = Frame(units: nat, nSignals: nat, sensors: seq<seq<Sensor>>, bodies: seq<BodyId>,
                         shapes: seq<VoxelShape>, outs: seq<seq<real>>, direction: Point -> real)

  /** Every unit has sensors, a body, a shape and an output row wide enough
      for the indexes the layout reads. */
  predicate Fits(f: Frame) {
    f.units <= |f.sensors| && f.units <= |f.bodies| && f.units <= |f.shapes| && f.units <= |f.outs| &&
    forall i :: 0 <= i < f.units ==> |f.outs[i]| >= NOfOutputs(f.nSignals)
  }

  /** The sense actions of units 0..n-1, unit by unit, each in its sensors'
      order. */
  function SenseActions(f: Frame, n: nat): seq<Action>
    requires Fits(f) && n <= f.units
  {
    if n == 0 then []
    else (SenseActions(f, n - 1) +
          seq(|f.sensors[n - 1]|, j requires 0 <= j < |f.sensors[n - 1]| => Apply(f.sensors[n - 1][j], f.bodies[n - 1])))
  }

  /** The number of sensors of units 0..n-1. */
  function SensorCount(sensors: seq<seq<Sensor>>, n: nat): nat
    requires n <= |sensors|
  {
    if n == 0 then 0 else SensorCount(sensors, n - 1) + |sensors[n - 1]|
  }

  /** One ActuateVoxel per unit, with that unit's actuation output. */
  function Actuations(f: Frame): (r: seq<Action>)
    requires Fits(f)
    ensures |r| == f.units
  {
    seq(f.units, i requires 0 <= i < f.units => Actuate(f.bodies[i], f.outs[i][ActuationIndex]))
  }

  /** The structural request for one side of one unit: attach above the
      threshold, detach below its opposite, nothing in the deadband. */
  function AttachFor(body: BodyId, side: Side, m: real): (r: seq<Action>)
    ensures m > AttachActionThreshold <==>
      r == [AttractAndLinkClosestAnchorable(AnchorsOn(body, side), 1, Soft)]
    ensures m < -AttachActionThreshold <==> r == [DetachAnchors(AnchorsOn(body, side))]
    ensures -AttachActionThreshold <= m <= AttachActionThreshold <==> r == []
  {
    if m > AttachActionThreshold then [AttractAndLinkClosestAnchorable(AnchorsOn(body, side), 1, Soft)]
    else if m < -AttachActionThreshold then [DetachAnchors(AnchorsOn(body, side))]
    else []
  }

  /** The structural requests of units 0..n-1 for side index s. */
  function AttachSide(f: Frame, s: nat, n: nat): (r: seq<Action>)
    requires Fits(f) && s < 4 && n <= f.units
    ensures |r| <= n
  {
    if n == 0 then []
    else (AttachSide(f, s, n - 1) + AttachFor(f.bodies[n - 1], Sides[s], f.outs[n - 1][AttachIndex(s)]))
  }

  /** The structural requests for side indexes 0..s-1, side by side. */
  function AttachSides(f: Frame, s: nat): (r: seq<Action>)
    requires Fits(f) && s <= 4
  {
    if s == 0 then [] else (AttachSides(f, s - 1) + AttachSide(f, s - 1, f.units))
  }

  /** The vector from the unit's center to the middle of one of its sides. */
  function Displacement(shape: VoxelShape, side: Side): Point {
    Diff(SegmentCenter(SideSegment(shape, side)), shape.center)
  }

  /** Emit then sense, for channels 0..n-1 of one side of one unit. */
  function Messages(body: BodyId, mid: Point, dir: real, out: seq<real>, base: nat, n: nat): (r: seq<Action>)
    requires base + n <= |out|
    ensures |r| == 2 * n
  {
    if n == 0 then []
    else (Messages(body, mid, dir, out, base, n - 1) +
          [EmitNfcMessage(body, mid, dir, ToShort(n - 1), out[base + n - 1]),
           SenseNfc(body, mid, dir, ToShort(n - 1))])
  }


  /** The messages of unit n on side index s. */
  function UnitMessages(f: Frame, s: nat, n: nat): (r: seq<Action>)
    requires Fits(f) && s < 4 && n < f.units
    ensures |r| == 2 * f.nSignals
  {
    MessageBlockFits(f.nSignals, s);
    var mid := Displacement(f.shapes[n], Sides[s]);
    Messages(f.bodies[n], mid, f.direction(mid), f.outs[n], MessageIndex(f.nSignals, s, 0), f.nSignals)
  }

  /** The messages of units 0..n-1 on side index s. */
  function MessagesSide(f: Frame, s: nat, n: nat): (r: seq<Action>)
    requires Fits(f) && s < 4 && n <= f.units
  {
    if n == 0 then [] else (MessagesSide(f, s, n - 1) + UnitMessages(f, s, n - 1))
  }

  /** The messages for side indexes 0..s-1, side by side. */
  function MessagesSides(f: Frame, s: nat): (r: seq<Action>)
    requires Fits(f) && s <= 4
  {
    if s == 0 then [] else (MessagesSides(f, s - 1) + MessagesSide(f, s - 1, f.units))
  }

  /** All the actions of one tick, in the order they are emitted: one per
      sensor, one actuation per unit, the structural requests and two per
      unit, side and channel. */
  function Layout(f: Frame): (r: seq<Action>)
    requires Fits(f)
    ensures |r| == SensorCount(f.sensors, f.units) + f.units + |AttachSides(f, 4)| + 8 * f.nSignals * f.units
  {
    SenseActionsLength(f, f.units);
    MessagesSidesLength(f, 4);
    assert 2 * f.nSignals * f.units * 4 == 8 * f.nSignals * f.units;
    SenseActions(f, f.units) + Actuations(f) + AttachSides(f, 4) + MessagesSides(f, 4)
  }

  // ---------------------------------------------------------------------
  // Where each action sits in the layout.

  lemma {:induction false} SensorCountMonotone(sensors: seq<seq<Sensor>>, i: nat, n: nat)
    requires i <= n <= |sensors|
    ensures SensorCount(sensors, i) <= SensorCount(sensors, n)
    decreases n
  {
    if i < n {
      SensorCountMonotone(sensors, i, n - 1);
    }
  }

  lemma {:induction false} SenseActionsLength(f: Frame, n: nat)
    requires Fits(f) && n <= f.units
    ensures |SenseActions(f, n)| == SensorCount(f.sensors, n)
  {
    if n > 0 {
      SenseActionsLength(f, n - 1);
    }
  }

  /** Sensor j of unit i yields the action at offset SensorCount(i) + j. */
  lemma {:induction false} SenseActionsAt(f: Frame, n: nat, i: nat, j: nat)
    requires Fits(f) && n <= f.units && i < n && j < |f.sensors[i]|
    ensures SensorCount(f.sensors, i) + j < |SenseActions(f, n)|
    ensures SenseActions(f, n)[SensorCount(f.sensors, i) + j] == Apply(f.sensors[i][j], f.bodies[i])
    decreases n
  {
    var before := SenseActions(f, n - 1);
    var last := seq(|f.sensors[n - 1]|, j requires 0 <= j < |f.sensors[n - 1]| => Apply(f.sensors[n - 1][j], f.bodies[n - 1]));
    assert SenseActions(f, n) == before + last;
    SenseActionsLength(f, n - 1);
    if i < n - 1 {
      SenseActionsAt(f, n - 1, i, j);
    } else {
      assert last[j] == Apply(f.sensors[i][j], f.bodies[i]);
    }
  }

  /** Only sense actions precede the actuations. */
  lemma {:induction false} SensesFirst(f: Frame, n: nat)
    requires Fits(f) && n <= f.units
    ensures forall a :: a in SenseActions(f, n) ==> IsSense(a)
  {
    if n > 0 {
      SensesFirst(f, n - 1);
    }
  }

  /** Channel j of a side is emitted at 2j and sensed right after it. */
  lemma {:induction false} MessagesAt(body: BodyId, mid: Point, dir: real, out: seq<real>, base: nat, n: nat, j: nat)
    requires base + n <= |out| && j < n
    ensures Messages(body, mid, dir, out, base, n)[2 * j] ==
      EmitNfcMessage(body, mid, dir, ToShort(j), out[base + j])
    ensures Messages(body, mid, dir, out, base, n)[2 * j + 1] == SenseNfc(body, mid, dir, ToShort(j))
    decreases n
  {
    if j < n - 1 {
      MessagesAt(body, mid, dir, out, base, n - 1, j);
    }
  }

  lemma MulStep(a: nat, s: nat)
    requires s > 0
    ensures a * s == a * (s - 1) + a
  {
  }

  lemma {:induction false} MessagesSideLength(f: Frame, s: nat, n: nat)
    requires Fits(f) && s < 4 && n <= f.units
    ensures |MessagesSide(f, s, n)| == 2 * f.nSignals * n
  {
    if n > 0 {
      MessagesSideLength(f, s, n - 1);
      MulStep(2 * f.nSignals, n);
    }
  }

  lemma {:induction false} MessagesSidesLength(f: Frame, s: nat)
    requires Fits(f) && s <= 4
    ensures |MessagesSides(f, s)| == 2 * f.nSignals * f.units * s
  {
    if s > 0 {
      MessagesSidesLength(f, s - 1);
      MessagesSideLength(f, s - 1, f.units);
      MulStep(2 * f.nSignals * f.units, s);
    }
  }

  lemma {:induction false} AttachSidesLength(f: Frame, s: nat)
    requires Fits(f) && s <= 4
    ensures |AttachSides(f, s)| <= f.units * s
  {
    if s > 0 {
      AttachSidesLength(f, s - 1);
      MulStep(f.units, s);
    }
  }

  lemma MessagesSideStep(f: Frame, s: nat, i: nat)
    requires Fits(f) && s < 4 && i < f.units
    ensures MessagesSide(f, s, i) + UnitMessages(f, s, i) <= MessagesSide(f, s, f.units)
  {
    MessagesSidePrefix(f, s, i + 1, f.units);
  }

  lemma MessagesSidesStep(f: Frame, s: nat, sN: nat)
    requires Fits(f) && s < sN <= 4
    ensures MessagesSides(f, s) + MessagesSide(f, s, f.units) <= MessagesSides(f, sN)
  {
    MessagesSidesPrefix(f, s + 1, sN);
  }

  lemma {:induction false} MessagesSidePrefix(f: Frame, s: nat, i: nat, n: nat)
    requires Fits(f) && s < 4 && i <= n <= f.units
    ensures MessagesSide(f, s, i) <= MessagesSide(f, s, n)
    decreases n
  {
    if i < n {
      MessagesSidePrefix(f, s, i, n - 1);
    }
  }

  lemma {:induction false} MessagesSidesPrefix(f: Frame, s: nat, sN: nat)
    requires Fits(f) && s <= sN <= 4
    ensures MessagesSides(f, s) <= MessagesSides(f, sN)
    decreases sN
  {
    if s < sN {
      MessagesSidesPrefix(f, s, sN - 1);
    }
  }

  /** The message of side s, unit i, channel j sits at position p of r,
      and the sensing of the same channel, from the same body, side midpoint
      and direction, right after it. */
  predicate PairAt(r: seq<Action>, p: nat, f: Frame, s: nat, i: nat, j: nat)
    requires Fits(f) && s < 4 && i < f.units && j < f.nSignals
  {
    MessageBlockFits(f.nSignals, s);
    var mid := Displacement(f.shapes[i], Sides[s]);
    p + 1 < |r| &&
    r[p] == EmitNfcMessage(f.bodies[i], mid, f.direction(mid), ToShort(j), f.outs[i][MessageIndex(f.nSignals, s, j)]) &&
    r[p + 1] == SenseNfc(f.bodies[i], mid, f.direction(mid), ToShort(j))
  }

  lemma PairAtWiden(a: seq<Action>, b: seq<Action>, c: seq<Action>, q: nat, f: Frame, s: nat, i: nat, j: nat)
    requires Fits(f) && s < 4 && i < f.units && j < f.nSignals
    requires PairAt(b, q, f, s, i, j) && a + b <= c
    ensures PairAt(c, |a| + q, f, s, i, j)
  {
    assert (a + b)[|a| + q] == b[q] && (a + b)[|a| + q + 1] == b[q + 1];
  }

  lemma UnitMessagesAt(f: Frame, s: nat, i: nat, j: nat)
    requires Fits(f) && s < 4 && i < f.units && j < f.nSignals
    ensures PairAt(UnitMessages(f, s, i), 2 * j, f, s, i, j)
  {
    MessageBlockFits(f.nSignals, s);
    var mid := Displacement(f.shapes[i], Sides[s]);
    MessagesAt(f.bodies[i], mid, f.direction(mid), f.outs[i], MessageIndex(f.nSignals, s, 0), f.nSignals, j);
  }

  /** Within one side, unit i's channel j sits after the units before it. */
  lemma MessagesSideAt(f: Frame, s: nat, i: nat, j: nat)
    requires Fits(f) && s < 4 && i < f.units && j < f.nSignals
    ensures PairAt(MessagesSide(f, s, f.units), |MessagesSide(f, s, i)| + 2 * j, f, s, i, j)
  {
    UnitMessagesAt(f, s, i, j);
    MessagesSideStep(f, s, i);
    PairAtWiden(MessagesSide(f, s, i), UnitMessages(f, s, i), MessagesSide(f, s, f.units), 2 * j, f, s, i, j);
  }

  /** Within the message block, side s, unit i, channel j sits after the
      sides and units before it. */
  lemma MessagesSidesAt(f: Frame, sN: nat, s: nat, i: nat, j: nat)
    requires Fits(f) && s < sN <= 4 && i < f.units && j < f.nSignals
    ensures PairAt(MessagesSides(f, sN), |MessagesSides(f, s)| + |MessagesSide(f, s, i)| + 2 * j, f, s, i, j)
  {
    var a, b, c := MessagesSides(f, s), MessagesSide(f, s, f.units), MessagesSides(f, sN);
    var q := |MessagesSide(f, s, i)| + 2 * j;
    MessagesSideAt(f, s, i, j);
    assert PairAt(b, q, f, s, i, j);
    MessagesSidesStep(f, s, sN);
    assert a + b <= c;
    PairAtWiden(a, b, c, q, f, s, i, j);
  }

  /** The layout's length: every sensor, one actuation per unit, at most
      one structural request per side and unit, and two actions per side,
      unit and channel. */
  lemma LayoutSize(f: Frame)
    requires Fits(f)
    ensures |AttachSides(f, 4)| <= f.units * 4
    ensures SensorCount(f.sensors, f.units) + f.units + 8 * f.nSignals * f.units <= |Layout(f)|
    ensures |Layout(f)| <= SensorCount(f.sensors, f.units) + 5 * f.units + 8 * f.nSignals * f.units
  {
    AttachSidesLength(f, 4);
  }

  /** Sensor j of unit i performs the (SensorCount(i) + j)-th action of
      the tick, on unit i's body. */
  lemma LayoutSenseAt(f: Frame, i: nat, j: nat)
    requires Fits(f) && i < f.units && j < |f.sensors[i]|
    ensures SensorCount(f.sensors, i) + j < SensorCount(f.sensors, f.units) <= |Layout(f)|
    ensures Layout(f)[SensorCount(f.sensors, i) + j] == Apply(f.sensors[i][j], f.bodies[i])
  {
    SenseActionsLength(f, f.units);
    SenseActionsAt(f, f.units, i, j);
  }

  /** Every action before the actuations is a sense action. */
  lemma LayoutSensesFirst(f: Frame, p: nat)
    requires Fits(f) && p < SensorCount(f.sensors, f.units)
    ensures p < |Layout(f)|
    ensures IsSense(Layout(f)[p])
  {
    SenseActionsLength(f, f.units);
    SensesFirst(f, f.units);
    var senses := SenseActions(f, f.units);
    assert Layout(f) == senses + (Actuations(f) + AttachSides(f, 4) + MessagesSides(f, 4));
    assert senses[p] in senses;
  }

  /** Unit i's actuation, carrying its output 0 to every side, follows all
      the senses. */
  lemma LayoutActuationAt(f: Frame, i: nat)
    requires Fits(f) && i < f.units
    ensures SensorCount(f.sensors, f.units) + i < |Layout(f)|
    ensures Layout(f)[SensorCount(f.sensors, f.units) + i] == Actuate(f.bodies[i], f.outs[i][ActuationIndex])
  {
    SenseActionsLength(f, f.units);
    var senses := SenseActions(f, f.units);
    var acts := Actuations(f);
    var rest := AttachSides(f, 4) + MessagesSides(f, 4);
    assert Layout(f) == senses + acts + rest;
    assert (senses + acts + rest)[|senses| + i] == acts[i];
  }

  /** For side s, unit i and channel j, the message carrying output
      5 + s * nSignals + j is emitted, with the channel cast to a short, and
      immediately followed by the sensing of the same channel, on the same
      body, at the same side midpoint, in the same direction; the pair sits
      after the senses, the actuations, the structural requests, the
      messages of the earlier sides (2 * nSignals * units actions each) and
      those of the earlier units on this side (2 * nSignals each). */
  lemma LayoutMessageAt(f: Frame, s: nat, i: nat, j: nat)
    requires Fits(f) && s < 4 && i < f.units && j < f.nSignals
    ensures |MessagesSides(f, s)| == 2 * f.nSignals * f.units * s
    ensures |MessagesSide(f, s, i)| == 2 * f.nSignals * i
    ensures PairAt(Layout(f),
                   SensorCount(f.sensors, f.units) + f.units + |AttachSides(f, 4)| +
                     |MessagesSides(f, s)| + |MessagesSide(f, s, i)| + 2 * j,
                   f, s, i, j)
  {
    MessagesSidesAt(f, 4, s, i, j);
    SenseActionsLength(f, f.units);
    MessagesSidesLength(f, s);
    MessagesSideLength(f, s, i);
    var front := SenseActions(f, f.units) + Actuations(f) + AttachSides(f, 4);
    PairAtWiden(front, MessagesSides(f, 4), Layout(f), |MessagesSides(f, s)| + |MessagesSide(f, s, i)| + 2 * j, f, s, i, j);
  }

  // ---------------------------------------------------------------------
  // Which structural requests are made.

  /** Some unit among 0..n-1 on body b wants side s attached: its output
      1 + s exceeds the threshold. */
  predicate AttachWanted(f: Frame, s: nat, n: nat, b: BodyId)
    requires Fits(f) && s < 4 && n <= f.units
  {
    exists i :: 0 <= i < n && f.bodies[i] == b && f.outs[i][AttachIndex(s)] > AttachActionThreshold
  }

  /** Some unit among 0..n-1 on body b wants side s detached. */
  predicate DetachWanted(f: Frame, s: nat, n: nat, b: BodyId)
    requires Fits(f) && s < 4 && n <= f.units
  {
    exists i :: 0 <= i < n && f.bodies[i] == b && f.outs[i][AttachIndex(s)] < -AttachActionThreshold
  }

  lemma {:induction false} AttachSideRequests(f: Frame, s: nat, n: nat, b: BodyId, side: Side)
    requires Fits(f) && s < 4 && n <= f.units
    ensures AttractAndLinkClosestAnchorable(AnchorsOn(b, side), 1, Soft) in AttachSide(f, s, n)
      <==> side == Sides[s] && AttachWanted(f, s, n, b)
    ensures DetachAnchors(AnchorsOn(b, side)) in AttachSide(f, s, n)
      <==> side == Sides[s] && DetachWanted(f, s, n, b)
  {
    if n > 0 {
      AttachSideRequests(f, s, n - 1, b, side);
      if AttachWanted(f, s, n, b) && !AttachWanted(f, s, n - 1, b) {
        assert f.bodies[n - 1] == b && f.outs[n - 1][AttachIndex(s)] > AttachActionThreshold;
      }
      if DetachWanted(f, s, n, b) && !DetachWanted(f, s, n - 1, b) {
        assert f.bodies[n - 1] == b && f.outs[n - 1][AttachIndex(s)] < -AttachActionThreshold;
      }
    }
  }

  lemma {:induction false} AttachSidesRequests(f: Frame, sN: nat, s: nat, b: BodyId)
    requires Fits(f) && sN <= 4 && s < 4
    ensures AttractAndLinkClosestAnchorable(AnchorsOn(b, Sides[s]), 1, Soft) in AttachSides(f, sN)
      <==> s < sN && AttachWanted(f, s, f.units, b)
    ensures DetachAnchors(AnchorsOn(b, Sides[s])) in AttachSides(f, sN)
      <==> s < sN && DetachWanted(f, s, f.units, b)
    decreases sN
  {
    if sN > 0 {
      AttachSidesRequests(f, sN - 1, s, b);
      AttachSideRequests(f, sN - 1, f.units, b, Sides[s]);
      assert Sides[s] == Sides[sN - 1] ==> s == sN - 1;
    }
  }

  /** The units sit on distinct bodies. */
  predicate Distinct(f: Frame)
    requires Fits(f)
  {
    forall i, i' :: 0 <= i < f.units && 0 <= i' < f.units && i != i' ==> f.bodies[i] != f.bodies[i']
  }

  /** Only emitted and sensed messages. */
  predicate OnlyMessages(xs: seq<Action>) {
    forall x :: x in xs ==> x.EmitNfcMessage? || x.SenseNfc?
  }

  lemma {:induction false} MessagesOnly(body: BodyId, mid: Point, dir: real, out: seq<real>, base: nat, n: nat)
    requires base + n <= |out|
    ensures OnlyMessages(Messages(body, mid, dir, out, base, n))
  {
    if n > 0 {
      MessagesOnly(body, mid, dir, out, base, n - 1);
    }
  }

  lemma {:induction false} MessagesSideOnly(f: Frame, s: nat, n: nat)
    requires Fits(f) && s < 4 && n <= f.units
    ensures OnlyMessages(MessagesSide(f, s, n))
  {
    if n > 0 {
      MessagesSideOnly(f, s, n - 1);
      MessageBlockFits(f.nSignals, s);
      var mid := Displacement(f.shapes[n - 1], Sides[s]);
      MessagesOnly(f.bodies[n - 1], mid, f.direction(mid), f.outs[n - 1], MessageIndex(f.nSignals, s, 0), f.nSignals);
    }
  }

  lemma {:induction false} MessagesSidesOnly(f: Frame, sN: nat)
    requires Fits(f) && sN <= 4
    ensures OnlyMessages(MessagesSides(f, sN))
  {
    if sN > 0 {
      MessagesSidesOnly(f, sN - 1);
      MessagesSideOnly(f, sN - 1, f.units);
    }
  }

  /** With units on distinct bodies, unit i asks to attach side s, with one
      soft link, exactly when its output 1 + s exceeds 0.25, and asks to
      detach that side exactly when the output is below -0.25. */
  lemma AttachRequested(f: Frame, s: nat, i: nat)
    requires Fits(f) && Distinct(f) && s < 4 && i < f.units
    ensures AttractAndLinkClosestAnchorable(AnchorsOn(f.bodies[i], Sides[s]), 1, Soft) in Layout(f)
      <==> f.outs[i][AttachIndex(s)] > AttachActionThreshold
    ensures DetachAnchors(AnchorsOn(f.bodies[i], Sides[s])) in Layout(f)
      <==> f.outs[i][AttachIndex(s)] < -AttachActionThreshold
  {
    var attract := AttractAndLinkClosestAnchorable(AnchorsOn(f.bodies[i], Sides[s]), 1, Soft);
    var detach := DetachAnchors(AnchorsOn(f.bodies[i], Sides[s]));
    AttachSidesRequests(f, 4, s, f.bodies[i]);
    SensesFirst(f, f.units);
    MessagesSidesOnly(f, 4);
    var senses := SenseActions(f, f.units);
    var acts := Actuations(f);
    var structural := AttachSides(f, 4);
    var messages := MessagesSides(f, 4);
    assert attract !in senses && detach !in senses;
    assert attract !in acts && detach !in acts;
    assert attract !in messages && detach !in messages;
    assert Layout(f) == senses + acts + structural + messages;
    if AttachWanted(f, s, f.units, f.bodies[i]) {
      var i' :| 0 <= i' < f.units && f.bodies[i'] == f.bodies[i] && f.outs[i'][AttachIndex(s)] > AttachActionThreshold;
      assert i' == i;
    }
    if DetachWanted(f, s, f.units, f.bodies[i]) {
      var i' :| 0 <= i' < f.units && f.bodies[i'] == f.bodies[i] && f.outs[i'][AttachIndex(s)] < -AttachActionThreshold;
      assert i' == i;
    }
  }
}
