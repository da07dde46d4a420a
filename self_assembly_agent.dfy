/** The self-assembling agent as an object: its sizing at construction, the
    assembly of its units through the performer, and the per-tick step that
    reads its input arrays in place, rewrites its output rows and builds the
    next tick's action list. */
module SelfAssemblyAgent {
  import opened Wrappers
  import opened Geometry
  import opened Ranges
  import opened Voxels
  import opened Actions
  import opened Engines
  import opened InputReading
  import opened SelfAssembly

  /** One side's structural requests, unit by unit, reading output aI. */
  method EmitSideRequests(f: Frame, s: nat, aI: nat) returns (block: seq<Action>)
    requires Fits(f) && s < 4 && aI == AttachIndex(s)
    ensures block == AttachSide(f, s, f.units)
  {
    block := [];
    for i := 0 to f.units
      invariant block == AttachSide(f, s, i)
    {
      var m := f.outs[i][aI];
      if m > AttachActionThreshold {
        block := block + [AttractAndLinkClosestAnchorable(AnchorsOn(f.bodies[i], Sides[s]), 1, Soft)];
      } else if m < -AttachActionThreshold {
        block := block + [DetachAnchors(AnchorsOn(f.bodies[i], Sides[s]))];
      }
    }
  }

  /** Unit i's message pairs on one side, channel j carrying output aI + j. */
  method EmitUnitMessages(f: Frame, s: nat, i: nat, aI: nat) returns (block: seq<Action>)
    requires Fits(f) && s < 4 && i < f.units && aI == SideBase(f.nSignals, s)
    ensures block == UnitMessages(f, s, i)
  {
    MessageBlockFits(f.nSignals, s);
    var center := f.shapes[i].center;
    var mid := Diff(SegmentCenter(SideSegment(f.shapes[i], Sides[s])), center);
    var dir := f.direction(mid);
    block := [];
    for j := 0 to f.nSignals
      invariant block == Messages(f.bodies[i], mid, dir, f.outs[i], aI, j)
    {
      block := block + [EmitNfcMessage(f.bodies[i], mid, dir, ToShort(j), f.outs[i][aI + j]),
                        SenseNfc(f.bodies[i], mid, dir, ToShort(j))];
    }
  }

  /** The structural requests of all sides, the output index aI moving to
      the next attachment output before each side. */
  method EmitStructural(f: Frame) returns (block: seq<Action>, aI: nat)
    requires Fits(f)
    ensures block == AttachSides(f, 4)
    ensures aI == AttachIndex(3)
  {
    block := [];
    aI := ActuationIndex;
    for s := 0 to 4
      invariant aI == s
      invariant block == AttachSides(f, s)
    {
      aI := aI + 1;
      var side := EmitSideRequests(f, s, aI);
      block := block + side;
    }
  }

  /** All units' message pairs on one side. */
  method EmitSideMessages(f: Frame, s: nat, aI: nat) returns (block: seq<Action>)
    requires Fits(f) && s < 4 && aI == SideBase(f.nSignals, s)
    ensures block == MessagesSide(f, s, f.units)
  {
    block := [];
    for i := 0 to f.units
      invariant block == MessagesSide(f, s, i)
    {
      var unit := EmitUnitMessages(f, s, i, aI);
      block := block + unit;
    }
  }

  /** The message pairs of all sides: the output index starts after the
      attachment outputs and moves on by nSignals after each side. */
  method EmitMessages(f: Frame, aI0: nat) returns (block: seq<Action>)
    requires Fits(f) && aI0 == AttachIndex(3)
    ensures block == MessagesSides(f, 4)
  {
    block := [];
    var aI := aI0 + 1;
    for s := 0 to 4
      invariant aI == SideBase(f.nSignals, s)
      invariant block == MessagesSides(f, s)
    {
      var side := EmitSideMessages(f, s, aI);
      block := block + side;
      aI := aI + f.nSignals;
    }
  }

  /** Builds one tick's action list in the agent's order: the sense actions
      and the actuations, then the structural requests, then the message
      pairs. */
  method EmitActions(f: Frame) returns (actions: seq<Action>)
    requires Fits(f)
    ensures actions == Layout(f)
  {
    actions := SenseActions(f, f.units) + Actuations(f);
    var structural, aI := EmitStructural(f);
    actions := actions + structural;
    var messages := EmitMessages(f, aI);
    actions := actions + messages;
  }

  // ---------------------------------------------------------------------
  // Assembly.

  /** What creating n voxels in a row yields: the bodies created, in order,
      the engine history afterwards, and whether an absent outcome stopped
      the creation (orElseThrow). */
  datatype CreationRun = CreationRun(bodies: seq<BodyId>, history: seq<Event>, failed: bool)

  /** k copies of one event. */
  function Repeat(e: Event, k: nat): (r: seq<Event>)
    ensures |r| == k && forall m :: 0 <= m < k ==> r[m] == e
  {
    seq(k, _ => e)
  }

  predicate IsBody(o: Option<Value>) {
    o.Some? && o.value.BodyValue?
  }

  /** Issues cv up to n times from history h, without a caller, stopping at
      the first outcome that is not a body. */
  ghost function Creations(respond: (seq<Event>, Action) -> Option<Value>, h: seq<Event>, cv: Action, n: nat): CreationRun
    decreases n
  {
    if n == 0 then CreationRun([], h, false)
    else
      var o := respond(h, cv);
      var h' := h + [Performed(cv, None)];
      if IsBody(o) then
        var rest := Creations(respond, h', cv, n - 1);
        CreationRun([o.value.body] + rest.bodies, rest.history, rest.failed)
      else CreationRun([], h', true)
  }

  /** What a run of creations does: it issues the same action once per
      created body, plus once more when it stops early; the m-th body is the
      outcome of the m-th issue; it stops early exactly when an outcome is
      not a body, and then issues nothing after it. */
  lemma {:induction false} CreationsMeaning(respond: (seq<Event>, Action) -> Option<Value>, h: seq<Event>, cv: Action, n: nat)
    ensures var r := Creations(respond, h, cv, n);
      var issued := |r.bodies| + (if r.failed then 1 else 0);
      && issued <= n
      && r.history == h + Repeat(Performed(cv, None), issued)
      && (r.failed <==> |r.bodies| < n)
      && (forall m :: 0 <= m < |r.bodies| ==>
            respond(h + Repeat(Performed(cv, None), m), cv) == Some(BodyValue(r.bodies[m])))
      && (r.failed ==> !IsBody(respond(h + Repeat(Performed(cv, None), |r.bodies|), cv)))
    decreases n
  {
    var e := Performed(cv, None);
    if n > 0 {
      var h' := h + [e];
      if IsBody(respond(h, cv)) {
        CreationsMeaning(respond, h', cv, n - 1);
        var rest := Creations(respond, h', cv, n - 1);
        forall k: nat | k <= n
          ensures h' + Repeat(e, k) == h + Repeat(e, k + 1)
        {
          assert [e] + Repeat(e, k) == Repeat(e, k + 1);
        }
        forall m | 0 < m < |rest.bodies| + 1
          ensures respond(h + Repeat(e, m), cv) == Some(BodyValue(([respond(h, cv).value.body] + rest.bodies)[m]))
        {
          assert h' + Repeat(e, m - 1) == h + Repeat(e, m);
        }
        assert h + Repeat(e, 0) == h;
      } else {
        assert h + Repeat(e, 0) == h;
        assert Repeat(e, 1) == [e];
      }
    } else {
      assert h + Repeat(e, 0) == h;
    }
  }

  /** One step of a run of creations. */
  lemma CreationsStep(respond: (seq<Event>, Action) -> Option<Value>, h: seq<Event>, cv: Action, n: nat)
    requires n > 0
    ensures var rest := Creations(respond, h + [Performed(cv, None)], cv, n - 1);
      Creations(respond, h, cv, n) ==
        if IsBody(respond(h, cv)) then CreationRun([respond(h, cv).value.body] + rest.bodies, rest.history, rest.failed)
        else CreationRun([], h + [Performed(cv, None)], true)
  {
  }

  const UnsupportedOperation: string := "UnsupportedOperationException"
  const NoSuchElement: string := "NoSuchElementException"

  /** A Java list: List.of() gives an immutable one, on which add throws. */
  datatype JavaList = JavaList(items: seq<BodyId>, mutable: bool)

  const ListOfEmpty: JavaList := JavaList([], false)

  function ListAdd(l: JavaList, b: BodyId): (r: Result<JavaList>)
    ensures r.Ok? <==> l.mutable
    ensures r.Ok? ==> r.value == JavaList(l.items + [b], true)
    ensures r.Err? ==> r.error == UnsupportedOperation
  {
    if l.mutable then Ok(JavaList(l.items + [b], true)) else Err(UnsupportedOperation)
  }

  /** assemble as written: each created body is added to the list the
      agent holds, whatever kind of list it is. */
  function AssembleAsWritten(respond: (seq<Event>, Action) -> Option<Value>, h: seq<Event>, cv: Action, n: nat, list: JavaList): Result<JavaList>
    decreases n
  {
    if n == 0 then Ok(list)
    else
      var o := respond(h, cv);
      if !IsBody(o) then Err(NoSuchElement)
      else match ListAdd(list, o.value.body)
        case Err(e) => Err(e)
        case Ok(list') => AssembleAsWritten(respond, h + [Performed(cv, None)], cv, n - 1, list')
  }

  /** With the list the agent starts from, List.of(), the first voxel that
      is created cannot be stored: assembling at least one unit throws. */
  lemma AssembleAsWrittenThrows(respond: (seq<Event>, Action) -> Option<Value>, h: seq<Event>, cv: Action, n: nat)
    requires n >= 1 && IsBody(respond(h, cv))
    ensures AssembleAsWritten(respond, h, cv, n, ListOfEmpty) == Err(UnsupportedOperation)
  {
  }

  /** On a list that accepts additions, the code as written does what the
      corrected assembly does: it appends the created bodies in order, or
      throws when an outcome is absent. */
  lemma {:induction false} AssembleOnMutableList(respond: (seq<Event>, Action) -> Option<Value>, h: seq<Event>, cv: Action, n: nat, items: seq<BodyId>)
    ensures var run := Creations(respond, h, cv, n);
      AssembleAsWritten(respond, h, cv, n, JavaList(items, true)) ==
        if run.failed then Err(NoSuchElement) else Ok(JavaList(items + run.bodies, true))
    decreases n
  {
    if n > 0 && IsBody(respond(h, cv)) {
      var b := respond(h, cv).value.body;
      AssembleOnMutableList(respond, h + [Performed(cv, None)], cv, n - 1, items + [b]);
      var rest := Creations(respond, h + [Performed(cv, None)], cv, n - 1);
      assert items + [b] + rest.bodies == items + ([b] + rest.bodies);
    } else {
      assert items + [] == items;
    }
  }

  lemma AppendAssociates(a: seq<BodyId>, b: seq<BodyId>, c: seq<BodyId>)
    ensures a + b + c == a + (b + c)
  {
  }

  /** The creation loop of assemble: issues cv n times, without a caller,
      collecting the created bodies in order, and stops at the first
      outcome that is not a body. */
  method CreateUnits(engine: Engine, cv: Action, n: nat) returns (created: seq<BodyId>, ok: bool)
    modifies engine
    ensures var run := Creations(engine.respond, old(engine.history), cv, n);
      created == run.bodies && engine.history == run.history && ok == !run.failed
    ensures engine.t == old(engine.t)
  {
    ghost var target := Creations(engine.respond, engine.history, cv, n);
    created := [];
    for i := 0 to n
      invariant engine.t == old(engine.t)
      invariant var rest := Creations(engine.respond, engine.history, cv, n - i);
        target == CreationRun(created + rest.bodies, rest.history, rest.failed)
    {
      CreationsStep(engine.respond, engine.history, cv, n - i);
      var o := engine.Perform(cv, None);
      if !IsBody(o) {
        assert created + [] == created;
        return created, false;
      }
      var b := o.value.body;
      ghost var rest := Creations(engine.respond, engine.history, cv, n - i - 1);
      AppendAssociates(created, [b], rest.bodies);
      created := created + [b];
    }
    assert created + [] == created;
    ok := true;
  }

  // ---------------------------------------------------------------------
  // The agent.

  const OutcomeMissing: string := "IndexOutOfBoundsException: no outcome at the cursor"
  const MissingBrain: string := "IndexOutOfBoundsException: fewer brains than units"
  const MissingUnit: string := "IndexOutOfBoundsException: a unit without a sensor list or without a body"
  const NoFirstSensorList: string := "IndexOutOfBoundsException: no sensor list for the first unit"
  const NarrowOutput: string := "ArrayIndexOutOfBoundsException: output row narrower than nOfOutputs"
  const WrongDimension: string := "IllegalArgumentException: brain dimension mismatch"

  /** The constructor looks up the first unit's sensor list once per brain,
      before checking that brain: with brains and no sensor lists it throws
      at the first brain. With no brains the sensor lists are not looked at. */
  predicate FirstSensorListPresent(brains: seq<Brain>, sensors: seq<seq<Sensor>>) {
    brains == [] || sensors != []
  }

  /** The constructor's check: every brain declares the inputs of the first
      unit's sensor list plus the message channels, and the outputs the
      agent reads. Checked brains accept the agent's own input rows, which
      are sized by the number of sensor lists, exactly when that number is
      the size of the first list. */
  predicate DimensionsChecked(brains: seq<Brain>, sensors: seq<seq<Sensor>>, nSignals: nat): (ok: bool)
    requires FirstSensorListPresent(brains, sensors)
    ensures ok && brains != [] ==>
      (brains[0].nOfInputs == NOfInputs(|sensors|, nSignals) <==> |sensors| == |sensors[0]|)
  {
    forall k :: 0 <= k < |brains| ==>
      CheckDimension(brains[k], NOfInputs(|sensors[0]|, nSignals), NOfOutputs(nSignals))
  }

  /** The input rows are as wide as the number of sensor lists (one per
      unit) plus the message channels, while the brains are checked against
      the size of the first unit's sensor list: the two widths agree
      exactly when there are as many units as sensors in the first list. */
  lemma InputWidthAgainstCheck(sensors: seq<seq<Sensor>>, nSignals: nat)
    requires |sensors| > 0
    ensures NOfInputs(|sensors|, nSignals) == NOfInputs(|sensors[0]|, nSignals) <==> |sensors| == |sensors[0]|
  {
  }

  /** The rows of a two-dimensional array. */
  function Rows(a: array2<real>): (r: seq<seq<real>>)
    reads a
    ensures |r| == a.Length0
    ensures forall i :: 0 <= i < a.Length0 ==> |r[i]| == a.Length1
    ensures forall i, j :: 0 <= i < a.Length0 && 0 <= j < a.Length1 ==> r[i][j] == a[i, j]
  {
    seq(a.Length0, i requires 0 <= i < a.Length0 reads a =>
      seq(a.Length1, j requires 0 <= j < a.Length1 reads a => a[i, j]))
  }

  /** Some unit's output row is too short for the indexes the layout reads. */
  predicate SomeRowNarrow(outs: seq<seq<real>>, units: nat, nSignals: nat)
    requires units <= |outs|
  {
    exists i :: 0 <= i < units && |outs[i]| < NOfOutputs(nSignals)
  }

  /** The sense stream of act looks up sensors.get(i) for every unit and,
      for each of that unit's sensors, unitBody.get(i): it throws when a
      unit has no sensor list, or has sensors but no body. */
  predicate SensesFail(sensors: seq<seq<Sensor>>, nBodies: nat, units: nat) {
    |sensors| < units || exists i :: nBodies <= i < units && sensors[i] != []
  }

  /** The actuation stream of act reads unitBody.get(i) and then
      outputs[i][0], unit by unit: an empty output row of a unit that has a
      body throws before the first missing body does. */
  predicate EmptyRowFirst(outs: seq<seq<real>>, nBodies: nat, units: nat)
    requires units <= |outs|
  {
    exists i :: 0 <= i < units && i < nBodies && |outs[i]| == 0
  }

  class NumSelfAssemblyVsr {
    const unitNumber: nat
    const material: Material
    const voxelSideLength: real
    const voxelMass: real
    const nSignals: nat
    const brains: seq<Brain>
    const sensors: seq<seq<Sensor>>
    /** One row of inputs per unit. */
    const inputs: array2<real>
    /** One row of clipped outputs per unit, replaced at every step. */
    const outputs: array<seq<real>>
    /** The unit bodies created so far, in creation order. */
    var unitBody: seq<BodyId>

    ghost predicate Valid()
      reads this
    {
      inputs.Length0 == unitNumber && inputs.Length1 == NOfInputs(|sensors|, nSignals) &&
      outputs.Length == unitNumber
    }

    /** The agent before assembly: no bodies, inputs and outputs all 0, the
        input rows sized by the number of sensor lists. */
    constructor (unitNumber: nat, material: Material, voxelSideLength: real, voxelMass: real,
                 nSignals: nat, brains: seq<Brain>, sensors: seq<seq<Sensor>>)
      requires FirstSensorListPresent(brains, sensors) && DimensionsChecked(brains, sensors, nSignals)
      ensures Valid() && fresh(inputs) && fresh(outputs)
      ensures this.unitNumber == unitNumber && this.material == material
      ensures this.voxelSideLength == voxelSideLength && this.voxelMass == voxelMass
      ensures this.nSignals == nSignals && this.brains == brains && this.sensors == sensors
      ensures unitBody == []
      ensures forall i, j :: 0 <= i < unitNumber && 0 <= j < inputs.Length1 ==> inputs[i, j] == 0.0
      ensures forall i :: 0 <= i < unitNumber ==> outputs[i] == seq(NOfOutputs(nSignals), _ => 0.0)
    {
      this.unitNumber := unitNumber;
      this.material := material;
      this.voxelSideLength := voxelSideLength;
      this.voxelMass := voxelMass;
      this.nSignals := nSignals;
      this.brains := brains;
      this.sensors := sensors;
      this.inputs := new real[unitNumber, NOfInputs(|sensors|, nSignals)]((_, _) => 0.0);
      this.outputs := new seq<real>[unitNumber](_ => seq(NOfOutputs(nSignals), _ => 0.0));
      this.unitBody := [];
    }

    /** assemble: creates the unit voxels one by one, all with the agent's
        side length, mass and material, appending each body as it comes;
        an absent outcome stops the assembly. */
    method Assemble(engine: Engine) returns (ok: bool)
      modifies this, engine
      ensures var run := Creations(engine.respond, old(engine.history),
                                   CreateVoxel(voxelSideLength, voxelMass, material), unitNumber);
        unitBody == old(unitBody) + run.bodies && engine.history == run.history && ok == !run.failed
      ensures engine.t == old(engine.t)
    {
      var created;
      created, ok := CreateUnits(engine, CreateVoxel(voxelSideLength, voxelMass, material), unitNumber);
      unitBody := unitBody + created;
    }

    /** bodyParts: the unit bodies, in creation order. */
    function BodyParts(): seq<BodyId>
      reads this
    {
      unitBody
    }

    /** Reads row i in place from cursor c (the inner loop of the read). */
    method ReadInputRow(pao: seq<ActionOutcome>, i: nat, c0: nat) returns (c: nat, failed: bool)
      requires Valid() && i < unitNumber
      modifies inputs
      ensures var rr := ReadRow(old(Rows(inputs))[i], pao, c0, 0);
        Rows(inputs) == old(Rows(inputs))[i := rr.row] && c == rr.cursor && failed == rr.failed
    {
      ghost var rows := Rows(inputs);
      ghost var target := ReadRow(rows[i], pao, c0, 0);
      ghost var row := rows[i];
      c := c0;
      for j := 0 to inputs.Length1
        invariant |row| == inputs.Length1
        invariant forall m :: 0 <= m < inputs.Length1 ==> inputs[i, m] == row[m]
        invariant forall k, m :: 0 <= k < inputs.Length0 && k != i && 0 <= m < inputs.Length1 ==> inputs[k, m] == rows[k][m]
        invariant ReadRow(row, pao, c, j) == target
      {
        if c >= |pao| {
          RowsAfter(rows, i, row);
          return c, true;
        }
        var o := pao[c];
        if IsSense(o.action) {
          inputs[i, j] := Scaled(o);
          row := row[j := Scaled(o)];
          c := c + 1;
        }
      }
      RowsAfter(rows, i, row);
      failed := false;
    }

    /** The rows once row i alone has become row. */
    lemma RowsAfter(rows: seq<seq<real>>, i: nat, row: seq<real>)
      requires Valid() && |rows| == inputs.Length0 && i < |rows| && |row| == inputs.Length1
      requires forall k :: 0 <= k < |rows| ==> |rows[k]| == inputs.Length1
      requires forall m :: 0 <= m < inputs.Length1 ==> inputs[i, m] == row[m]
      requires forall k, m :: 0 <= k < inputs.Length0 && k != i && 0 <= m < inputs.Length1 ==> inputs[k, m] == rows[k][m]
      ensures Rows(inputs) == rows[i := row]
    {
      var r := Rows(inputs);
      forall k | 0 <= k < |rows|
        ensures r[k] == rows[i := row][k]
      {
        assert forall m :: 0 <= m < inputs.Length1 ==> r[k][m] == rows[i := row][k][m];
      }
    }

    /** Reads last tick's outcomes into the input rows, unit by unit, in
        place; stops with false where the cursor runs past the outcomes. */
    method ReadInputs(pao: seq<ActionOutcome>) returns (ok: bool)
      requires Valid()
      modifies inputs
      ensures var rd := ReadRows(old(Rows(inputs)), pao, 0, 0);
        Rows(inputs) == rd.rows && ok == !rd.failed
    {
      ghost var target := ReadRows(Rows(inputs), pao, 0, 0);
      var c := 0;
      for i := 0 to inputs.Length0
        invariant ReadRows(Rows(inputs), pao, c, i) == target
      {
        var failed;
        c, failed := ReadInputRow(pao, i, c);
        if failed {
          return false;
        }
      }
      return true;
    }

    /** Steps each unit's brain on its input row and stores the clipped
        outputs; stops with false at the first unit without a brain. */
    method ComputeOutputs(t: real) returns (ok: bool)
      requires Valid()
      modifies outputs
      ensures ok <==> unitNumber <= |brains|
      ensures forall i :: 0 <= i < unitNumber ==>
        outputs[i] == if i < |brains| then ClipAll(brains[i].step(t, Rows(inputs)[i])) else old(outputs[i])
    {
      for i := 0 to outputs.Length
        invariant i <= |brains|
        invariant forall k :: 0 <= k < unitNumber ==>
          outputs[k] == if k < i then ClipAll(brains[k].step(t, Rows(inputs)[k])) else old(outputs[k])
      {
        if i >= |brains| {
          return false;
        }
        outputs[i] := ClipAll(brains[i].step(t, Rows(inputs)[i]));
      }
      return true;
    }

    /** The layout's input, once the units and their bodies are known. */
    function TickFrame(outs: seq<seq<real>>, shapeOf: BodyId -> VoxelShape, direction: Point -> real): (f: Frame)
      requires unitNumber <= |sensors| && unitNumber <= |unitBody| && unitNumber <= |outs|
      requires !SomeRowNarrow(outs, unitNumber, nSignals)
      reads this
      ensures Fits(f)
    {
      var bodies := unitBody;
      Frame(unitNumber, nSignals, sensors, bodies,
            seq(unitNumber, i requires 0 <= i < unitNumber => shapeOf(bodies[i])), outs, direction)
    }

    /** What act returns once the inputs are read and the outputs stored:
        the first exception its streams and loops meet, in their order (the
        brains, the sense stream, the actuation stream, then the attachment
        and message loops, which read every other output index), or the
        tick's actions when every unit has a brain, a sensor list, a body and
        a wide enough output row. */
    function Emitted(outs: seq<seq<real>>, shapeOf: BodyId -> VoxelShape, direction: Point -> real): (r: Result<seq<Action>>)
      requires unitNumber <= |outs|
      reads this
      ensures r.Ok? <==> unitNumber <= |brains| && unitNumber <= |sensors| && unitNumber <= |unitBody| &&
                         !SomeRowNarrow(outs, unitNumber, nSignals)
      ensures r.Err? ==> r.error in {MissingBrain, MissingUnit, NarrowOutput}
    {
      if |brains| < unitNumber then Err(MissingBrain)
      else if SensesFail(sensors, |unitBody|, unitNumber) then Err(MissingUnit)
      else if EmptyRowFirst(outs, |unitBody|, unitNumber) then Err(NarrowOutput)
      else if |unitBody| < unitNumber then Err(MissingUnit)
      else if SomeRowNarrow(outs, unitNumber, nSignals) then Err(NarrowOutput)
      else Ok(Layout(TickFrame(outs, shapeOf, direction)))
    }

    /** act: reads the inputs, steps the brains and lays out the next
        actions. The bodies' shapes and the direction of a vector are the
        engine's, passed in. */
    method Act(t: real, pao: seq<ActionOutcome>, shapeOf: BodyId -> VoxelShape, direction: Point -> real)
      returns (r: Result<seq<Action>>)
      requires Valid()
      modifies inputs, outputs
      ensures var rd := ReadRows(old(Rows(inputs)), pao, 0, 0);
        Rows(inputs) == rd.rows &&
        (rd.failed ==> r == Err(OutcomeMissing) && outputs[..] == old(outputs[..])) &&
        (!rd.failed ==>
          (forall i :: 0 <= i < unitNumber ==>
            outputs[i] == if i < |brains| then ClipAll(brains[i].step(t, Rows(inputs)[i])) else old(outputs[i])) &&
          r == Emitted(outputs[..], shapeOf, direction))
    {
      var ok := ReadInputs(pao);
      if !ok {
        return Err(OutcomeMissing);
      }
      ok := ComputeOutputs(t);
      if !ok {
        return Err(MissingBrain);
      }
      if SensesFail(sensors, |unitBody|, unitNumber) {
        return Err(MissingUnit);
      }
      var outs := outputs[..];
      if EmptyRowFirst(outs, |unitBody|, unitNumber) {
        return Err(NarrowOutput);
      }
      if |unitBody| < unitNumber {
        return Err(MissingUnit);
      }
      if SomeRowNarrow(outs, unitNumber, nSignals) {
        return Err(NarrowOutput);
      }
      var actions := EmitActions(TickFrame(outs, shapeOf, direction));
      r := Ok(actions);
    }
  }

  /** Creating the agent: the constructor throws when there are brains but
      no sensor lists, and otherwise when the check fails. */
  method Create(unitNumber: nat, material: Material, voxelSideLength: real, voxelMass: real,
                nSignals: nat, brains: seq<Brain>, sensors: seq<seq<Sensor>>)
    returns (r: Result<NumSelfAssemblyVsr>)
    ensures r.Ok? <==> FirstSensorListPresent(brains, sensors) && DimensionsChecked(brains, sensors, nSignals)
    ensures r.Err? && !FirstSensorListPresent(brains, sensors) ==> r.error == NoFirstSensorList
    ensures r.Err? && FirstSensorListPresent(brains, sensors) ==> r.error == WrongDimension
    ensures r.Ok? ==> fresh(r.value) && r.value.Valid() && r.value.unitBody == []
    ensures r.Ok? ==> r.value.unitNumber == unitNumber && r.value.nSignals == nSignals
    ensures r.Ok? ==> r.value.brains == brains && r.value.sensors == sensors
  {
    if !FirstSensorListPresent(brains, sensors) {
      return Err(NoFirstSensorList);
    }
    if !DimensionsChecked(brains, sensors, nSignals) {
      return Err(WrongDimension);
    }
    var agent := new NumSelfAssemblyVsr(unitNumber, material, voxelSideLength, voxelMass, nSignals, brains, sensors);
    r := Ok(agent);
  }
}
