/** The grid agent: a fixed grid of voxels, each cell with its own sensors;
    one timed function maps the grid of inputs to a grid of actuation
    values. Grids are sequences of optional cells in key order. */
module GridVsr {
  import opened Wrappers
  import opened Ranges
  import opened Actions
  import opened InputReading
  import opened SelfAssembly

  /** One entry of the grid the timed function returns: a key (the cell's
      position in key order) and its value, absent for a null cell. */
  datatype GridEntry = GridEntry(key: nat, value: Option<real>)

  const GridIndexOutOfBounds: string := "IndexOutOfBoundsException: grid key"
  const NoSensorList: string := "NullPointerException: voxel without a sensor list"
  const NoOutput: string := "NullPointerException: voxel without an output"
  const GridOutcomeMissing: string := "IndexOutOfBoundsException: no outcome at the cursor"

  /** The input grid at construction: a zero row as long as each sensor
      list, and no row where there is no sensor list. */
  function InitialInputs(sensorsGrid: seq<Option<seq<Sensor>>>): (r: seq<Option<seq<real>>>)
    ensures |r| == |sensorsGrid|
    ensures forall k :: 0 <= k < |r| ==> (r[k].Some? <==> sensorsGrid[k].Some?)
    ensures forall k :: 0 <= k < |r| && r[k].Some? ==>
      |r[k].value| == |sensorsGrid[k].value| && forall m :: 0 <= m < |r[k].value| ==> r[k].value[m] == 0.0
  {
    seq(|sensorsGrid|, k requires 0 <= k < |sensorsGrid| =>
      if sensorsGrid[k].Some? then Some(seq(|sensorsGrid[k].value|, _ => 0.0)) else None)
  }

  /** The output grid at construction: 0 where there is a voxel, nothing
      elsewhere. */
  function InitialOutputs(voxels: seq<Option<BodyId>>): (r: seq<Option<real>>)
    ensures |r| == |voxels|
    ensures forall k :: 0 <= k < |r| ==> (voxels[k].Some? <==> r[k] == Some(0.0))
    ensures forall k :: 0 <= k < |r| ==> (voxels[k].None? <==> r[k] == None)
  {
    seq(|voxels|, k requires 0 <= k < |voxels| => if voxels[k].Some? then Some(0.0) else None)
  }

  datatype SetRun = SetRun(cells: seq<Option<real>>, failed: bool)

  /** Setting the entries n.. into the cells one by one, in order: a key
      outside the grid stops the setting. */
  function SetEntries(cells: seq<Option<real>>, entries: seq<GridEntry>, n: nat): (r: SetRun)
    requires n <= |entries|
    ensures |r.cells| == |cells|
    decreases |entries| - n
  {
    if n == |entries| then SetRun(cells, false)
    else if entries[n].key >= |cells| then SetRun(cells, true)
    else SetEntries(cells[entries[n].key := entries[n].value], entries, n + 1)
  }

  /** Whether some entry from n on names cell k. */
  predicate Named(entries: seq<GridEntry>, n: nat, k: nat)
    requires n <= |entries|
  {
    exists m :: n <= m < |entries| && entries[m].key == k
  }

  /** The value of the last entry from n on naming cell k. */
  function LastValue(entries: seq<GridEntry>, n: nat, k: nat): Option<real>
    requires n <= |entries| && Named(entries, n, k)
    decreases |entries| - n
  {
    if Named(entries, n + 1, k) then LastValue(entries, n + 1, k) else entries[n].value
  }

  /** Setting succeeds exactly when every key is inside the grid, and then
      a cell named by some entry holds the value of the last entry naming
      it while every other cell keeps its value. */
  lemma {:induction false} SetEntriesMeaning(cells: seq<Option<real>>, entries: seq<GridEntry>, n: nat)
    requires n <= |entries|
    ensures var r := SetEntries(cells, entries, n);
      && (r.failed <==> exists m :: n <= m < |entries| && entries[m].key >= |cells|)
      && (!r.failed ==> forall k :: 0 <= k < |cells| ==>
            r.cells[k] == if Named(entries, n, k) then LastValue(entries, n, k) else cells[k])
    decreases |entries| - n
  {
    if n < |entries| {
      var e := entries[n];
      if e.key < |cells| {
        var cells' := cells[e.key := e.value];
        SetEntriesMeaning(cells', entries, n + 1);
        var r := SetEntries(cells', entries, n + 1);
        forall k | 0 <= k < |cells| && !r.failed
          ensures r.cells[k] == if Named(entries, n, k) then LastValue(entries, n, k) else cells[k]
        {
          if Named(entries, n + 1, k) {
            var m :| n + 1 <= m < |entries| && entries[m].key == k;
            assert Named(entries, n, k);
          } else if k == e.key {
            assert Named(entries, n, k);
          } else {
            assert !Named(entries, n, k);
          }
        }
      }
    }
  }

  /** Whether every voxel cell has a sensor list. */
  predicate SensorsWithVoxels(voxels: seq<Option<BodyId>>, sensorsGrid: seq<Option<seq<Sensor>>>)
    requires |voxels| == |sensorsGrid|
  {
    forall k :: 0 <= k < |voxels| && voxels[k].Some? ==> sensorsGrid[k].Some?
  }

  /** Whether every voxel cell has an output value. */
  predicate OutputsWithVoxels(voxels: seq<Option<BodyId>>, outputs: seq<Option<real>>)
    requires |voxels| == |outputs|
  {
    forall k :: 0 <= k < |voxels| && voxels[k].Some? ==> outputs[k].Some?
  }

  /** The sense actions of the voxel cells among 0..n-1, cell by cell, each
      in its sensors' order. */
  function GridSenses(voxels: seq<Option<BodyId>>, sensorsGrid: seq<Option<seq<Sensor>>>, n: nat): seq<Action>
    requires |voxels| == |sensorsGrid| && n <= |voxels| && SensorsWithVoxels(voxels, sensorsGrid)
  {
    if n == 0 then []
    else if voxels[n - 1].None? then GridSenses(voxels, sensorsGrid, n - 1)
    else
      var sensors := sensorsGrid[n - 1].value;
      GridSenses(voxels, sensorsGrid, n - 1) +
        seq(|sensors|, j requires 0 <= j < |sensors| => Apply(sensors[j], voxels[n - 1].value))
  }

  /** One actuation per voxel cell among 0..n-1, with that cell's output,
      unclipped. */
  function GridActuations(voxels: seq<Option<BodyId>>, outputs: seq<Option<real>>, n: nat): seq<Action>
    requires |voxels| == |outputs| && n <= |voxels| && OutputsWithVoxels(voxels, outputs)
  {
    if n == 0 then []
    else if voxels[n - 1].None? then GridActuations(voxels, outputs, n - 1)
    else GridActuations(voxels, outputs, n - 1) + [Actuate(voxels[n - 1].value, outputs[n - 1].value)]
  }

  /** The number of voxel cells among 0..n-1. */
  function VoxelCount(voxels: seq<Option<BodyId>>, n: nat): nat
    requires n <= |voxels|
  {
    if n == 0 then 0 else VoxelCount(voxels, n - 1) + (if voxels[n - 1].Some? then 1 else 0)
  }

  /** The number of sensors of the voxel cells among 0..n-1. */
  function GridSensorCount(voxels: seq<Option<BodyId>>, sensorsGrid: seq<Option<seq<Sensor>>>, n: nat): nat
    requires |voxels| == |sensorsGrid| && n <= |voxels| && SensorsWithVoxels(voxels, sensorsGrid)
  {
    if n == 0 then 0
    else (GridSensorCount(voxels, sensorsGrid, n - 1) +
          (if voxels[n - 1].Some? then |sensorsGrid[n - 1].value| else 0))
  }

  /** The actions of one tick: all the senses, then all the actuations.
      Sensor j of voxel cell k acts after the sensors of the voxel cells
      before k, and the actuation of voxel cell k follows all the senses and
      the actuations of the voxel cells before k. */
  function GridLayout(voxels: seq<Option<BodyId>>, sensorsGrid: seq<Option<seq<Sensor>>>, outputs: seq<Option<real>>): (r: seq<Action>)
    requires |voxels| == |sensorsGrid| == |outputs|
    requires SensorsWithVoxels(voxels, sensorsGrid) && OutputsWithVoxels(voxels, outputs)
    ensures |r| == GridSensorCount(voxels, sensorsGrid, |voxels|) + VoxelCount(voxels, |voxels|)
    ensures forall k :: 0 <= k < |voxels| && voxels[k].Some? ==>
      GridSensorCount(voxels, sensorsGrid, k) + |sensorsGrid[k].value| <= GridSensorCount(voxels, sensorsGrid, |voxels|)
    ensures forall k, j :: 0 <= k < |voxels| && voxels[k].Some? && 0 <= j < |sensorsGrid[k].value| ==>
      r[GridSensorCount(voxels, sensorsGrid, k) + j] == Apply(sensorsGrid[k].value[j], voxels[k].value)
    ensures forall k :: 0 <= k < |voxels| && voxels[k].Some? ==>
      VoxelCount(voxels, k) < VoxelCount(voxels, |voxels|) &&
      r[GridSensorCount(voxels, sensorsGrid, |voxels|) + VoxelCount(voxels, k)] == Actuate(voxels[k].value, outputs[k].value)
  {
    GridSensesShape(voxels, sensorsGrid, |voxels|);
    GridActuationsLength(voxels, outputs, |voxels|);
    AllGridSensesAt(voxels, sensorsGrid);
    AllGridActuationsAt(voxels, outputs);
    GridSenses(voxels, sensorsGrid, |voxels|) + GridActuations(voxels, outputs, |voxels|)
  }

  lemma AllGridSensesAt(voxels: seq<Option<BodyId>>, sensorsGrid: seq<Option<seq<Sensor>>>)
    requires |voxels| == |sensorsGrid| && SensorsWithVoxels(voxels, sensorsGrid)
    ensures |GridSenses(voxels, sensorsGrid, |voxels|)| == GridSensorCount(voxels, sensorsGrid, |voxels|)
    ensures forall k :: 0 <= k < |voxels| && voxels[k].Some? ==>
      GridSensorCount(voxels, sensorsGrid, k) + |sensorsGrid[k].value| <= GridSensorCount(voxels, sensorsGrid, |voxels|)
    ensures forall k, j :: 0 <= k < |voxels| && voxels[k].Some? && 0 <= j < |sensorsGrid[k].value| ==>
      GridSenses(voxels, sensorsGrid, |voxels|)[GridSensorCount(voxels, sensorsGrid, k) + j] ==
        Apply(sensorsGrid[k].value[j], voxels[k].value)
  {
    GridSensesShape(voxels, sensorsGrid, |voxels|);
    forall k | 0 <= k < |voxels| && voxels[k].Some?
      ensures GridSensorCount(voxels, sensorsGrid, k) + |sensorsGrid[k].value| <= GridSensorCount(voxels, sensorsGrid, |voxels|)
    {
      GridSensorCountMonotone(voxels, sensorsGrid, k + 1, |voxels|);
    }
    forall k, j | 0 <= k < |voxels| && voxels[k].Some? && 0 <= j < |sensorsGrid[k].value|
      ensures GridSenses(voxels, sensorsGrid, |voxels|)[GridSensorCount(voxels, sensorsGrid, k) + j] ==
        Apply(sensorsGrid[k].value[j], voxels[k].value)
    {
      GridSenseAt(voxels, sensorsGrid, |voxels|, k, j);
    }
  }

  lemma AllGridActuationsAt(voxels: seq<Option<BodyId>>, outputs: seq<Option<real>>)
    requires |voxels| == |outputs| && OutputsWithVoxels(voxels, outputs)
    ensures forall k :: 0 <= k < |voxels| && voxels[k].Some? ==>
      VoxelCount(voxels, k) < |GridActuations(voxels, outputs, |voxels|)| &&
      GridActuations(voxels, outputs, |voxels|)[VoxelCount(voxels, k)] == Actuate(voxels[k].value, outputs[k].value)
  {
    forall k | 0 <= k < |voxels| && voxels[k].Some? {
      GridActuationAt(voxels, outputs, |voxels|, k);
    }
  }

  /** There are as many sense actions as sensors on voxel cells, and all of
      them are sense actions. */
  lemma {:induction false} GridSensesShape(voxels: seq<Option<BodyId>>, sensorsGrid: seq<Option<seq<Sensor>>>, n: nat)
    requires |voxels| == |sensorsGrid| && n <= |voxels| && SensorsWithVoxels(voxels, sensorsGrid)
    ensures |GridSenses(voxels, sensorsGrid, n)| == GridSensorCount(voxels, sensorsGrid, n)
    ensures forall a :: a in GridSenses(voxels, sensorsGrid, n) ==> IsSense(a)
  {
    if n > 0 {
      GridSensesShape(voxels, sensorsGrid, n - 1);
    }
  }

  /** Sensor j of voxel cell k performs the action after the sensors of the
      voxel cells before k. */
  lemma {:induction false} GridSenseAt(voxels: seq<Option<BodyId>>, sensorsGrid: seq<Option<seq<Sensor>>>, n: nat, k: nat, j: nat)
    requires |voxels| == |sensorsGrid| && n <= |voxels| && SensorsWithVoxels(voxels, sensorsGrid)
    requires k < n && voxels[k].Some? && j < |sensorsGrid[k].value|
    ensures GridSensorCount(voxels, sensorsGrid, k) + j < |GridSenses(voxels, sensorsGrid, n)|
    ensures GridSenses(voxels, sensorsGrid, n)[GridSensorCount(voxels, sensorsGrid, k) + j] ==
      Apply(sensorsGrid[k].value[j], voxels[k].value)
    decreases n
  {
    GridSensesShape(voxels, sensorsGrid, n - 1);
    GridSensesShape(voxels, sensorsGrid, n);
    if k < n - 1 {
      GridSenseAt(voxels, sensorsGrid, n - 1, k, j);
      GridSensorCountMonotone(voxels, sensorsGrid, k + 1, n - 1);
    }
  }

  lemma {:induction false} GridSensorCountMonotone(voxels: seq<Option<BodyId>>, sensorsGrid: seq<Option<seq<Sensor>>>, k: nat, n: nat)
    requires |voxels| == |sensorsGrid| && k <= n <= |voxels| && SensorsWithVoxels(voxels, sensorsGrid)
    ensures GridSensorCount(voxels, sensorsGrid, k) <= GridSensorCount(voxels, sensorsGrid, n)
    decreases n
  {
    if k < n {
      GridSensorCountMonotone(voxels, sensorsGrid, k, n - 1);
    }
  }

  /** There is one actuation per voxel cell. */
  lemma {:induction false} GridActuationsLength(voxels: seq<Option<BodyId>>, outputs: seq<Option<real>>, n: nat)
    requires |voxels| == |outputs| && n <= |voxels| && OutputsWithVoxels(voxels, outputs)
    ensures |GridActuations(voxels, outputs, n)| == VoxelCount(voxels, n)
  {
    if n > 0 {
      GridActuationsLength(voxels, outputs, n - 1);
    }
  }

  lemma {:induction false} VoxelCountMonotone(voxels: seq<Option<BodyId>>, k: nat, n: nat)
    requires k <= n <= |voxels|
    ensures VoxelCount(voxels, k) <= VoxelCount(voxels, n)
    decreases n
  {
    if k < n {
      VoxelCountMonotone(voxels, k, n - 1);
    }
  }

  /** The actuation of voxel cell k comes after those of the voxel cells
      before it and carries the cell's output, unclipped. */
  lemma {:induction false} GridActuationAt(voxels: seq<Option<BodyId>>, outputs: seq<Option<real>>, n: nat, k: nat)
    requires |voxels| == |outputs| && n <= |voxels| && OutputsWithVoxels(voxels, outputs)
    requires k < n && voxels[k].Some?
    ensures VoxelCount(voxels, k) < |GridActuations(voxels, outputs, n)|
    ensures GridActuations(voxels, outputs, n)[VoxelCount(voxels, k)] == Actuate(voxels[k].value, outputs[k].value)
    decreases n
  {
    GridActuationsLength(voxels, outputs, n - 1);
    GridActuationsLength(voxels, outputs, n);
    if k < n - 1 {
      GridActuationAt(voxels, outputs, n - 1, k);
      VoxelCountMonotone(voxels, k + 1, n - 1);
    }
  }

  /** The tick's action count: the sensors of the voxel cells plus one per
      voxel cell; every action before the actuations is a sense action. */
  lemma GridLayoutShape(voxels: seq<Option<BodyId>>, sensorsGrid: seq<Option<seq<Sensor>>>, outputs: seq<Option<real>>)
    requires |voxels| == |sensorsGrid| == |outputs|
    requires SensorsWithVoxels(voxels, sensorsGrid) && OutputsWithVoxels(voxels, outputs)
    ensures |GridLayout(voxels, sensorsGrid, outputs)| ==
      GridSensorCount(voxels, sensorsGrid, |voxels|) + VoxelCount(voxels, |voxels|)
    ensures forall p :: 0 <= p < GridSensorCount(voxels, sensorsGrid, |voxels|) ==>
      IsSense(GridLayout(voxels, sensorsGrid, outputs)[p])
  {
    var senses := GridSenses(voxels, sensorsGrid, |voxels|);
    GridSensesShape(voxels, sensorsGrid, |voxels|);
    GridActuationsLength(voxels, outputs, |voxels|);
    forall p | 0 <= p < |senses|
      ensures IsSense(GridLayout(voxels, sensorsGrid, outputs)[p])
    {
      assert senses[p] in senses;
    }
  }

  class NumGridVsr {
    /** The voxel of each cell, absent where the body has none. */
    const voxels: seq<Option<BodyId>>
    const sensorsGrid: seq<Option<seq<Sensor>>>
    /** timedFunction: time and inputs to a grid of actuation values. */
    const timedFunction: (real, seq<Option<seq<real>>>) -> seq<GridEntry>
    const inputsGrid: array<Option<seq<real>>>
    const outputGrid: array<Option<real>>

    ghost predicate Valid()
      reads this
    {
      |voxels| == |sensorsGrid| == inputsGrid.Length == outputGrid.Length
    }

    constructor (voxels: seq<Option<BodyId>>, sensorsGrid: seq<Option<seq<Sensor>>>,
                 timedFunction: (real, seq<Option<seq<real>>>) -> seq<GridEntry>)
      requires |voxels| == |sensorsGrid|
      ensures Valid() && fresh(inputsGrid) && fresh(outputGrid)
      ensures this.voxels == voxels && this.sensorsGrid == sensorsGrid && this.timedFunction == timedFunction
      ensures inputsGrid[..] == InitialInputs(sensorsGrid)
      ensures outputGrid[..] == InitialOutputs(voxels)
    {
      this.voxels := voxels;
      this.sensorsGrid := sensorsGrid;
      this.timedFunction := timedFunction;
      var inputs := InitialInputs(sensorsGrid);
      var outputs := InitialOutputs(voxels);
      this.inputsGrid := new Option<seq<real>>[|sensorsGrid|](k requires 0 <= k < |sensorsGrid| => inputs[k]);
      this.outputGrid := new Option<real>[|voxels|](k requires 0 <= k < |voxels| => outputs[k]);
    }

    /** Reads present cell k in place from cursor c0, slot by slot. */
    method ReadInputCell(pao: seq<ActionOutcome>, k: nat, c0: nat) returns (c: nat, failed: bool)
      requires Valid() && k < inputsGrid.Length && inputsGrid[k].Some?
      modifies inputsGrid
      ensures var rr := ReadRow(old(inputsGrid[k]).value, pao, c0, 0);
        inputsGrid[..] == old(inputsGrid[..])[k := Some(rr.row)] && c == rr.cursor && failed == rr.failed
    {
      ghost var cells := inputsGrid[..];
      var row := inputsGrid[k].value;
      ghost var target := ReadRow(row, pao, c0, 0);
      c := c0;
      for i := 0 to |row|
        invariant |row| == |cells[k].value|
        invariant inputsGrid[..] == cells[k := Some(row)]
        invariant ReadRow(row, pao, c, i) == target
      {
        if c >= |pao| {
          return c, true;
        }
        var outcome := pao[c];
        if IsSense(outcome.action) {
          row := row[i := Scaled(outcome)];
          inputsGrid[k] := Some(row);
          c := c + 1;
        }
      }
      failed := false;
    }

    /** Reads last tick's outcomes into the input cells, in key order,
        skipping absent cells; nothing is read when there are no outcomes. */
    method ReadInputs(pao: seq<ActionOutcome>) returns (ok: bool)
      requires Valid()
      modifies inputsGrid
      ensures pao == [] ==> inputsGrid[..] == old(inputsGrid[..]) && ok
      ensures pao != [] ==> var rd := ReadCells(old(inputsGrid[..]), pao, 0, 0);
        inputsGrid[..] == rd.cells && ok == !rd.failed
    {
      if pao == [] {
        return true;
      }
      ghost var target := ReadCells(inputsGrid[..], pao, 0, 0);
      var c := 0;
      for k := 0 to inputsGrid.Length
        invariant ReadCells(inputsGrid[..], pao, c, k) == target
      {
        if inputsGrid[k].Some? {
          var failed;
          c, failed := ReadInputCell(pao, k, c);
          if failed {
            return false;
          }
        }
      }
      return true;
    }

    /** Sets the timed function's entries into the output grid, in order;
        stops with false at a key outside the grid. */
    method ApplyOutputs(t: real) returns (ok: bool)
      requires Valid()
      modifies outputGrid
      ensures var r := SetEntries(old(outputGrid[..]), timedFunction(t, inputsGrid[..]), 0);
        outputGrid[..] == r.cells && ok == !r.failed
    {
      var entries := timedFunction(t, inputsGrid[..]);
      ghost var target := SetEntries(outputGrid[..], entries, 0);
      for n := 0 to |entries|
        invariant SetEntries(outputGrid[..], entries, n) == target
      {
        var e := entries[n];
        if e.key >= outputGrid.Length {
          return false;
        }
        outputGrid[e.key] := e.value;
      }
      return true;
    }

    /** act: reads the inputs, applies the timed function and lays out the
        senses and actuations of the voxel cells. */
    method Act(t: real, pao: seq<ActionOutcome>) returns (r: Result<seq<Action>>)
      requires Valid()
      modifies inputsGrid, outputGrid
      ensures var old_inputs := old(inputsGrid[..]);
        var rd := ReadCells(old_inputs, pao, 0, 0);
        && (pao == [] ==> inputsGrid[..] == old_inputs)
        && (pao != [] ==> inputsGrid[..] == rd.cells)
        && (pao != [] && rd.failed ==> r == Err(GridOutcomeMissing) && outputGrid[..] == old(outputGrid[..]))
      ensures (pao == [] || !ReadCells(old(inputsGrid[..]), pao, 0, 0).failed) ==>
        var st := SetEntries(old(outputGrid[..]), timedFunction(t, inputsGrid[..]), 0);
        && outputGrid[..] == st.cells
        && r == (if st.failed then Err(GridIndexOutOfBounds)
                 else if !SensorsWithVoxels(voxels, sensorsGrid) then Err(NoSensorList)
                 else if !OutputsWithVoxels(voxels, st.cells) then Err(NoOutput)
                 else Ok(GridLayout(voxels, sensorsGrid, st.cells)))
    {
      var ok := ReadInputs(pao);
      if !ok {
        return Err(GridOutcomeMissing);
      }
      ok := ApplyOutputs(t);
      if !ok {
        return Err(GridIndexOutOfBounds);
      }
      if !SensorsWithVoxels(voxels, sensorsGrid) {
        return Err(NoSensorList);
      }
      var outputs := outputGrid[..];
      if !OutputsWithVoxels(voxels, outputs) {
        return Err(NoOutput);
      }
      r := Ok(GridSenses(voxels, sensorsGrid, |voxels|) + GridActuations(voxels, outputs, |voxels|));
    }
  }
}
