/** How an agent reads last tick's outcomes into its controllers' input
    slots. Slots are visited in order with one cursor into the outcome list:
    a Sense outcome at the cursor is rescaled into [-1,1], written into the
    slot and consumed; any other outcome leaves the slot as it was and is not
    consumed. Reading at a cursor past the end of the list fails (the
    source's IndexOutOfBoundsException). */
module InputReading {
  import opened Wrappers
  import opened Ranges
  import opened Actions

  /** The input written for a sense outcome: its value (0 when absent)
      normalised against the action's own range and denormalised into the
      symmetric unit range. */
  function Scaled(o: ActionOutcome): (v: real)
    requires IsSense(o.action)
    ensures Contains(SymmetricUnit, v)
  {
    Denormalize(SymmetricUnit, Normalize(Range(o.action), SensedOrZero(o.outcome)))
  }

  /** An absent outcome is read as 0: at the middle of the range the action
      declares, that is, 0 for a sensor whose range is [-1,1] and -1 for one
      whose range is [0,1]. */
  lemma AbsentReadsAsZero(a: Action)
    requires IsSense(a)
    ensures Scaled(ActionOutcome(a, None)) == Denormalize(SymmetricUnit, Normalize(Range(a), 0.0))
    ensures Range(a) == SymmetricUnit ==> Scaled(ActionOutcome(a, None)) == 0.0
    ensures Range(a) == Unit ==> Scaled(ActionOutcome(a, None)) == -1.0
  {
  }

  datatype RowRead = RowRead(row: seq<real>, cursor: nat, failed: bool)

  /** Reads slots j.. of one row, starting at cursor c. */
  function ReadRow(row: seq<real>, pao: seq<ActionOutcome>, c: nat, j: nat): (r: RowRead)
    requires j <= |row|
    ensures |r.row| == |row|
    decreases |row| - j
  {
    if j == |row| then RowRead(row, c, false)
    else if c >= |pao| then RowRead(row, c, true)
    else if IsSense(pao[c].action) then ReadRow(row[j := Scaled(pao[c])], pao, c + 1, j + 1)
    else ReadRow(row, pao, c, j + 1)
  }

  /** What reading one row does. With n the number of outcomes consumed:
      the first n slots from j receive the n outcomes from the cursor, each
      a Sense outcome, in order; every other slot is unchanged; when slots
      remain, the reading either stopped at a non-Sense outcome (which is
      not consumed) or failed exactly because the cursor reached the end of
      the list. */
  lemma {:induction false} ReadRowMeaning(row: seq<real>, pao: seq<ActionOutcome>, c: nat, j: nat)
    requires j <= |row| && c <= |pao|
    ensures var r := ReadRow(row, pao, c, j);
      var n := r.cursor - c;
      && c <= r.cursor <= |pao|
      && n <= |row| - j
      && (forall m :: c <= m < r.cursor ==> IsSense(pao[m].action) && r.row[j + (m - c)] == Scaled(pao[m]))
      && (forall k :: 0 <= k < |row| && !(j <= k < j + n) ==> r.row[k] == row[k])
      && (r.failed <==> j + n < |row| && r.cursor == |pao|)
      && (!r.failed && j + n < |row| ==> !IsSense(pao[r.cursor].action))
    decreases |row| - j
  {
    if j == |row| || c >= |pao| {
    } else if IsSense(pao[c].action) {
      var row' := row[j := Scaled(pao[c])];
      ReadRowMeaning(row', pao, c + 1, j + 1);
      var r := ReadRow(row', pao, c + 1, j + 1);
      assert ReadRow(row, pao, c, j) == r;
      assert r.row[j] == Scaled(pao[c]);
    } else {
      StuckRow(row, pao, c, j);
    }
  }

  /** A non-Sense outcome at the cursor stops the row: nothing more is
      consumed or written. */
  lemma {:induction false} StuckRow(row: seq<real>, pao: seq<ActionOutcome>, c: nat, j: nat)
    requires j <= |row| && c < |pao| && !IsSense(pao[c].action)
    ensures ReadRow(row, pao, c, j) == RowRead(row, c, false)
    decreases |row| - j
  {
    if j < |row| {
      StuckRow(row, pao, c, j + 1);
    }
  }

  /** Enough outcomes for every remaining slot: reading cannot fail. */
  lemma RowNeverFails(row: seq<real>, pao: seq<ActionOutcome>, c: nat, j: nat)
    requires j <= |row| && c + (|row| - j) <= |pao|
    ensures !ReadRow(row, pao, c, j).failed
  {
    ReadRowMeaning(row, pao, c, j);
  }

  datatype RowsRead = RowsRead(rows: seq<seq<real>>, cursor: nat, failed: bool)

  /** Reads rows i.., each from slot 0, stopping at the first failure. */
  function ReadRows(rows: seq<seq<real>>, pao: seq<ActionOutcome>, c: nat, i: nat): (r: RowsRead)
    requires i <= |rows|
    ensures |r.rows| == |rows|
    ensures forall k :: 0 <= k < |rows| ==> |r.rows[k]| == |rows[k]|
    decreases |rows| - i
  {
    if i == |rows| then RowsRead(rows, c, false)
    else ContinueRows(rows, pao, i, ReadRow(rows[i], pao, c, 0))
  }

  /** Row i has been read into rr; carry on with the rows after it. */
  function ContinueRows(rows: seq<seq<real>>, pao: seq<ActionOutcome>, i: nat, rr: RowRead): (r: RowsRead)
    requires i < |rows| && |rr.row| == |rows[i]|
    ensures |r.rows| == |rows|
    ensures forall k :: 0 <= k < |rows| ==> |r.rows[k]| == |rows[k]|
    decreases |rows| - i, 0
  {
    if rr.failed then RowsRead(rows[i := rr.row], rr.cursor, true)
    else ReadRows(rows[i := rr.row], pao, rr.cursor, i + 1)
  }

  /** The number of slots in rows i.. */
  function SlotCount(rows: seq<seq<real>>, i: nat): nat
    requires i <= |rows|
    decreases |rows| - i
  {
    if i == |rows| then 0 else |rows[i]| + SlotCount(rows, i + 1)
  }

  /** With at least as many outcomes as slots left, reading all rows succeeds. */
  lemma {:induction false} RowsNeverFail(rows: seq<seq<real>>, pao: seq<ActionOutcome>, c: nat, i: nat)
    requires i <= |rows| && c + SlotCount(rows, i) <= |pao|
    ensures !ReadRows(rows, pao, c, i).failed
    decreases |rows| - i
  {
    if i < |rows| {
      var rr := ReadRow(rows[i], pao, c, 0);
      ReadRowMeaning(rows[i], pao, c, 0);
      var rows' := rows[i := rr.row];
      SlotCountAfter(rows, rows', i + 1);
      RowsNeverFail(rows', pao, rr.cursor, i + 1);
    }
  }

  lemma {:induction false} SlotCountAfter(rows: seq<seq<real>>, rows': seq<seq<real>>, i: nat)
    requires i <= |rows| == |rows'|
    requires forall k :: i <= k < |rows| ==> |rows'[k]| == |rows[k]|
    ensures SlotCount(rows', i) == SlotCount(rows, i)
    decreases |rows| - i
  {
    if i < |rows| {
      SlotCountAfter(rows, rows', i + 1);
    }
  }

  /** There is no guard against an empty outcome list: with no outcomes,
      reading fails as soon as there is a slot to read. */
  lemma EmptyOutcomesFail(rows: seq<seq<real>>)
    requires |rows| > 0 && |rows[0]| > 0
    ensures ReadRows(rows, [], 0, 0).failed
  {
  }

  datatype CellsRead = CellsRead(cells: seq<Option<seq<real>>>, cursor: nat, failed: bool)

  /** Keeps the shape of a grid of optional rows: the same cells are absent
      and present rows keep their length. */
  predicate SameShape(a: seq<Option<seq<real>>>, b: seq<Option<seq<real>>>) {
    |a| == |b| &&
    forall k :: 0 <= k < |a| ==> (a[k].Some? <==> b[k].Some?) && (a[k].Some? ==> |a[k].value| == |b[k].value|)
  }

  /** Reads the present cells k.., in order, skipping absent ones. */
  function ReadCells(cells: seq<Option<seq<real>>>, pao: seq<ActionOutcome>, c: nat, k: nat): (r: CellsRead)
    requires k <= |cells|
    ensures SameShape(r.cells, cells)
    ensures forall m :: 0 <= m < k ==> r.cells[m] == cells[m]
    decreases |cells| - k, 1
  {
    if k == |cells| then CellsRead(cells, c, false)
    else if cells[k].None? then ReadCells(cells, pao, c, k + 1)
    else ContinueCells(cells, pao, k, ReadRow(cells[k].value, pao, c, 0))
  }

  /** Present cell k has been read into rr; carry on with the cells after it. */
  function ContinueCells(cells: seq<Option<seq<real>>>, pao: seq<ActionOutcome>, k: nat, rr: RowRead): (r: CellsRead)
    requires k < |cells| && cells[k].Some? && |rr.row| == |cells[k].value|
    ensures SameShape(r.cells, cells)
    ensures forall m :: 0 <= m < k ==> r.cells[m] == cells[m]
    decreases |cells| - k, 0
  {
    if rr.failed then CellsRead(cells[k := Some(rr.row)], rr.cursor, true)
    else ReadCells(cells[k := Some(rr.row)], pao, rr.cursor, k + 1)
  }

  /** Absent cells are skipped: they are left absent and consume nothing. */
  lemma {:induction false} AbsentCellsUntouched(cells: seq<Option<seq<real>>>, pao: seq<ActionOutcome>, c: nat, k: nat)
    requires k <= |cells|
    ensures forall m :: 0 <= m < |cells| && cells[m].None? ==> ReadCells(cells, pao, c, k).cells[m].None?
  {
  }
}
