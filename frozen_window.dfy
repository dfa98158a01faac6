/**
 The classification of a validator result by its frozen window
 (src/containers/Problem/sagas.js:150-169): only the last `frozen` cells,
 `cells.slice(-frozen)`, are inspected, and a cell fails when it has outputs
 whose `join().trim()` is not empty.
 */
module FrozenWindow {
  import opened Js
  import opened ProblemModel

  /** `!!cell.outputs && cell.outputs.join().trim()` is truthy. */
  predicate CellFails(c: Cell)
  {
    c.outputs.Some? && Trim(Join(c.outputs.value)) != ""
  }

  /** An element of the window that is a failing cell. */
  predicate SlotFails(s: Slot)
  {
    s.Present? && CellFails(s.cell)
  }

  /** The TypeError thrown by reading `outputs` of a null or undefined cell. */
  function MissingCellMessage(isNull: bool): string
  {
    if isNull then NullCellMessage else UndefinedCellMessage
  }

  /** The index of the first element of `cells.slice(-frozen)`. */
  function WindowStart(cells: seq<Slot>, frozen: int): (k: nat)
    ensures k <= |cells|
  {
    SliceStart(|cells|, -frozen)
  }

  /** `cells.slice(-frozen)`. */
  function Window(cells: seq<Slot>, frozen: int): seq<Slot>
  {
    cells[WindowStart(cells, frozen)..]
  }

  /** Some element of the frozen window is a failing cell. */
  predicate WindowFails(cells: seq<Slot>, frozen: int)
  {
    exists k :: WindowStart(cells, frozen) <= k < |cells| && SlotFails(cells[k])
  }

  /** What the `forEach` over a window ends with, for a given test of which
      cells fail: true once a cell fails (after which `solutionFailed || …`
      reads no further element), false when none fails, or the TypeError of
      the first missing element read before a cell fails. */
  function ScanBy(window: seq<Slot>, fails: Cell -> bool): Outcome<bool>
  {
    if window == [] then Ok(false)
    else if window[0].Missing? then Err(MissingCellMessage(window[0].isNull))
    else if fails(window[0].cell) then Ok(true)
    else ScanBy(window[1..], fails)
  }

  /** The scan of lines 153-156, where a cell fails by `CellFails`. */
  function Scan(window: seq<Slot>): Outcome<bool>
  {
    ScanBy(window, CellFails)
  }

  /** How the refresh classifies what the validator resolved with. */
  datatype Verdict = NotInspected | Failing | Passing | Throws(message: string)

  function Classify(result: ValidationResult, frozen: int): Verdict
  {
    match result
    case Opaque(_) => NotInspected
    case TextCells(text) => if text == "" then NotInspected else Throws(NoForEachMessage)
    case Cells(cells, _) =>
      match Scan(Window(cells, frozen))
      case Err(m) => Throws(m)
      case Ok(failed) => if failed then Failing else Passing
  }

  /** The `forEach` over `cells.slice(-frozen)` that accumulates `solutionFailed`. */
  method ScanFrozenWindow(cells: seq<Slot>, frozen: int) returns (solutionFailed: Outcome<bool>)
    ensures solutionFailed == Scan(Window(cells, frozen))
  {
    var window := cells[SliceStart(|cells|, -frozen)..];
    var failed := false;
    for i := 0 to |window|
      invariant Scan(window) == if failed then Ok(true) else Scan(window[i..])
    {
      if !failed {
        assert window[i..][1..] == window[i + 1..];
        if window[i].Missing? {
          return Err(MissingCellMessage(window[i].isNull));
        }
        failed := CellFails(window[i].cell);
      }
    }
    assert window[|window|..] == [];
    return Ok(failed);
  }

  /** Some element before index k is missing. */
  predicate MissingBefore(w: seq<Slot>, k: int)
  {
    exists j :: 0 <= j < k && j < |w| && w[j].Missing?
  }

  /** Some element before index k is a cell that `fails`. */
  predicate FailsBefore(w: seq<Slot>, k: int, fails: Cell -> bool)
  {
    exists j :: 0 <= j < k && j < |w| && w[j].Present? && fails(w[j].cell)
  }

  /** The scan is true exactly when some cell fails with no missing element
      before it. */
  lemma {:induction false} ScanTrueIff(w: seq<Slot>, fails: Cell -> bool)
    ensures ScanBy(w, fails) == Ok(true) <==>
              exists k :: 0 <= k < |w| && w[k].Present? && fails(w[k].cell) && !MissingBefore(w, k)
  {
    if w != [] && w[0].Present? && !fails(w[0].cell) {
      var r := w[1..];
      ScanTrueIff(r, fails);
      ShiftBefore(w, fails);
      if exists k :: 0 <= k < |w| && w[k].Present? && fails(w[k].cell) && !MissingBefore(w, k) {
        var k :| 0 <= k < |w| && w[k].Present? && fails(w[k].cell) && !MissingBefore(w, k);
        assert r[k - 1] == w[k];
      }
      if ScanBy(r, fails) == Ok(true) {
        var k :| 0 <= k < |r| && r[k].Present? && fails(r[k].cell) && !MissingBefore(r, k);
        assert w[k + 1] == r[k];
      }
    }
  }

  /** The scan throws exactly when some element is missing with no failing
      cell before it, and then with the TypeError of such an element. */
  lemma {:induction false} ScanThrowsIff(w: seq<Slot>, fails: Cell -> bool)
    ensures ScanBy(w, fails).Err? <==> exists k :: 0 <= k < |w| && w[k].Missing? && !FailsBefore(w, k, fails)
    ensures ScanBy(w, fails).Err? ==>
              exists k :: 0 <= k < |w| && w[k].Missing? && !FailsBefore(w, k, fails) &&
                          ScanBy(w, fails).message == MissingCellMessage(w[k].isNull)
  {
    if w != [] && w[0].Present? && !fails(w[0].cell) {
      var r := w[1..];
      ScanThrowsIff(r, fails);
      ShiftBefore(w, fails);
      if exists k :: 0 <= k < |w| && w[k].Missing? && !FailsBefore(w, k, fails) {
        var k :| 0 <= k < |w| && w[k].Missing? && !FailsBefore(w, k, fails);
        assert r[k - 1] == w[k];
      }
      if ScanBy(r, fails).Err? {
        var k :| 0 <= k < |r| && r[k].Missing? && !FailsBefore(r, k, fails) &&
                 ScanBy(r, fails).message == MissingCellMessage(r[k].isNull);
        assert w[k + 1] == r[k];
      }
    } else if w != [] && w[0].Missing? {
      assert !FailsBefore(w, 0, fails);
    }
  }

  /** Dropping a passing first cell shifts both "before" predicates by one. */
  lemma ShiftBefore(w: seq<Slot>, fails: Cell -> bool)
    requires w != [] && w[0].Present? && !fails(w[0].cell)
    ensures forall k :: 1 <= k <= |w| ==> (MissingBefore(w, k) <==> MissingBefore(w[1..], k - 1))
    ensures forall k :: 1 <= k <= |w| ==> (FailsBefore(w, k, fails) <==> FailsBefore(w[1..], k - 1, fails))
    ensures !MissingBefore(w, 0) && !FailsBefore(w, 0, fails)
  {
    var r := w[1..];
    forall k | 1 <= k <= |w|
      ensures MissingBefore(w, k) <==> MissingBefore(r, k - 1)
      ensures FailsBefore(w, k, fails) <==> FailsBefore(r, k - 1, fails)
    {
      if MissingBefore(w, k) {
        var j :| 0 <= j < k && j < |w| && w[j].Missing?;
        assert r[j - 1] == w[j];
      }
      if MissingBefore(r, k - 1) {
        var j :| 0 <= j < k - 1 && j < |r| && r[j].Missing?;
        assert w[j + 1] == r[j];
      }
      if FailsBefore(w, k, fails) {
        var j :| 0 <= j < k && j < |w| && w[j].Present? && fails(w[j].cell);
        assert r[j - 1] == w[j];
      }
      if FailsBefore(r, k - 1, fails) {
        var j :| 0 <= j < k - 1 && j < |r| && r[j].Present? && fails(r[j].cell);
        assert w[j + 1] == r[j];
      }
    }
  }

  /** With every element of the window a cell, the scan is true exactly when
      one of them fails, and never throws. */
  lemma PresentCellsScan(w: seq<Slot>)
    requires forall k :: 0 <= k < |w| ==> w[k].Present?
    ensures Scan(w) == Ok(exists k :: 0 <= k < |w| && SlotFails(w[k]))
  {
    ScanTrueIff(w, CellFails);
    ScanThrowsIff(w, CellFails);
    assert forall k :: 0 <= k <= |w| ==> !MissingBefore(w, k);
    assert !ScanBy(w, CellFails).Err?;
    if exists k :: 0 <= k < |w| && SlotFails(w[k]) {
      var k :| 0 <= k < |w| && SlotFails(w[k]);
      assert w[k].Present? && CellFails(w[k].cell) && !MissingBefore(w, k);
    } else {
      assert ScanBy(w, CellFails).Ok? && !ScanBy(w, CellFails).value;
      assert Scan(w) == Ok(false);
    }
  }

  /** A result with cells is classified failing exactly when a cell of the
      window fails before any missing element of the window is read, and
      throws exactly when a missing element is read before any cell fails. */
  lemma ClassifyCells(cells: seq<Slot>, otherFields: string, frozen: int)
    ensures var w := Window(cells, frozen);
            Classify(Cells(cells, otherFields), frozen) == Failing <==>
              exists k :: 0 <= k < |w| && w[k].Present? && CellFails(w[k].cell) && !MissingBefore(w, k)
    ensures var w := Window(cells, frozen);
            Classify(Cells(cells, otherFields), frozen).Throws? <==>
              exists k :: 0 <= k < |w| && w[k].Missing? && !FailsBefore(w, k, CellFails)
  {
    ScanTrueIff(Window(cells, frozen), CellFails);
    ScanThrowsIff(Window(cells, frozen), CellFails);
  }

  /** With every element a cell, the result is failing exactly when some cell
      of `cells.slice(-frozen)` fails, and passing otherwise. */
  lemma ClassifyPresentCells(cells: seq<Slot>, otherFields: string, frozen: int)
    requires forall k :: 0 <= k < |cells| ==> cells[k].Present?
    ensures Classify(Cells(cells, otherFields), frozen) == if WindowFails(cells, frozen) then Failing else Passing
  {
    var s := WindowStart(cells, frozen);
    var w := Window(cells, frozen);
    assert forall k :: 0 <= k < |w| ==> w[k] == cells[k + s];
    PresentCellsScan(w);
    if WindowFails(cells, frozen) {
      var k :| s <= k < |cells| && SlotFails(cells[k]);
      assert SlotFails(w[k - s]);
    }
  }

  /** A cell fails exactly when it has two or more outputs (the comma that
      `join()` inserts is visible) or a single output with a visible character.
      Outputs `[]`, `[""]` and `["   "]` are clean; `["", ""]` fails. */
  lemma CellFailsIff(c: Cell)
    ensures CellFails(c) <==>
              c.outputs.Some? &&
              (|c.outputs.value| >= 2 || (|c.outputs.value| == 1 && HasVisible(c.outputs.value[0])))
  {
    match c.outputs
    case None =>
    case Some(parts) =>
      JoinTrimEmptyIff(parts);
      assert CellFails(c) <==> Trim(Join(parts)) != "";
  }

  /** With `frozen == 0` (`slice(-0)` is `slice(0)`) or `frozen >= |cells|`
      every element is inspected. */
  lemma WholeArrayInspected(cells: seq<Slot>, frozen: int)
    requires frozen == 0 || frozen >= |cells|
    ensures Window(cells, frozen) == cells
    ensures WindowFails(cells, frozen) <==> exists k :: 0 <= k < |cells| && SlotFails(cells[k])
  {
    SliceFromEnd(|cells|, frozen);
  }

  /** With `0 < frozen <= |cells|` exactly the last `frozen` elements are inspected. */
  lemma TrailingCellsInspected(cells: seq<Slot>, frozen: int)
    requires 0 < frozen <= |cells|
    ensures Window(cells, frozen) == cells[|cells| - frozen..]
    ensures WindowFails(cells, frozen) <==> exists k :: |cells| - frozen <= k < |cells| && SlotFails(cells[k])
  {
    SliceFromEnd(|cells|, frozen);
  }

  /** A negative `frozen` makes `slice(-frozen)` skip the first `-frozen` elements. */
  lemma NegativeFrozenSkipsLeadingCells(cells: seq<Slot>, frozen: int)
    requires frozen < 0
    ensures Window(cells, frozen) == cells[if -frozen <= |cells| then -frozen else |cells|..]
    ensures WindowFails(cells, frozen) <==> exists k :: -frozen <= k < |cells| && SlotFails(cells[k])
  {
    SliceFromEnd(|cells|, frozen);
  }

  /** Elements before the window never affect the verdict, missing or not:
      with a window of `frozen` elements inside `tail`, any prefix may be put
      in front of it. */
  lemma CellsBeforeWindowIgnored(prefix: seq<Slot>, tail: seq<Slot>, otherFields: string, frozen: int)
    requires 0 < frozen <= |tail|
    ensures Classify(Cells(prefix + tail, otherFields), frozen) == Classify(Cells(tail, otherFields), frozen)
  {
    SliceFromEnd(|prefix + tail|, frozen);
    SliceFromEnd(|tail|, frozen);
    assert Window(prefix + tail, frozen) == Window(tail, frozen);
  }

  /** A cell whose outputs are absent, empty or a single white-space string. */
  predicate IsBlank(s: Slot)
  {
    s.Present? && (s.cell.outputs.None? || s.cell.outputs.value == [] ||
                   (|s.cell.outputs.value| == 1 && !HasVisible(s.cell.outputs.value[0])))
  }

  /** Blank cells never make the attempt fail, whatever their number or `frozen`. */
  lemma BlankCellsPass(cells: seq<Slot>, otherFields: string, frozen: int)
    requires forall k :: 0 <= k < |cells| ==> IsBlank(cells[k])
    ensures Classify(Cells(cells, otherFields), frozen) == Passing
  {
    forall k | 0 <= k < |cells| ensures !SlotFails(cells[k]) {
      CellFailsIff(cells[k].cell);
    }
    ClassifyPresentCells(cells, otherFields, frozen);
  }

  /** Frozen 2 over cells with outputs "", "", "Error: failed": the last cell
      is inside the window, so the attempt fails. */
  lemma TrailingErrorFails()
    ensures Classify(Cells([Present(Cell(Some([""]))), Present(Cell(Some([""]))),
                            Present(Cell(Some(["Error: failed"])))], ""), 2) == Failing
  {
    var blank := Present(Cell(Some([""])));
    var error := Present(Cell(Some(["Error: failed"])));
    var cells := [blank, blank, error];
    assert !IsWhiteSpace("Error: failed"[0]);
    CellFailsIff(error.cell);
    CellFailsIff(blank.cell);
    assert CellFails(error.cell) && !CellFails(blank.cell);
    SliceFromEnd(3, 2);
    assert Window(cells, 2) == [blank, error];
    assert ScanBy([blank, error], CellFails) == ScanBy([error], CellFails) by {
      assert [blank, error][1..] == [error];
    }
  }

  /** Frozen 2 over cells with outputs "Error", "", "": the failing cell is
      before the window, so the attempt passes. */
  lemma LeadingErrorIgnored()
    ensures Classify(Cells([Present(Cell(Some(["Error"]))), Present(Cell(Some([""]))),
                            Present(Cell(Some([""])))], ""), 2) == Passing
  {
    var blank := Present(Cell(Some([""])));
    var cells := [Present(Cell(Some(["Error"]))), blank, blank];
    CellFailsIff(blank.cell);
    assert !CellFails(blank.cell);
    SliceFromEnd(3, 2);
    assert Window(cells, 2) == [blank, blank];
    assert ScanBy([blank], CellFails) == Ok(false) by {
      assert [blank][1..] == [];
    }
    assert [blank, blank][1..] == [blank];
  }

  /** A missing element is not read once an earlier cell of the window has
      failed, nor when it lies before the window. */
  lemma MissingCellShortCircuit()
    ensures Classify(Cells([Present(Cell(Some(["Error"]))), Missing(true)], ""), 0) == Failing
    ensures Classify(Cells([Missing(true), Present(Cell(Some([""])))], ""), 1) == Passing
  {
    var error := Present(Cell(Some(["Error"])));
    var blank := Present(Cell(Some([""])));
    CellFailsIff(error.cell);
    CellFailsIff(blank.cell);
    assert !IsWhiteSpace("Error"[0]);
    assert CellFails(error.cell) && !CellFails(blank.cell);
    SliceFromEnd(2, 0);
    SliceFromEnd(2, 1);
    assert Window([error, Missing(true)], 0) == [error, Missing(true)];
    assert Window([Missing(true), blank], 1) == [blank];
    assert ScanBy([blank], CellFails) == Ok(false) by {
      assert [blank][1..] == [];
    }
  }

  /** A missing element read before any cell of the window fails throws its
      TypeError. */
  lemma MissingCellThrows()
    ensures Classify(Cells([Missing(true), Present(Cell(Some(["Error"])))], ""), 0) == Throws(NullCellMessage)
    ensures Classify(Cells([Present(Cell(Some([""]))), Missing(false)], ""), 0) == Throws(UndefinedCellMessage)
  {
    var blank := Present(Cell(Some([""])));
    CellFailsIff(blank.cell);
    assert !CellFails(blank.cell);
    SliceFromEnd(2, 0);
    assert Window([Missing(true), Present(Cell(Some(["Error"])))], 0) == [Missing(true), Present(Cell(Some(["Error"])))];
    assert Window([blank, Missing(false)], 0) == [blank, Missing(false)];
    assert ScanBy([blank, Missing(false)], CellFails) == ScanBy([Missing(false)], CellFails) by {
      assert [blank, Missing(false)][1..] == [Missing(false)];
    }
  }

  /** The comma of `join()`: two empty outputs fail, `[]`, `[""]` and `["   "]` do not. */
  lemma JoinCommaCounts()
    ensures CellFails(Cell(Some(["", ""])))
    ensures !CellFails(Cell(Some([]))) && !CellFails(Cell(Some([""]))) && !CellFails(Cell(Some(["   "])))
    ensures !CellFails(Cell(None))
  {
    CellFailsIff(Cell(Some(["", ""])));
    CellFailsIff(Cell(Some([])));
    CellFailsIff(Cell(Some([""])));
    CellFailsIff(Cell(Some(["   "])));
  }
}
