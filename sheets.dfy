/** The part of an openpyxl workbook the harnesses read: named worksheets
    whose cells hold text or nothing. Rows and columns are numbered from 1,
    a cell outside the written area is empty, and an empty sheet still
    reports one row and one column. */
module Sheets {
  import opened Text

  /** A cell value: `None` for an empty cell. */
  type Cell = Option<string>

  /** A worksheet as the list of its written rows, top to bottom. */
  type Sheet = seq<seq<Cell>>

  /** A workbook: its sheet names in tab order and the sheet under each name. */
  datatype Workbook = Workbook(names: seq<string>, sheets: map<string, Sheet>)

  /** A workbook as openpyxl presents it: every name once, each with a sheet. */
  ghost predicate WellFormed(wb: Workbook) {
    (forall i, j :: 0 <= i < j < |wb.names| ==> wb.names[i] != wb.names[j])
    && (forall n :: n in wb.sheets <==> n in wb.names)
  }

  /** `sheet.max_row`. */
  function MaxRow(s: Sheet): (n: nat)
    ensures n >= 1 && n >= |s|
  {
    if |s| == 0 then 1 else |s|
  }

  function Widest(s: Sheet): (w: nat)
  {
    if s == [] then 0
    else
      var w := Widest(s[..|s| - 1]);
      var last := |s[|s| - 1]|;
      if last > w then last else w
  }

  /** `sheet.max_column`. */
  function MaxColumn(s: Sheet): (n: nat)
    ensures n >= 1
  {
    var w := Widest(s);
    if w == 0 then 1 else w
  }

  /** No row is longer than the widest one. */
  lemma {:induction false} WidestBound(s: Sheet)
    ensures forall r :: 0 <= r < |s| ==> |s[r]| <= Widest(s)
  {
    if s != [] {
      WidestBound(s[..|s| - 1]);
      assert forall r :: 0 <= r < |s| - 1 ==> s[..|s| - 1][r] == s[r];
    }
  }

  /** `max_column` covers every written cell. */
  lemma MaxColumnBound(s: Sheet)
    ensures forall r :: 0 <= r < |s| ==> |s[r]| <= MaxColumn(s)
  {
    WidestBound(s);
  }

  /** `sheet.cell(row=r, column=c).value`, 1-based; empty outside the written area. */
  function CellAt(s: Sheet, r: int, c: int): Cell {
    if 1 <= r <= |s| && 1 <= c <= |s[r - 1]| then s[r - 1][c - 1] else None
  }

  /** The cells of row `r` from column `first` up to column `last`. */
  function Cells(s: Sheet, r: int, first: int, last: int): (cells: seq<Cell>)
    ensures |cells| == if last >= first then last - first + 1 else 0
  {
    if last < first then [] else seq(last - first + 1, k requires 0 <= k <= last - first => CellAt(s, r, first + k))
  }

  /** `sheet[r]`: every cell of row `r`, columns 1 to `max_column`. */
  function RowCells(s: Sheet, r: int): (cells: seq<Cell>)
    ensures |cells| == MaxColumn(s)
  {
    Cells(s, r, 1, MaxColumn(s))
  }

  /** The values of a row's cells in order, as `[c.value for c in row if c.value]`. */
  function Present(cells: seq<Cell>): (r: seq<string>)
    ensures |r| <= |cells|
    ensures forall k :: 0 <= k < |r| ==> r[k] != ""
  {
    if cells == [] then []
    else
      var rest := Present(cells[1..]);
      if Truthy(cells[0]) then [cells[0].value] + rest else rest
  }

  /** The non-`None` values of a row, as `[c.value for c in row if c.value is not None]`. */
  function NonNone(cells: seq<Cell>): (r: seq<string>)
    ensures |r| <= |cells|
  {
    if cells == [] then []
    else
      var rest := NonNone(cells[1..]);
      if cells[0].Some? then [cells[0].value] + rest else rest
  }

  /** `Present` keeps exactly the truthy cells, in order. */
  lemma {:induction false} PresentComplete(cells: seq<Cell>, k: nat)
    requires k < |cells| && Truthy(cells[k])
    ensures cells[k].value in Present(cells)
  {
    if k > 0 {
      PresentComplete(cells[1..], k - 1);
    }
  }

  /** Every value `Present` returns came from a truthy cell. */
  lemma {:induction false} PresentSound(cells: seq<Cell>, v: string)
    requires v in Present(cells)
    ensures Some(v) in cells
  {
    if cells != [] {
      if Truthy(cells[0]) && v == cells[0].value {
      } else {
        PresentSound(cells[1..], v);
        assert Some(v) in cells[1..];
      }
    }
  }

  /** Filtering distributes over concatenation, so the order is kept. */
  lemma {:induction false} PresentAppend(a: seq<Cell>, b: seq<Cell>)
    ensures Present(a + b) == Present(a) + Present(b)
  {
    if a != [] {
      assert (a + b)[1..] == a[1..] + b;
      PresentAppend(a[1..], b);
    } else {
      assert a + b == b;
    }
  }

  /** A cell's text, an empty cell read as "" (`v if v is not None else ""`). */
  function CellText(s: Sheet, r: int, c: int): (t: string)
    ensures CellAt(s, r, c).Some? ==> t == CellAt(s, r, c).value
    ensures CellAt(s, r, c).None? ==> t == ""
  {
    match CellAt(s, r, c)
    case None => ""
    case Some(v) => v
  }

  /** The sheet under `name`, when `name` is one of the workbook's sheet
      names; a name without a sheet behind it reads as an empty sheet. */
  function Lookup(wb: Workbook, name: string): (r: Option<Sheet>)
    ensures r.Some? <==> name in wb.names
    ensures r.Some? && name in wb.sheets ==> r.value == wb.sheets[name]
  {
    if name !in wb.names then None
    else if name in wb.sheets then Some(wb.sheets[name])
    else Some([])
  }
}
