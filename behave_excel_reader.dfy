/** The Behave variant's workbook reader (`ExcelReader`): sheets read as
    lists of dictionaries keyed by the non-empty cells of row 1, the
    keyword and scenario views built on them, and the workbook loaded
    lazily, kept until `close`. What the file holds on disk is an input:
    `disk` is the workbook `openpyxl.load_workbook` would return for the
    reader's path at the moment of the call, `None` when the path does not
    exist. */
module BehaveExcel {
  import opened Text
  import opened Sheets

  /** The default sheet names of `read_test_cases`, `read_keywords` and
      `get_test_scenarios`. */
  const TEST_CASES := "TestCases"
  const KEYWORDS := "Keywords"
  const MASTER := "Master"

  /** A data row as a dictionary from header text to cell value. */
  type Row = map<string, Cell>

  /** `[cell.value for cell in sheet[1] if cell.value is not None]`. */
  function Headers(s: Sheet): (h: seq<string>)
    ensures |h| <= MaxColumn(s)
  {
    NonNone(RowCells(s, 1))
  }

  /** Row `r` as `read_all_data` builds it: the k-th header (from 1) is
      given the cell of column k, counting the kept headers and not the
      columns they came from, and a later duplicate header overwrites an
      earlier one. */
  function RowOf(s: Sheet, headers: seq<string>, r: int): Row
    decreases |headers|
  {
    if headers == [] then map[]
    else RowOf(s, headers[..|headers| - 1], r)[headers[|headers| - 1] := CellAt(s, r, |headers|)]
  }

  /** `any(v is not None for v in row_data.values())`. */
  predicate HasValue(row: Row) {
    exists h | h in row :: row[h].Some?
  }

  /** The rows 2 to `last`, top to bottom, before the empty ones are dropped. */
  function RowsUpTo(s: Sheet, headers: seq<string>, last: int): (rows: seq<Row>)
    ensures |rows| == if last < 2 then 0 else last - 1
  {
    if last < 2 then [] else seq(last - 1, i requires 0 <= i < last - 1 => RowOf(s, headers, i + 2))
  }

  /** `read_all_data` once the sheet is found. */
  function AllData(s: Sheet): (rows: seq<Row>)
    ensures |rows| <= if MaxRow(s) < 2 then 0 else MaxRow(s) - 1
  {
    Filter(RowsUpTo(s, Headers(s), MaxRow(s)), HasValue)
  }

  /** The keys of a row are exactly the headers. */
  lemma {:induction false} RowKeys(s: Sheet, headers: seq<string>, r: int, h: string)
    ensures h in RowOf(s, headers, r) <==> h in headers
    decreases |headers|
  {
    if headers != [] {
      var init := headers[..|headers| - 1];
      RowKeys(s, init, r, h);
      assert headers == init + [headers[|headers| - 1]];
    }
  }

  /** The k-th header holds the cell of column k + 1 (from 1), provided it
      does not occur again further right. */
  lemma {:induction false} RowLastWins(s: Sheet, headers: seq<string>, r: int, k: nat)
    requires k < |headers|
    requires forall j :: k < j < |headers| ==> headers[j] != headers[k]
    ensures headers[k] in RowOf(s, headers, r) && RowOf(s, headers, r)[headers[k]] == CellAt(s, r, k + 1)
    decreases |headers|
  {
    RowKeys(s, headers, r, headers[k]);
    if k < |headers| - 1 {
      var init := headers[..|headers| - 1];
      assert init[k] == headers[k];
      RowLastWins(s, init, r, k);
    }
  }

  /** The rows read are exactly those from row 2 to `last`. */
  lemma RowsUpToExactly(s: Sheet, headers: seq<string>, last: int, row: Row)
    ensures row in RowsUpTo(s, headers, last) ==> exists r :: 2 <= r <= last && row == RowOf(s, headers, r)
    ensures row in RowsUpTo(s, headers, last) <== exists r :: 2 <= r <= last && row == RowOf(s, headers, r)
  {
    var rows := RowsUpTo(s, headers, last);
    if row in rows {
      var i :| 0 <= i < |rows| && rows[i] == row;
      assert 2 <= i + 2 <= last && row == RowOf(s, headers, i + 2);
    }
    forall r | 2 <= r <= last && row == RowOf(s, headers, r)
      ensures row in rows
    {
      assert rows[r - 2] == RowOf(s, headers, (r - 2) + 2);
    }
  }

  /** A row is returned exactly when it is one of rows 2 to `max_row` and
      holds at least one value; its keys are the headers of row 1. */
  lemma AllDataExactly(s: Sheet, row: Row)
    ensures row in AllData(s) <==> HasValue(row) && exists r :: 2 <= r <= MaxRow(s) && row == RowOf(s, Headers(s), r)
    ensures row in AllData(s) ==> forall h :: h in row <==> h in Headers(s)
  {
    var headers := Headers(s);
    FilterExactly(RowsUpTo(s, headers, MaxRow(s)), HasValue, row);
    RowsUpToExactly(s, headers, MaxRow(s), row);
    if row in AllData(s) {
      var r :| 2 <= r <= MaxRow(s) && row == RowOf(s, headers, r);
      forall h ensures h in row <==> h in headers {
        RowKeys(s, headers, r, h);
      }
    }
  }

  /** An empty header cell shifts every header right of it onto the column
      to its left: with `A`, an empty cell and `B` in row 1, `B` reads
      column 2, and column 3 is not read at all. A row whose only value is
      in that column is dropped. */
  lemma HeaderGapShifts()
    ensures var s := [[Some("A"), None, Some("B")], [Some("a"), Some("x"), Some("b")]];
            AllData(s) == [map["A" := Some("a"), "B" := Some("x")]]
    ensures var s := [[Some("A"), None, Some("B")], [None, None, Some("b")]];
            AllData(s) == []
  {
    var s := [[Some("A"), None, Some("B")], [Some("a"), Some("x"), Some("b")]];
    assert Widest(s[..1]) == 3;
    assert RowCells(s, 1) == [Some("A"), None, Some("B")];
    assert Headers(s) == ["A", "B"];
    assert RowOf(s, ["A", "B"], 2) == map["A" := Some("a"), "B" := Some("x")];
    assert HasValue(map["A" := Some("a"), "B" := Some("x")]) by {
      assert map["A" := Some("a"), "B" := Some("x")]["A"].Some?;
    }
    assert RowsUpTo(s, Headers(s), MaxRow(s)) == [map["A" := Some("a"), "B" := Some("x")]];
    var t := [[Some("A"), None, Some("B")], [None, None, Some("b")]];
    assert Widest(t[..1]) == 3;
    assert RowCells(t, 1) == [Some("A"), None, Some("B")];
    assert Headers(t) == ["A", "B"];
    assert RowOf(t, ["A", "B"], 2) == map["A" := None, "B" := None];
    assert RowsUpTo(t, Headers(t), MaxRow(t)) == [map["A" := None, "B" := None]];
  }

  /** `row.get(key)`. */
  function Get(row: Row, key: string): Cell {
    if key in row then row[key] else None
  }

  /** `value or ''`. */
  function OrEmpty(c: Cell): (t: string)
    ensures t == "" <==> !Truthy(c)
  {
    if Truthy(c) then c.value else ""
  }

  /** A step of `read_keywords`. */
  datatype KeywordStep = KeywordStep(
    stepNo: Cell, keyword: Cell, locatorType: Cell, locatorValue: Cell, testData: Cell, description: string)

  /** A row in the standard step format, each field read from its column
      or from the alternative column when the first holds no text. */
  function StepOf(row: Row): (k: KeywordStep)
    ensures Truthy(k.keyword) <==> Truthy(Get(row, "Keyword")) || Truthy(Get(row, "Action"))
  {
    KeywordStep(
      Or(Get(row, "StepNo"), Get(row, "Step")),
      Or(Get(row, "Keyword"), Get(row, "Action")),
      Or(Get(row, "Locator"), Get(row, "LocatorType")),
      Or(Get(row, "LocatorValue"), Get(row, "Element")),
      Or(Or(Get(row, "TestData"), Get(row, "Value")), Get(row, "Data")),
      OrEmpty(Or(Get(row, "Description"), Get(row, "Comment"))))
  }

  predicate HasKeyword(k: KeywordStep) {
    Truthy(k.keyword)
  }

  function Converted(data: seq<Row>): (steps: seq<KeywordStep>)
    ensures |steps| == |data|
  {
    seq(|data|, i requires 0 <= i < |data| => StepOf(data[i]))
  }

  /** `read_keywords` on the rows of a sheet. */
  function KeywordSteps(data: seq<Row>): (steps: seq<KeywordStep>)
    ensures |steps| <= |data|
  {
    Filter(Converted(data), HasKeyword)
  }

  /** Where each field of a step comes from: the first column when it holds
      text, otherwise the alternative (`Action` for `Keyword`, and so on);
      the test data tries three columns; a description is always text. */
  lemma StepFallbacks(row: Row)
    ensures var k := StepOf(row);
            (Truthy(Get(row, "Keyword")) ==> k.keyword == row["Keyword"])
            && (!Truthy(Get(row, "Keyword")) ==> k.keyword == Get(row, "Action"))
            && (Truthy(Get(row, "TestData")) ==> k.testData == row["TestData"])
            && (!Truthy(Get(row, "TestData")) && Truthy(Get(row, "Value")) ==> k.testData == row["Value"])
            && (!Truthy(Get(row, "TestData")) && !Truthy(Get(row, "Value")) ==> k.testData == Get(row, "Data"))
            && (k.description == "" <==> !Truthy(Get(row, "Description")) && !Truthy(Get(row, "Comment")))
  {
    var d := Or(Get(row, "Description"), Get(row, "Comment"));
    assert Truthy(d) <==> Truthy(Get(row, "Description")) || Truthy(Get(row, "Comment"));
  }

  /** A step is returned exactly when some row converts to it and it has a
      keyword; the rows keep their order. */
  lemma KeywordStepsExactly(data: seq<Row>, k: KeywordStep)
    ensures k in KeywordSteps(data) <==> Truthy(k.keyword) && exists i :: 0 <= i < |data| && k == StepOf(data[i])
  {
    var steps := Converted(data);
    FilterExactly(steps, HasKeyword, k);
    if k in steps {
      var i :| 0 <= i < |steps| && steps[i] == k;
      assert k == StepOf(data[i]);
    }
    forall i | 0 <= i < |data| && k == StepOf(data[i])
      ensures k in steps
    {
      assert steps[i] == k;
    }
  }

  /** Reading the steps of two blocks of rows gives the steps of the first
      block followed by those of the second. */
  lemma KeywordStepsAppend(a: seq<Row>, b: seq<Row>)
    ensures KeywordSteps(a + b) == KeywordSteps(a) + KeywordSteps(b)
  {
    assert Converted(a + b) == Converted(a) + Converted(b);
    FilterAppend(Converted(a), Converted(b), HasKeyword);
  }

  /** A scenario of `get_test_scenarios`. */
  datatype Scenario = Scenario(testCaseId: Cell, screenFlow: Cell, description: string)

  /** The Execute values, lower-cased, that select a scenario. */
  const ExecuteTokens: set<string> := {"yes", "y", "true", "1"}

  /** `str(row.get('Execute', 'No')).lower()`: an empty cell reads "none". */
  function ExecuteText(row: Row): string {
    Lower(if "Execute" in row then PyStr(row["Execute"]) else "No")
  }

  predicate Selected(row: Row)
    ensures "Execute" !in row ==> !Selected(row)
  {
    ExecuteText(row) in ExecuteTokens
  }

  function ScenarioOf(row: Row): Scenario {
    Scenario(
      Or(Get(row, "TestCaseID"), Get(row, "TC_ID")),
      Or(Get(row, "ScreenFlow"), Get(row, "Screens")),
      OrEmpty(Get(row, "Description")))
  }

  /** `get_test_scenarios` on the rows of a sheet. */
  function Scenarios(data: seq<Row>): (r: seq<Scenario>)
    ensures |r| <= |data|
  {
    FilterMap(data, Selected, ScenarioOf)
  }

  /** A row is selected exactly when it has an Execute cell holding text
      whose lower-cased form is yes, y, true or 1: a missing column reads
      "no" and an empty cell "none", neither of which selects. */
  lemma SelectedExactly(row: Row)
    ensures Selected(row) <==> "Execute" in row && row["Execute"].Some? && Lower(row["Execute"].value) in ExecuteTokens
  {
    if "Execute" !in row {
      assert Lower("No")[1] == 'o';
    } else if row["Execute"].None? {
      assert Lower("None")[1] == 'o';
    }
  }

  /** The Execute text is not trimmed: a value with leading white space
      never selects, whatever follows it. */
  lemma LeadingSpaceRejected(row: Row, v: string)
    requires "Execute" in row && row["Execute"] == Some(v)
    requires |v| > 0 && IsSpace(v[0])
    ensures !Selected(row)
  {
    CaseKeepsSpace(v[0]);
    var t := ExecuteText(row);
    assert t[0] == LowerChar(v[0]);
    assert IsSpace(t[0]);
    assert !IsSpace("yes"[0]) && !IsSpace("y"[0]) && !IsSpace("true"[0]) && !IsSpace("1"[0]);
  }

  /** The scenarios are those of the selected rows, in their order. */
  lemma ScenariosExactly(data: seq<Row>, sc: Scenario)
    ensures sc in Scenarios(data) <==> exists i :: 0 <= i < |data| && Selected(data[i]) && sc == ScenarioOf(data[i])
  {
    FilterMapExactly(data, Selected, ScenarioOf, sc);
  }

  /** `row.get('TestCaseID') == test_case_id or row.get('TC_ID') == test_case_id`. */
  predicate Matches(row: Row, testCaseId: string) {
    Get(row, "TestCaseID") == Some(testCaseId) || Get(row, "TC_ID") == Some(testCaseId)
  }

  /** `read_test_data` on the rows of a sheet: the first matching row, or
      the empty dictionary when none matches. */
  function FirstMatch(data: seq<Row>, testCaseId: string): (r: Row)
    ensures (forall i :: 0 <= i < |data| ==> !Matches(data[i], testCaseId)) ==> r == map[]
    ensures (exists i :: 0 <= i < |data| && Matches(data[i], testCaseId)) ==>
              exists i :: 0 <= i < |data| && Matches(data[i], testCaseId) && r == data[i]
                          && forall j :: 0 <= j < i ==> !Matches(data[j], testCaseId)
  {
    if data == [] then map[]
    else if Matches(data[0], testCaseId) then data[0]
    else
      var r := FirstMatch(data[1..], testCaseId);
      assert forall i :: 1 <= i < |data| ==> data[1..][i - 1] == data[i];
      r
  }

  /** Why a read fails: the file is missing, the sheet is missing, or
      `sheet.cell(row, column)` was given a number below 1. */
  datatype ReaderError = FileNotFound(path: string) | SheetNotFound(name: string) | BelowOne

  function ErrorMessage(e: ReaderError): string {
    match e
    case FileNotFound(p) => "Test data file not found: " + p
    case SheetNotFound(n) => "Sheet '" + n + "' not found in workbook"
    case BelowOne => "Row or column values must be at least 1"
  }

  /** `read_column`: rows 1 to `max_row` of one column. */
  function Column(s: Sheet, column: int): (r: Result<seq<Cell>, ReaderError>)
    ensures column < 1 <==> r == Err(BelowOne)
    ensures r.Ok? ==> |r.value| == MaxRow(s)
  {
    if column < 1 then Err(BelowOne) else Ok(seq(MaxRow(s), i requires 0 <= i < MaxRow(s) => CellAt(s, i + 1, column)))
  }

  /** `read_row`: columns 1 to `max_column` of one row. */
  function RowValues(s: Sheet, row: int): (r: Result<seq<Cell>, ReaderError>)
    ensures row < 1 <==> r == Err(BelowOne)
    ensures r.Ok? ==> |r.value| == MaxColumn(s)
  {
    if row < 1 then Err(BelowOne) else Ok(RowCells(s, row))
  }

  /** `read_cell`. */
  function CellValue(s: Sheet, row: int, column: int): (r: Result<Cell, ReaderError>)
    ensures row < 1 || column < 1 <==> r == Err(BelowOne)
  {
    if row < 1 || column < 1 then Err(BelowOne) else Ok(CellAt(s, row, column))
  }

  /** Reading a column and reading a row agree on the cell where they
      cross, and that cell is what `read_cell` returns; a row read covers
      every written cell of that row. */
  lemma ColumnRowAgree(s: Sheet, row: int, column: int)
    requires 1 <= row <= MaxRow(s) && 1 <= column <= MaxColumn(s)
    ensures Column(s, column).value[row - 1] == RowValues(s, row).value[column - 1] == CellValue(s, row, column).value
    ensures row <= |s| ==> |s[row - 1]| <= MaxColumn(s) && forall c :: 0 <= c < |s[row - 1]| ==> RowValues(s, row).value[c] == s[row - 1][c]
  {
    MaxColumnBound(s);
    assert RowValues(s, row).value[column - 1] == CellAt(s, row, 1 + (column - 1));
    if row <= |s| {
      forall c | 0 <= c < |s[row - 1]| ensures RowValues(s, row).value[c] == s[row - 1][c] {
        assert RowValues(s, row).value[c] == CellAt(s, row, 1 + c);
      }
    }
  }

  /** `_load_workbook` from the workbook held (`current`): it is kept when
      there is one, otherwise the file is read, and a missing file raises. */
  function Load(current: Option<Workbook>, disk: Option<Workbook>, path: string): Result<Workbook, ReaderError> {
    if current.Some? then Ok(current.value)
    else if disk.None? then Err(FileNotFound(path))
    else Ok(disk.value)
  }

  /** The workbook held after `_load_workbook`. */
  function Held(current: Option<Workbook>, disk: Option<Workbook>): Option<Workbook> {
    if current.Some? then current else disk
  }

  /** Loading is lazy: a held workbook answers every later load, whatever
      the file holds by then; until one is held, a load returns the file's
      contents or the missing-file error; what is held afterwards is what
      the load answered. */
  lemma LoadIsLazy(current: Option<Workbook>, disk: Option<Workbook>, later: Option<Workbook>, path: string)
    ensures var h := Held(current, disk);
            h.Some? ==> Load(h, later, path) == Ok(h.value) && Held(h, later) == h
    ensures current.None? ==> (Load(current, disk, path).Ok? <==> disk.Some?)
    ensures current.None? && disk.None? ==> Load(current, disk, path) == Err(FileNotFound(path))
    ensures Load(current, disk, path).Ok? <==> Held(current, disk).Some?
    ensures Load(current, disk, path).Ok? ==> Held(current, disk) == Some(Load(current, disk, path).value)
  {}

  /** `get_sheet` after a load. */
  function SheetIn(wb: Result<Workbook, ReaderError>, name: string): (r: Result<Sheet, ReaderError>)
    ensures wb.Err? ==> r == Err(wb.error)
    ensures wb.Ok? ==> (r.Ok? <==> name in wb.value.names)
    ensures wb.Ok? && name !in wb.value.names ==> r == Err(SheetNotFound(name))
  {
    if wb.Err? then Err(wb.error)
    else match Lookup(wb.value, name)
      case None => Err(SheetNotFound(name))
      case Some(s) => Ok(s)
  }

  function DataIn(wb: Result<Workbook, ReaderError>, name: string): Result<seq<Row>, ReaderError> {
    match SheetIn(wb, name)
    case Err(e) => Err(e)
    case Ok(s) => Ok(AllData(s))
  }

  function KeywordsIn(wb: Result<Workbook, ReaderError>, name: string): Result<seq<KeywordStep>, ReaderError> {
    match SheetIn(wb, name)
    case Err(e) => Err(e)
    case Ok(s) => Ok(KeywordSteps(AllData(s)))
  }

  function ScenariosIn(wb: Result<Workbook, ReaderError>, name: string): Result<seq<Scenario>, ReaderError> {
    match SheetIn(wb, name)
    case Err(e) => Err(e)
    case Ok(s) => Ok(Scenarios(AllData(s)))
  }

  function TestDataIn(wb: Result<Workbook, ReaderError>, name: string, testCaseId: string): Result<Row, ReaderError> {
    match SheetIn(wb, name)
    case Err(e) => Err(e)
    case Ok(s) => Ok(FirstMatch(AllData(s), testCaseId))
  }

  /** The reader: its path and the workbook it holds, if any. */
  class ExcelReader {
    const path: string
    var workbook: Option<Workbook>

    /** `ExcelReader(file_path)`: without a path, the configured
        test-data path `defaultPath`. Nothing is loaded yet. */
    constructor (filePath: Option<string>, defaultPath: string)
      ensures path == (if filePath.Some? then filePath.value else defaultPath)
      ensures workbook == None
    {
      path := if filePath.Some? then filePath.value else defaultPath;
      workbook := None;
    }

    /** `_load_workbook`. */
    method LoadWorkbook(disk: Option<Workbook>) returns (r: Result<Workbook, ReaderError>)
      modifies this
      ensures r == Load(old(workbook), disk, path)
      ensures workbook == Held(old(workbook), disk)
    {
      if workbook.None? {
        if disk.None? {
          return Err(FileNotFound(path));
        }
        workbook := disk;
      }
      return Ok(workbook.value);
    }

    /** `get_sheet_names`. */
    method GetSheetNames(disk: Option<Workbook>) returns (r: Result<seq<string>, ReaderError>)
      modifies this
      ensures var wb := Load(old(workbook), disk, path);
              r == if wb.Ok? then Ok(wb.value.names) else Err(wb.error)
      ensures workbook == Held(old(workbook), disk)
    {
      var wb := LoadWorkbook(disk);
      if wb.Err? {
        return Err(wb.error);
      }
      return Ok(wb.value.names);
    }

    /** `get_sheet`. */
    method GetSheet(disk: Option<Workbook>, sheetName: string) returns (r: Result<Sheet, ReaderError>)
      modifies this
      ensures r == SheetIn(Load(old(workbook), disk, path), sheetName)
      ensures workbook == Held(old(workbook), disk)
    {
      var wb := LoadWorkbook(disk);
      if wb.Err? {
        return Err(wb.error);
      }
      var s := Lookup(wb.value, sheetName);
      if s.None? {
        return Err(SheetNotFound(sheetName));
      }
      return Ok(s.value);
    }

    /** `read_all_data`. */
    method ReadAllData(disk: Option<Workbook>, sheetName: string) returns (r: Result<seq<Row>, ReaderError>)
      modifies this
      ensures r == DataIn(Load(old(workbook), disk, path), sheetName)
      ensures workbook == Held(old(workbook), disk)
    {
      var s := GetSheet(disk, sheetName);
      if s.Err? {
        return Err(s.error);
      }
      var data := CollectRows(s.value);
      return Ok(data);
    }

    /** `read_test_cases(sheet_name)`, `TEST_CASES` by default. */
    method ReadTestCases(disk: Option<Workbook>, sheetName: string) returns (r: Result<seq<Row>, ReaderError>)
      modifies this
      ensures r == DataIn(Load(old(workbook), disk, path), sheetName)
      ensures workbook == Held(old(workbook), disk)
    {
      r := ReadAllData(disk, sheetName);
    }

    /** `read_keywords(sheet_name)`, `KEYWORDS` by default. */
    method ReadKeywords(disk: Option<Workbook>, sheetName: string) returns (r: Result<seq<KeywordStep>, ReaderError>)
      modifies this
      ensures r == KeywordsIn(Load(old(workbook), disk, path), sheetName)
      ensures workbook == Held(old(workbook), disk)
    {
      var data := ReadAllData(disk, sheetName);
      if data.Err? {
        return Err(data.error);
      }
      var steps := CollectSteps(data.value);
      return Ok(steps);
    }

    /** `read_test_data`. */
    method ReadTestData(disk: Option<Workbook>, sheetName: string, testCaseId: string) returns (r: Result<Row, ReaderError>)
      modifies this
      ensures r == TestDataIn(Load(old(workbook), disk, path), sheetName, testCaseId)
      ensures workbook == Held(old(workbook), disk)
    {
      var data := ReadAllData(disk, sheetName);
      if data.Err? {
        return Err(data.error);
      }
      var row := FindRow(data.value, testCaseId);
      return Ok(row);
    }

    /** `read_cell`. */
    method ReadCell(disk: Option<Workbook>, sheetName: string, row: int, column: int) returns (r: Result<Cell, ReaderError>)
      modifies this
      ensures var s := SheetIn(Load(old(workbook), disk, path), sheetName);
              r == if s.Err? then Err(s.error) else CellValue(s.value, row, column)
      ensures workbook == Held(old(workbook), disk)
    {
      var s := GetSheet(disk, sheetName);
      if s.Err? {
        return Err(s.error);
      }
      return CellValue(s.value, row, column);
    }

    /** `read_column`. */
    method ReadColumn(disk: Option<Workbook>, sheetName: string, column: int) returns (r: Result<seq<Cell>, ReaderError>)
      modifies this
      ensures var s := SheetIn(Load(old(workbook), disk, path), sheetName);
              r == if s.Err? then Err(s.error) else Column(s.value, column)
      ensures workbook == Held(old(workbook), disk)
    {
      var s := GetSheet(disk, sheetName);
      if s.Err? {
        return Err(s.error);
      }
      return Column(s.value, column);
    }

    /** `read_row`. */
    method ReadRow(disk: Option<Workbook>, sheetName: string, row: int) returns (r: Result<seq<Cell>, ReaderError>)
      modifies this
      ensures var s := SheetIn(Load(old(workbook), disk, path), sheetName);
              r == if s.Err? then Err(s.error) else RowValues(s.value, row)
      ensures workbook == Held(old(workbook), disk)
    {
      var s := GetSheet(disk, sheetName);
      if s.Err? {
        return Err(s.error);
      }
      return RowValues(s.value, row);
    }

    /** `get_row_count`. */
    method GetRowCount(disk: Option<Workbook>, sheetName: string) returns (r: Result<nat, ReaderError>)
      modifies this
      ensures var s := SheetIn(Load(old(workbook), disk, path), sheetName);
              r == if s.Err? then Err(s.error) else Ok(MaxRow(s.value))
      ensures workbook == Held(old(workbook), disk)
    {
      var s := GetSheet(disk, sheetName);
      if s.Err? {
        return Err(s.error);
      }
      return Ok(MaxRow(s.value));
    }

    /** `get_column_count`. */
    method GetColumnCount(disk: Option<Workbook>, sheetName: string) returns (r: Result<nat, ReaderError>)
      modifies this
      ensures var s := SheetIn(Load(old(workbook), disk, path), sheetName);
              r == if s.Err? then Err(s.error) else Ok(MaxColumn(s.value))
      ensures workbook == Held(old(workbook), disk)
    {
      var s := GetSheet(disk, sheetName);
      if s.Err? {
        return Err(s.error);
      }
      return Ok(MaxColumn(s.value));
    }

    /** `get_test_scenarios(sheet_name)`, `MASTER` by default. */
    method GetTestScenarios(disk: Option<Workbook>, sheetName: string) returns (r: Result<seq<Scenario>, ReaderError>)
      modifies this
      ensures r == ScenariosIn(Load(old(workbook), disk, path), sheetName)
      ensures workbook == Held(old(workbook), disk)
    {
      var data := ReadAllData(disk, sheetName);
      if data.Err? {
        return Err(data.error);
      }
      var scenarios := CollectScenarios(data.value);
      return Ok(scenarios);
    }

    /** `close`: the workbook is dropped, so the next read loads the file
        again. */
    method Close()
      modifies this
      ensures workbook == None
    {
      workbook := None;
    }

    /** `__enter__`: load now, so that a missing file raises here. */
    method Enter(disk: Option<Workbook>) returns (r: Result<Workbook, ReaderError>)
      modifies this
      ensures r == Load(old(workbook), disk, path)
      ensures workbook == Held(old(workbook), disk)
    {
      r := LoadWorkbook(disk);
    }

    /** `__exit__`. */
    method Exit()
      modifies this
      ensures workbook == None
    {
      Close();
    }
  }

  /** The loop of `read_all_data` over rows 2 to `max_row`. */
  method CollectRows(s: Sheet) returns (data: seq<Row>)
    ensures data == AllData(s)
  {
    var headers := NonNone(RowCells(s, 1));
    data := [];
    for r := 2 to MaxRow(s) + 1
      invariant data == Filter(RowsUpTo(s, headers, r - 1), HasValue)
    {
      var row := ReadRowData(s, headers, r);
      assert RowsUpTo(s, headers, r) == RowsUpTo(s, headers, r - 1) + [row];
      FilterSnoc(RowsUpTo(s, headers, r - 1), row, HasValue);
      if HasValue(row) {
        data := data + [row];
      }
    }
  }

  /** Row `r` as a dictionary, filled header by header. */
  method ReadRowData(s: Sheet, headers: seq<string>, r: int) returns (row: Row)
    ensures row == RowOf(s, headers, r)
  {
    row := map[];
    for k := 0 to |headers|
      invariant row == RowOf(s, headers[..k], r)
    {
      assert headers[..k + 1][..k] == headers[..k];
      row := row[headers[k] := CellAt(s, r, k + 1)];
    }
    assert headers[..|headers|] == headers;
  }

  /** The loop of `read_keywords`. */
  method CollectSteps(data: seq<Row>) returns (steps: seq<KeywordStep>)
    ensures steps == KeywordSteps(data)
  {
    steps := [];
    for i := 0 to |data|
      invariant steps == KeywordSteps(data[..i])
    {
      var k := StepOf(data[i]);
      KeywordStepsAppend(data[..i], [data[i]]);
      assert data[..i + 1] == data[..i] + [data[i]];
      assert KeywordSteps([data[i]]) == if HasKeyword(k) then [k] else [] by {
        assert Converted([data[i]]) == [] + [k];
      }
      if Truthy(k.keyword) {
        steps := steps + [k];
      }
    }
    assert data[..|data|] == data;
  }

  /** The loop of `get_test_scenarios`. */
  method CollectScenarios(data: seq<Row>) returns (scenarios: seq<Scenario>)
    ensures scenarios == Scenarios(data)
  {
    scenarios := [];
    for i := 0 to |data|
      invariant scenarios == Scenarios(data[..i])
    {
      assert data[..i + 1][..i] == data[..i];
      if Selected(data[i]) {
        scenarios := scenarios + [ScenarioOf(data[i])];
      }
    }
    assert data[..|data|] == data;
  }

  /** The loop of `read_test_data`, returning at the first match. */
  method FindRow(data: seq<Row>, testCaseId: string) returns (row: Row)
    ensures row == FirstMatch(data, testCaseId)
  {
    var i := 0;
    while i < |data|
      invariant 0 <= i <= |data|
      invariant FirstMatch(data[i..], testCaseId) == FirstMatch(data, testCaseId)
    {
      if Matches(data[i], testCaseId) {
        return data[i];
      }
      assert data[i..][1..] == data[i + 1..];
      i := i + 1;
    }
    return map[];
  }
}
