/** The Selenium variant's workbook reader: the Master sheet that lists the
    test cases, the screen sheets with their field names, locators and
    keyword/value row pairs, and a structural check of the workbook. */
module SeleniumExcel {
  import opened Text
  import opened Sheets
  import opened Steps

  /** The Master sheet's name (the configured default). */
  const MASTER := "Master"

  /** The columns the Master sheet must have. */
  const Required: seq<string> := ["TestCaseID", "Execute", "ScreenFlow", "Description"]

  /** The Execute values, trimmed and lower-cased, that select a test case. */
  const ExecuteTokens: set<string> := {"yes", "y", "true", "1"}

  /** A Master row as a dictionary from column header to cell text. */
  type Record = map<string, string>

  /** The non-empty cells of row 1, trimmed, in column order. */
  function Headers(s: Sheet): (h: seq<string>)
    ensures |h| <= MaxColumn(s)
  {
    StripAll(Present(RowCells(s, 1)))
  }

  /** Row `r` as a dictionary: the k-th header (counting from 1) names
      column k, and a later duplicate header overwrites an earlier one. */
  function RecordOf(s: Sheet, headers: seq<string>, r: int): Record
    decreases |headers|
  {
    if headers == [] then map[]
    else RecordOf(s, headers[..|headers| - 1], r)[headers[|headers| - 1] := CellText(s, r, |headers|)]
  }

  /** The Execute test of `read_master_sheet`. */
  predicate Selected(rec: Record) {
    Lower(Strip(if "Execute" in rec then rec["Execute"] else "")) in ExecuteTokens
  }

  /** The records of rows 2 to `last`, top to bottom. */
  function Records(s: Sheet, headers: seq<string>, last: int): (recs: seq<Record>)
    ensures |recs| == if last < 2 then 0 else last - 1
  {
    if last < 2 then [] else seq(last - 1, i requires 0 <= i < last - 1 => RecordOf(s, headers, i + 2))
  }

  predicate HasRequired(headers: seq<string>) {
    forall c :: c in Required ==> c in headers
  }

  /** What `read_master_sheet` returns for the loaded workbook (`None`
      before loading, when reading `sheetnames` fails and `[]` results). */
  function MasterCases(wb: Option<Workbook>): (cases: seq<Record>)
    ensures cases != [] ==> wb.Some? && Lookup(wb.value, MASTER).Some? && HasRequired(Headers(Lookup(wb.value, MASTER).value))
  {
    if wb.None? then []
    else match Lookup(wb.value, MASTER)
      case None => []
      case Some(s) =>
        var headers := Headers(s);
        if HasRequired(headers) then Filter(Records(s, headers, MaxRow(s)), Selected) else []
  }

  /** The keys of a record are exactly the headers. */
  lemma {:induction false} RecordKeys(s: Sheet, headers: seq<string>, r: int, h: string)
    ensures h in RecordOf(s, headers, r) <==> h in headers
    decreases |headers|
  {
    if headers != [] {
      var init := headers[..|headers| - 1];
      RecordKeys(s, init, r, h);
      assert headers == init + [headers[|headers| - 1]];
    }
  }

  /** Each header is a key holding the cell under its last occurrence. */
  lemma {:induction false} RecordLastWins(s: Sheet, headers: seq<string>, r: int, k: nat)
    requires k < |headers|
    requires forall j :: k < j < |headers| ==> headers[j] != headers[k]
    ensures headers[k] in RecordOf(s, headers, r) && RecordOf(s, headers, r)[headers[k]] == CellText(s, r, k + 1)
    decreases |headers|
  {
    RecordKeys(s, headers, r, headers[k]);
    if k < |headers| - 1 {
      var init := headers[..|headers| - 1];
      assert init[k] == headers[k];
      RecordLastWins(s, init, r, k);
    }
  }

  /** The records are exactly those of rows 2 to `last`. */
  lemma RecordsExactly(s: Sheet, headers: seq<string>, last: int, rec: Record)
    ensures rec in Records(s, headers, last) ==> exists r :: 2 <= r <= last && rec == RecordOf(s, headers, r)
    ensures rec in Records(s, headers, last) <== exists r :: 2 <= r <= last && rec == RecordOf(s, headers, r)
  {
    var recs := Records(s, headers, last);
    if rec in recs {
      var i :| 0 <= i < |recs| && recs[i] == rec;
      assert 2 <= i + 2 <= last && rec == RecordOf(s, headers, i + 2);
    }
    forall r | 2 <= r <= last && rec == RecordOf(s, headers, r)
      ensures rec in recs
    {
      assert recs[r - 2] == RecordOf(s, headers, (r - 2) + 2);
    }
  }

  /** A record is returned iff its row (from row 2 on) is selected, and
      every returned record has the required columns as keys. */
  lemma MasterCasesExactly(wb: Workbook, s: Sheet, rec: Record)
    requires Lookup(wb, MASTER) == Some(s) && HasRequired(Headers(s))
    ensures rec in MasterCases(Some(wb)) <==>
            (Selected(rec) && exists r :: 2 <= r <= MaxRow(s) && rec == RecordOf(s, Headers(s), r))
    ensures rec in MasterCases(Some(wb)) ==> forall c :: c in Required ==> c in rec
  {
    var headers := Headers(s);
    var recs := Records(s, headers, MaxRow(s));
    assert MasterCases(Some(wb)) == Filter(recs, Selected);
    FilterExactly(recs, Selected, rec);
    RecordsExactly(s, headers, MaxRow(s), rec);
    if rec in recs {
      var r :| 2 <= r <= MaxRow(s) && rec == RecordOf(s, headers, r);
      forall c | c in Required
        ensures c in rec
      {
        RecordKeys(s, headers, r, c);
      }
    }
  }

  /** Selection keeps sheet order: the cases of rows 2 to `a` come first
      among those of rows 2 to `b`. */
  lemma MasterOrder(s: Sheet, headers: seq<string>, a: int, b: int)
    requires a <= b
    ensures Filter(Records(s, headers, a), Selected) <= Filter(Records(s, headers, b), Selected)
  {
    var ra := Records(s, headers, a);
    var rb := Records(s, headers, b);
    assert rb == ra + rb[|ra|..];
    FilterAppend(ra, rb[|ra|..], Selected);
  }

  /** The trimmed, non-empty cells of row 1, collected by a loop. */
  method CollectHeaders(s: Sheet) returns (headers: seq<string>)
    ensures headers == Headers(s)
  {
    var row := RowCells(s, 1);
    headers := [];
    for c := 0 to |row|
      invariant headers == StripAll(Present(row[..c]))
    {
      assert row[..c + 1] == row[..c] + [row[c]];
      PresentAppend(row[..c], [row[c]]);
      if Truthy(row[c]) {
        headers := headers + [Strip(row[c].value)];
      }
    }
    assert row[..|row|] == row;
  }

  /** One screen sheet as `read_screen_sheet` returns it. */
  datatype ScreenData = ScreenData(fieldNames: seq<string>, locators: seq<string>, testData: seq<seq<string>>)

  /** Row 2 under the first `n` columns: a non-empty cell trimmed, otherwise "". */
  function LocatorRow(s: Sheet, n: nat): (r: seq<string>)
    ensures |r| == n
  {
    seq(n, c requires 0 <= c < n => if Truthy(CellAt(s, 2, c + 1)) then Strip(CellAt(s, 2, c + 1).value) else "")
  }

  /** Row `r` under the first `n` columns, each cell trimmed, an empty cell "". */
  function DataRow(s: Sheet, r: int, n: nat): (row: seq<string>)
    ensures |row| == n
  {
    seq(n, c requires 0 <= c < n => Strip(CellText(s, r, c + 1)))
  }

  /** `any(row)`: some entry is not empty. */
  predicate AnyText(row: seq<string>) {
    exists k :: 0 <= k < |row| && row[k] != ""
  }

  /** Rows 3 to `last` under the first `n` columns, top to bottom. */
  function RawRows(s: Sheet, n: nat, last: int): (rows: seq<seq<string>>)
    ensures |rows| == if last < 3 then 0 else last - 2
  {
    if last < 3 then [] else seq(last - 2, i requires 0 <= i < last - 2 => DataRow(s, i + 3, n))
  }

  /** One more row at the bottom extends the rows by it. */
  lemma RawRowsSnoc(s: Sheet, n: nat, last: int)
    requires last >= 3
    ensures RawRows(s, n, last) == RawRows(s, n, last - 1) + [DataRow(s, last, n)]
  {
    var a := RawRows(s, n, last);
    var b := RawRows(s, n, last - 1) + [DataRow(s, last, n)];
    assert |a| == |b|;
    forall i | 0 <= i < |a| ensures a[i] == b[i] {}
  }

  /** Rows 3 to `last` that hold text, top to bottom, built row by row
      as the reading loop builds them. */
  function KeptRows(s: Sheet, n: nat, last: int): (rows: seq<seq<string>>)
    ensures |rows| <= if last < 3 then 0 else last - 2
    ensures forall i :: 0 <= i < |rows| ==> AnyText(rows[i])
    decreases last
  {
    if last < 3 then []
    else KeptRows(s, n, last - 1) + (if AnyText(DataRow(s, last, n)) then [DataRow(s, last, n)] else [])
  }

  /** Building row by row keeps exactly the rows that the filter keeps. */
  lemma {:induction false} KeptRowsFiltered(s: Sheet, n: nat, last: int)
    ensures KeptRows(s, n, last) == Filter(RawRows(s, n, last), AnyText)
    decreases last
  {
    if last >= 3 {
      KeptRowsFiltered(s, n, last - 1);
      RawRowsSnoc(s, n, last);
      FilterSnoc(RawRows(s, n, last - 1), DataRow(s, last, n), AnyText);
    }
  }

  /** What `read_screen_sheet(name)` returns. */
  function ScreenOf(wb: Option<Workbook>, name: string): Option<ScreenData> {
    if wb.None? then None
    else match Lookup(wb.value, name)
      case None => None
      case Some(s) =>
        var fields := Headers(s);
        if fields == [] then None
        else Some(ScreenData(fields, LocatorRow(s, |fields|), KeptRows(s, |fields|, MaxRow(s))))
  }

  /** The kept rows are exactly the rows from 3 to `last` that hold text. */
  lemma DataRowsExactly(s: Sheet, n: nat, last: int, row: seq<string>)
    ensures row in KeptRows(s, n, last) <==>
            (AnyText(row) && exists r :: 3 <= r <= last && row == DataRow(s, r, n))
  {
    KeptRowsFiltered(s, n, last);
    var rows := RawRows(s, n, last);
    FilterExactly(rows, AnyText, row);
    if row in rows {
      var i :| 0 <= i < |rows| && rows[i] == row;
      assert row == DataRow(s, i + 3, n);
    }
    if exists r :: 3 <= r <= last && row == DataRow(s, r, n) {
      var r :| 3 <= r <= last && row == DataRow(s, r, n);
      assert rows[r - 3] == row;
    }
  }

  /** A screen is read iff its sheet exists and row 1 names a field; then
      there is one locator per field, every data row has one entry per
      field and holds some text, and every such row of the sheet is kept. */
  lemma ScreenShape(wb: Workbook, name: string)
    ensures ScreenOf(Some(wb), name).Some? <==> name in wb.names && Headers(Lookup(wb, name).value) != []
    ensures ScreenOf(Some(wb), name).Some? ==>
      var d := ScreenOf(Some(wb), name).value;
      var s := Lookup(wb, name).value;
      && |d.fieldNames| >= 1
      && |d.locators| == |d.fieldNames|
      && (forall row :: row in d.testData ==> |row| == |d.fieldNames| && AnyText(row))
      && (forall r :: 3 <= r <= MaxRow(s) && AnyText(DataRow(s, r, |d.fieldNames|)) ==>
            DataRow(s, r, |d.fieldNames|) in d.testData)
  {
    if ScreenOf(Some(wb), name).Some? {
      var d := ScreenOf(Some(wb), name).value;
      var s := Lookup(wb, name).value;
      forall row | row in d.testData
        ensures |row| == |d.fieldNames| && AnyText(row)
      {
        DataRowsExactly(s, |d.fieldNames|, MaxRow(s), row);
      }
      forall r | 3 <= r <= MaxRow(s) && AnyText(DataRow(s, r, |d.fieldNames|))
        ensures DataRow(s, r, |d.fieldNames|) in d.testData
      {
        DataRowsExactly(s, |d.fieldNames|, MaxRow(s), DataRow(s, r, |d.fieldNames|));
      }
    }
  }

  /** A screen of a flow: its data tagged with the screen's name. */
  datatype FlowScreen = FlowScreen(screenName: string, data: ScreenData)

  /** The screen names of a comma-separated flow, trimmed, empty ones dropped. */
  function FlowNames(flow: string): seq<string> {
    CommaNames(flow)
  }

  /** The readable screens among `names`, in order, duplicates kept. */
  function FlowOf(wb: Option<Workbook>, names: seq<string>): (r: seq<FlowScreen>)
    ensures |r| <= |names|
    decreases |names|
  {
    if names == [] then []
    else
      var n := names[|names| - 1];
      FlowOf(wb, names[..|names| - 1])
      + match ScreenOf(wb, n) case None => [] case Some(d) => [FlowScreen(n, d)]
  }

  /** One more name adds its screen when that screen can be read. */
  lemma FlowOfSnoc(wb: Option<Workbook>, names: seq<string>, i: nat)
    requires i < |names|
    ensures FlowOf(wb, names[..i + 1]) ==
            FlowOf(wb, names[..i]) + match ScreenOf(wb, names[i]) case None => [] case Some(d) => [FlowScreen(names[i], d)]
  {
    assert names[..i + 1][..i] == names[..i];
  }

  /** What `get_test_data_for_flow(flow)` returns. */
  function FlowData(wb: Option<Workbook>, flow: string): (screens: seq<FlowScreen>)
    ensures |screens| <= |FlowNames(flow)|
  {
    FlowOf(wb, FlowNames(flow))
  }

  /** Reading a flow distributes over concatenation of the name list. */
  lemma {:induction false} FlowOfAppend(wb: Option<Workbook>, a: seq<string>, b: seq<string>)
    ensures FlowOf(wb, a + b) == FlowOf(wb, a) + FlowOf(wb, b)
    decreases |b|
  {
    if b == [] {
      assert a + b == a;
    } else {
      var init := b[..|b| - 1];
      FlowOfAppend(wb, a, init);
      assert (a + b)[..|a + b| - 1] == a + init;
      assert (a + b)[|a + b| - 1] == b[|b| - 1];
    }
  }

  /** Every entry is a readable screen of the flow, tagged with its name,
      and every readable screen of the flow has an entry. */
  lemma {:induction false} FlowOfExactly(wb: Option<Workbook>, names: seq<string>, e: FlowScreen)
    ensures e in FlowOf(wb, names) <==> e.screenName in names && ScreenOf(wb, e.screenName) == Some(e.data)
    decreases |names|
  {
    if names != [] {
      var init := names[..|names| - 1];
      FlowOfExactly(wb, init, e);
      assert names == init + [names[|names| - 1]];
    }
  }

  /** `parse_test_steps` reads a missing cell of a short row as "". */
  function Nth(xs: seq<string>, k: nat): string {
    if k < |xs| then xs[k] else ""
  }

  /** The step of one column: keyword trimmed and upper-cased, locator and value trimmed. */
  function CellStep(field: string, keyword: string, locator: string, value: string): Step<string> {
    Step(field, Upper(Strip(keyword)), Strip(locator), Strip(value))
  }

  /** The steps of one keyword/value row pair, over the first `c` fields. */
  function PairSteps(fields: seq<string>, locators: seq<string>, keywords: seq<string>, values: seq<string>, c: nat): (r: seq<Step<string>>)
    requires c <= |fields|
    ensures |r| <= c
  {
    if c == 0 then []
    else
      var k := c - 1;
      var rest := PairSteps(fields, locators, keywords, values, k);
      if Nth(keywords, k) == "" then rest
      else rest + [CellStep(fields[k], Nth(keywords, k), Nth(locators, k), Nth(values, k))]
  }

  /** Every step of a row pair names one of the first `c` fields. */
  lemma {:induction false} PairStepsFields(fields: seq<string>, locators: seq<string>, keywords: seq<string>, values: seq<string>, c: nat)
    requires c <= |fields|
    ensures forall st :: st in PairSteps(fields, locators, keywords, values, c) ==> st.field in fields[..c]
  {
    if c > 0 {
      var k := c - 1;
      PairStepsFields(fields, locators, keywords, values, k);
      assert fields[..k] <= fields[..c];
      assert fields[k] in fields[..c];
    }
  }

  /** The steps of the first `p` row pairs, pair by pair. */
  function PairsSteps(d: ScreenData, p: nat): (r: seq<Step<string>>)
    requires 2 * p <= |d.testData|
  {
    if p == 0 then []
    else
      PairsSteps(d, p - 1) + PairSteps(d.fieldNames, d.locators, d.testData[2 * p - 2], d.testData[2 * p - 1], |d.fieldNames|)
  }

  lemma PairsStepsNext(d: ScreenData, p: nat, i: nat, pair: seq<Step<string>>)
    requires i == 2 * p && i + 1 < |d.testData|
    requires pair == PairSteps(d.fieldNames, d.locators, d.testData[i], d.testData[i + 1], |d.fieldNames|)
    ensures PairsSteps(d, p + 1) == PairsSteps(d, p) + pair
  {
    assert 2 * (p + 1) - 2 == 2 * p && 2 * (p + 1) - 1 == 2 * p + 1;
  }

  /** What `parse_test_steps(d)` returns. */
  function ParseSteps(d: ScreenData): (steps: seq<Step<string>>)
    ensures |d.testData| < 2 ==> steps == []
  {
    PairsSteps(d, |d.testData| / 2)
  }

  /** At most one step per field and row pair; every step names a field. */
  lemma {:induction false} ParseStepsBound(d: ScreenData)
    ensures |ParseSteps(d)| <= (|d.testData| / 2) * |d.fieldNames|
    ensures forall st :: st in ParseSteps(d) ==> st.field in d.fieldNames
  {
    PairsStepsFields(d, |d.testData| / 2);
    PairsStepsBound(d, |d.testData| / 2);
  }

  lemma {:induction false} PairsStepsFields(d: ScreenData, p: nat)
    requires 2 * p <= |d.testData|
    ensures forall st :: st in PairsSteps(d, p) ==> st.field in d.fieldNames
  {
    assert d.fieldNames[..|d.fieldNames|] == d.fieldNames;
    if p > 0 {
      PairsStepsFields(d, p - 1);
      PairStepsFields(d.fieldNames, d.locators, d.testData[2 * p - 2], d.testData[2 * p - 1], |d.fieldNames|);
    }
  }

  lemma {:induction false} PairsStepsBound(d: ScreenData, p: nat)
    requires 2 * p <= |d.testData|
    ensures |PairsSteps(d, p)| <= p * |d.fieldNames|
  {
    if p > 0 {
      var n := |d.fieldNames|;
      PairsStepsBound(d, p - 1);
      assert |PairsSteps(d, p)| <= |PairsSteps(d, p - 1)| + n;
      assert p * n == (p - 1) * n + n;
    }
  }

  /** A trailing keyword row with no value row adds no step. */
  lemma TrailingRowIgnored(d: ScreenData, extra: seq<string>)
    requires |d.testData| % 2 == 0
    ensures ParseSteps(d.(testData := d.testData + [extra])) == ParseSteps(d)
  {
    var e := d.(testData := d.testData + [extra]);
    assert e.testData[..|d.testData|] == d.testData;
    assert |e.testData| / 2 == |d.testData| / 2;
    PairsStepsPrefix(d, e, |d.testData| / 2);
  }

  lemma {:induction false} PairsStepsPrefix(d: ScreenData, e: ScreenData, p: nat)
    requires 2 * p <= |d.testData| <= |e.testData|
    requires e.fieldNames == d.fieldNames && e.locators == d.locators
    requires d.testData == e.testData[..|d.testData|]
    ensures PairsSteps(e, p) == PairsSteps(d, p)
  {
    if p > 0 {
      PairsStepsPrefix(d, e, p - 1);
      assert e.testData[2 * p - 2] == d.testData[2 * p - 2];
      assert e.testData[2 * p - 1] == d.testData[2 * p - 1];
    }
  }

  /** Every cell of the row is empty or starts with a non-space character,
      as stripped cells do. */
  predicate Trimmed(row: seq<string>) {
    forall k :: 0 <= k < |row| ==> LeadsWithText(row[k])
  }

  /** The cells of a data row are trimmed. */
  lemma DataRowTrimmed(s: Sheet, r: int, n: nat)
    ensures Trimmed(DataRow(s, r, n))
  {
    forall k | 0 <= k < n
      ensures LeadsWithText(DataRow(s, r, n)[k])
    {
      StripShape(CellText(s, r, k + 1));
    }
  }

  /** Cells read from a sheet are trimmed, so every step parsed from a
      screen sheet has a non-empty keyword. */
  lemma ScreenStepsHaveKeywords(wb: Workbook, name: string)
    requires ScreenOf(Some(wb), name).Some?
    ensures forall st :: st in ParseSteps(ScreenOf(Some(wb), name).value) ==> st.keyword != ""
  {
    var d := ScreenOf(Some(wb), name).value;
    var s := Lookup(wb, name).value;
    forall i | 0 <= i < |d.testData|
      ensures Trimmed(d.testData[i])
    {
      var row := d.testData[i];
      DataRowsExactly(s, |d.fieldNames|, MaxRow(s), row);
      var r :| 3 <= r <= MaxRow(s) && row == DataRow(s, r, |d.fieldNames|);
      DataRowTrimmed(s, r, |d.fieldNames|);
    }
    TrimmedKeywords(d, |d.testData| / 2);
    var steps := ParseSteps(d);
    forall st | st in steps
      ensures st.keyword != ""
    {
      var n :| 0 <= n < |steps| && steps[n] == st;
    }
  }

  /** Every step of the first p row pairs has a non-empty keyword. */
  lemma {:induction false} TrimmedKeywords(d: ScreenData, p: nat)
    requires 2 * p <= |d.testData|
    requires forall i :: 0 <= i < |d.testData| ==> Trimmed(d.testData[i])
    ensures forall n :: 0 <= n < |PairsSteps(d, p)| ==> PairsSteps(d, p)[n].keyword != ""
  {
    if p > 0 {
      TrimmedKeywords(d, p - 1);
      var rest: seq<Step<string>> := PairsSteps(d, p - 1);
      var pair: seq<Step<string>> := PairSteps(d.fieldNames, d.locators, d.testData[2 * p - 2], d.testData[2 * p - 1], |d.fieldNames|);
      PairKeywords(d.fieldNames, d.locators, d.testData[2 * p - 2], d.testData[2 * p - 1], |d.fieldNames|);
      assert PairsSteps(d, p) == rest + pair;
      forall n | 0 <= n < |rest + pair|
        ensures (rest + pair)[n].keyword != ""
      {
        if n >= |rest| {
          assert (rest + pair)[n] == pair[n - |rest|];
        }
      }
    }
  }

  /** Every step of a row pair has a non-empty keyword. */
  lemma {:induction false} PairKeywords(fields: seq<string>, locators: seq<string>, keywords: seq<string>, values: seq<string>, c: nat)
    requires c <= |fields|
    requires Trimmed(keywords)
    ensures forall n :: 0 <= n < |PairSteps(fields, locators, keywords, values, c)| ==>
              PairSteps(fields, locators, keywords, values, c)[n].keyword != ""
  {
    if c > 0 {
      PairKeywords(fields, locators, keywords, values, c - 1);
      var rest := PairSteps(fields, locators, keywords, values, c - 1);
      var kw := Nth(keywords, c - 1);
      if kw == "" {
        assert PairSteps(fields, locators, keywords, values, c) == rest;
      } else {
        var st := CellStep(fields[c - 1], kw, Nth(locators, c - 1), Nth(values, c - 1));
        assert LeadsWithText(keywords[c - 1]);
        StripKeepsText(kw);
        assert PairSteps(fields, locators, keywords, values, c) == rest + [st];
        assert (rest + [st])[|rest|] == st;
      }
    }
  }

  /** The sheets of `names` other than the Master sheet, in order. */
  function Without(names: seq<string>, x: string): (r: seq<string>)
    ensures forall n :: n in r <==> n in names && n != x
  {
    if names == [] then []
    else
      var rest := Without(names[..|names| - 1], x);
      assert names == names[..|names| - 1] + [names[|names| - 1]];
      if names[|names| - 1] == x then rest else rest + [names[|names| - 1]]
  }

  /** `get_all_screen_names`: every sheet name but the Master's; none
      before a workbook is loaded. */
  function ScreenNames(wb: Option<Workbook>): (r: seq<string>)
    ensures forall n :: n in r <==> wb.Some? && n in wb.value.names && n != MASTER
  {
    if wb.None? then [] else Without(wb.value.names, MASTER)
  }

  /** The outcome of `validate_excel_structure`. */
  datatype Validation = Validation(valid: bool, errors: seq<string>)

  /** The message caught when no workbook is loaded. */
  const NoWorkbookError := "Validation error: 'NoneType' object has no attribute 'sheetnames'"

  const NoMasterError := "Master sheet '" + MASTER + "' not found"

  function ColumnError(c: string): string {
    "Required column '" + c + "' missing in Master sheet"
  }

  function RowsError(n: string): string {
    "Screen '" + n + "' has insufficient rows (needs at least 2)"
  }

  /** The error for each of the first `k` required columns not among `headers`. */
  function ColumnErrors(headers: seq<string>, k: nat): (e: seq<string>)
    requires k <= |Required|
    ensures |e| <= k
    ensures e == [] <==> forall j :: 0 <= j < k ==> Required[j] in headers
  {
    if k == 0 then []
    else ColumnErrors(headers, k - 1) + (if Required[k - 1] in headers then [] else [ColumnError(Required[k - 1])])
  }

  /** The sheet called `n`; empty when the name has no sheet behind it. */
  function SheetOf(wb: Workbook, n: string): Sheet {
    if n in wb.sheets then wb.sheets[n] else []
  }

  /** The error for each sheet of `names` with fewer than two rows. */
  function RowsErrors(wb: Workbook, names: seq<string>): (e: seq<string>)
    ensures |e| <= |names|
    ensures e == [] <==> forall n :: n in names ==> MaxRow(SheetOf(wb, n)) >= 2
  {
    if names == [] then []
    else
      var n := names[|names| - 1];
      assert names == names[..|names| - 1] + [n];
      RowsErrors(wb, names[..|names| - 1]) + (if MaxRow(SheetOf(wb, n)) < 2 then [RowsError(n)] else [])
  }

  /** What `validate_excel_structure` returns: valid exactly when there is
      no error; with no workbook or no Master sheet, one error. */
  function Validate(wb: Option<Workbook>): (v: Validation)
    ensures v.valid <==> v.errors == []
    ensures |v.errors| >= 1 || wb.Some?
  {
    if wb.None? then Validation(false, [NoWorkbookError])
    else match Lookup(wb.value, MASTER)
      case None => Validation(false, [NoMasterError])
      case Some(s) =>
        var errors := ColumnErrors(Present(RowCells(s, 1)), |Required|) + RowsErrors(wb.value, ScreenNames(wb));
        Validation(errors == [], errors)
  }

  /** The workbook is valid iff the Master sheet exists, its header row
      (untrimmed) has every required column, and every other sheet has at
      least two rows; there is at most one error per column and sheet. */
  lemma ValidateExactly(wb: Workbook)
    ensures Validate(Some(wb)).valid <==>
            (&& MASTER in wb.names
             && (forall c :: c in Required ==> c in Present(RowCells(SheetOf(wb, MASTER), 1)))
             && (forall n :: n in wb.names && n != MASTER ==> MaxRow(SheetOf(wb, n)) >= 2))
    ensures |Validate(Some(wb)).errors| <= |Required| + |wb.names|
  {
    var names := ScreenNames(Some(wb));
    assert |names| <= |wb.names| by {
      WithoutLength(wb.names, MASTER);
    }
    if MASTER in wb.names {
      var s := SheetOf(wb, MASTER);
      assert Lookup(wb, MASTER) == Some(s);
      var h := Present(RowCells(s, 1));
      assert (forall j :: 0 <= j < |Required| ==> Required[j] in h) <==> (forall c :: c in Required ==> c in h);
    }
  }

  lemma {:induction false} WithoutLength(names: seq<string>, x: string)
    ensures |Without(names, x)| <= |names|
  {
    if names != [] {
      WithoutLength(names[..|names| - 1], x);
    }
  }

  /** The reader's state: the workbook once one has been loaded. */
  class ExcelReader {
    var workbook: Option<Workbook>

    constructor ()
      ensures workbook == None
    {
      workbook := None;
    }

    /** `load_workbook`: `file` is the workbook found at the configured
        path, or `None` when the file is missing or fails to load, in
        which case any earlier workbook stays. */
    method LoadWorkbook(file: Option<Workbook>) returns (ok: bool)
      modifies this
      ensures ok == file.Some?
      ensures workbook == if file.Some? then file else old(workbook)
    {
      if file.None? {
        return false;
      }
      workbook := file;
      return true;
    }

    method ReadMasterSheet() returns (cases: seq<Record>)
      ensures cases == MasterCases(workbook)
    {
      if workbook.None? {
        return [];
      }
      var sheet := Lookup(workbook.value, MASTER);
      if sheet.None? {
        return [];
      }
      var s := sheet.value;
      var headers := CollectHeaders(s);
      for k := 0 to |Required|
        invariant forall j :: 0 <= j < k ==> Required[j] in headers
      {
        if Required[k] !in headers {
          return [];
        }
      }
      cases := SelectRecords(s, headers);
    }

    method ReadScreenSheet(name: string) returns (d: Option<ScreenData>)
      ensures d == ScreenOf(workbook, name)
    {
      if workbook.None? {
        return None;
      }
      var sheet := Lookup(workbook.value, name);
      if sheet.None? {
        return None;
      }
      var s := sheet.value;
      var fields := CollectHeaders(s);
      if fields == [] {
        return None;
      }
      var locators := ReadLocators(s, |fields|);
      var rows := ReadDataRows(s, |fields|);
      return Some(ScreenData(fields, locators, rows));
    }

    method GetTestDataForFlow(flow: string) returns (data: seq<FlowScreen>)
      ensures data == FlowData(workbook, flow)
    {
      var names := FlowNames(flow);
      if names == [] {
        return [];
      }
      data := ReadFlow(names);
    }

    /** The loop of `get_test_data_for_flow` over the flow's screen names. */
    method ReadFlow(names: seq<string>) returns (data: seq<FlowScreen>)
      ensures data == FlowOf(workbook, names)
    {
      data := [];
      for i := 0 to |names|
        invariant data == FlowOf(workbook, names[..i])
      {
        var d := ReadScreenSheet(names[i]);
        FlowOfSnoc(workbook, names, i);
        if d.Some? {
          data := data + [FlowScreen(names[i], d.value)];
        }
      }
      assert names[..|names|] == names;
    }

    method ParseTestSteps(d: ScreenData) returns (steps: seq<Step<string>>)
      ensures steps == ParseSteps(d)
    {
      steps := [];
      var rows := d.testData;
      // The rows are taken two at a time from row 0 on; an odd last row
      // has no partner and adds nothing.
      for p := 0 to |rows| / 2
        invariant steps == PairsSteps(d, p)
      {
        var i := 2 * p;
        var pair := PairRowSteps(d.fieldNames, d.locators, rows[i], rows[i + 1]);
        PairsStepsNext(d, p, i, pair);
        steps := steps + pair;
      }
    }

    method ValidateExcelStructure() returns (valid: bool, errors: seq<string>)
      ensures Validation(valid, errors) == Validate(workbook)
    {
      if workbook.None? {
        return false, [NoWorkbookError];
      }
      var wb := workbook.value;
      var sheet := Lookup(wb, MASTER);
      if sheet.None? {
        return false, [NoMasterError];
      }
      var columnErrors := CheckColumns(Present(RowCells(sheet.value, 1)));
      var rowsErrors := CheckRows(wb, ScreenNames(workbook));
      errors := columnErrors + rowsErrors;
      valid := |errors| == 0;
    }
  }

  /** The selected records of rows 2 to `max_row`, collected by a loop. */
  method SelectRecords(s: Sheet, headers: seq<string>) returns (cases: seq<Record>)
    ensures cases == Filter(Records(s, headers, MaxRow(s)), Selected)
  {
    cases := [];
    for r := 2 to MaxRow(s) + 1
      invariant cases == Filter(Records(s, headers, r - 1), Selected)
    {
      var rec := ReadRecord(s, headers, r);
      assert Records(s, headers, r) == Records(s, headers, r - 1) + [rec];
      FilterSnoc(Records(s, headers, r - 1), rec, Selected);
      if Selected(rec) {
        cases := cases + [rec];
      }
    }
  }

  /** Row `r` as a dictionary, filled header by header. */
  method ReadRecord(s: Sheet, headers: seq<string>, r: int) returns (rec: Record)
    ensures rec == RecordOf(s, headers, r)
  {
    rec := map[];
    for k := 0 to |headers|
      invariant rec == RecordOf(s, headers[..k], r)
    {
      assert headers[..k + 1][..k] == headers[..k];
      rec := rec[headers[k] := CellText(s, r, k + 1)];
    }
    assert headers[..|headers|] == headers;
  }

  /** Row 2 under the first `n` columns, collected by a loop. */
  method ReadLocators(s: Sheet, n: nat) returns (locators: seq<string>)
    ensures locators == LocatorRow(s, n)
  {
    locators := [];
    for c := 0 to n
      invariant locators == LocatorRow(s, n)[..c]
    {
      var v := CellAt(s, 2, c + 1);
      locators := locators + [if Truthy(v) then Strip(v.value) else ""];
    }
  }

  /** Row `r` under the first `n` columns, collected by a loop. */
  method ReadDataRow(s: Sheet, r: int, n: nat) returns (row: seq<string>)
    ensures row == DataRow(s, r, n)
  {
    row := [];
    for c := 0 to n
      invariant row == DataRow(s, r, n)[..c]
    {
      var v := CellAt(s, r, c + 1);
      row := row + [if v.Some? then Strip(v.value) else ""];
    }
  }

  /** The rows from 3 on that hold text, collected by a loop. */
  method ReadDataRows(s: Sheet, n: nat) returns (rows: seq<seq<string>>)
    ensures rows == KeptRows(s, n, MaxRow(s))
  {
    rows := [];
    var r := 3;
    while r <= MaxRow(s)
      invariant 3 <= r && (r <= MaxRow(s) + 1 || r == 3)
      invariant rows == KeptRows(s, n, r - 1)
    {
      var row := ReadDataRow(s, r, n);
      if AnyText(row) {
        rows := rows + [row];
      }
      r := r + 1;
    }
  }

  /** The steps of one keyword/value row pair, column by column. */
  method PairRowSteps(fields: seq<string>, locators: seq<string>, keywords: seq<string>, values: seq<string>)
    returns (steps: seq<Step<string>>)
    ensures steps == PairSteps(fields, locators, keywords, values, |fields|)
  {
    steps := [];
    for c := 0 to |fields|
      invariant steps == PairSteps(fields, locators, keywords, values, c)
    {
      var keyword := Nth(keywords, c);
      if keyword != "" {
        steps := steps + [CellStep(fields[c], keyword, Nth(locators, c), Nth(values, c))];
      }
    }
  }

  /** One error per required column missing from `headers`, in order. */
  method CheckColumns(headers: seq<string>) returns (errors: seq<string>)
    ensures errors == ColumnErrors(headers, |Required|)
  {
    errors := [];
    for k := 0 to |Required|
      invariant errors == ColumnErrors(headers, k)
    {
      if Required[k] !in headers {
        errors := errors + [ColumnError(Required[k])];
      }
    }
  }

  /** One error per sheet of `names` with fewer than two rows, in order. */
  method CheckRows(wb: Workbook, names: seq<string>) returns (errors: seq<string>)
    ensures errors == RowsErrors(wb, names)
  {
    errors := [];
    for i := 0 to |names|
      invariant errors == RowsErrors(wb, names[..i])
    {
      assert names[..i + 1][..i] == names[..i];
      if MaxRow(SheetOf(wb, names[i])) < 2 {
        errors := errors + [RowsError(names[i])];
      }
    }
    assert names[..|names|] == names;
  }
}
