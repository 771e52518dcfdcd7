/** The Playwright variant's workbook reader (`ExcelReader`): the master
    sheet filtered by its Execute column, the screen sheets read as
    keyword/value row pairs below a field row and a locator row, and the
    per-screen cache that later flows read from. */
module PlaywrightExcel {
  import opened Text
  import opened Sheets
  import opened Steps

  /** The configured master sheet name. */
  const MASTER := "MasterSheet"

  /** The Execute values, trimmed and upper-cased, that select a test case. */
  const ExecuteTokens: set<string> := {"YES", "Y"}

  /** A master row as a dictionary from header cell to cell value; an empty
      header cell is the key `None`, an empty data cell the value `None`. */
  type Record = map<Cell, Cell>

  /** Every cell of row 1, empty ones included. */
  function Headers(s: Sheet): (h: seq<Cell>)
    ensures |h| == MaxColumn(s)
  {
    RowCells(s, 1)
  }

  /** Row `r` as a dictionary: the k-th header (from 1) names column k, a
      later duplicate header overwriting an earlier one. */
  function RecordOf(s: Sheet, headers: seq<Cell>, r: int): Record
    decreases |headers|
  {
    if headers == [] then map[]
    else RecordOf(s, headers[..|headers| - 1], r)[headers[|headers| - 1] := CellAt(s, r, |headers|)]
  }

  /** `str(row_data.get('Execute', '')).strip().upper()`. */
  function ExecuteText(rec: Record): string {
    Upper(Strip(if Some("Execute") in rec then PyStr(rec[Some("Execute")]) else ""))
  }

  predicate Selected(rec: Record) {
    ExecuteText(rec) in ExecuteTokens
  }

  /** The records of rows 2 to `last`, top to bottom. */
  function Records(s: Sheet, headers: seq<Cell>, last: int): (recs: seq<Record>)
    ensures |recs| == if last < 2 then 0 else last - 1
  {
    if last < 2 then [] else seq(last - 1, i requires 0 <= i < last - 1 => RecordOf(s, headers, i + 2))
  }

  /** What `read_master_sheet` finds: `None` when no workbook is loaded or
      it has no master sheet (it then returns `[]` and keeps the stored
      list), otherwise the selected records. */
  function MasterRead(wb: Option<Workbook>): (r: Option<seq<Record>>)
    ensures r.Some? <==> wb.Some? && Lookup(wb.value, MASTER).Some?
    ensures r.Some? ==> |r.value| <= var n := MaxRow(Lookup(wb.value, MASTER).value); if n < 2 then 0 else n - 1
  {
    if wb.None? then None
    else match Lookup(wb.value, MASTER)
      case None => None
      case Some(s) => Some(Filter(Records(s, Headers(s), MaxRow(s)), Selected))
  }

  /** The keys of a record are exactly the header cells. */
  lemma {:induction false} RecordKeys(s: Sheet, headers: seq<Cell>, r: int, h: Cell)
    ensures h in RecordOf(s, headers, r) <==> h in headers
    decreases |headers|
  {
    if headers != [] {
      var init := headers[..|headers| - 1];
      RecordKeys(s, init, r, h);
      assert headers == init + [headers[|headers| - 1]];
    }
  }

  /** Each header is a key holding the cell under its last occurrence. */
  lemma {:induction false} RecordLastWins(s: Sheet, headers: seq<Cell>, r: int, k: nat)
    requires k < |headers|
    requires forall j :: k < j < |headers| ==> headers[j] != headers[k]
    ensures headers[k] in RecordOf(s, headers, r) && RecordOf(s, headers, r)[headers[k]] == CellAt(s, r, k + 1)
    decreases |headers|
  {
    RecordKeys(s, headers, r, headers[k]);
    if k < |headers| - 1 {
      var init := headers[..|headers| - 1];
      assert init[k] == headers[k];
      RecordLastWins(s, init, r, k);
    }
  }

  /** A row is selected exactly when its Execute cell, trimmed and
      upper-cased, is YES or Y: an empty cell, or a missing Execute
      column, never selects. */
  lemma SelectedExactly(rec: Record)
    ensures Selected(rec) <==> Some("Execute") in rec && rec[Some("Execute")].Some?
                               && Upper(Strip(rec[Some("Execute")].value)) in ExecuteTokens
  {
    if Some("Execute") !in rec {
      StripNoop("");
    } else if rec[Some("Execute")].None? {
      StripNoop("None");
      assert Upper("None")[1] == 'O';
    }
  }

  /** The Execute values "true" and "1", which the Selenium variant
      accepts, do not select a row here. */
  lemma TrueAndOneRejected(rec: Record, v: string)
    requires Some("Execute") in rec && rec[Some("Execute")] == Some(v)
    requires Strip(v) == "true" || Strip(v) == "1"
    ensures !Selected(rec)
  {
    var t := Upper(Strip(v));
    assert ExecuteText(rec) == t;
    assert |t| == |Strip(v)|;
    if Strip(v) == "1" {
      assert t[0] == '1';
    }
  }

  /** The records are exactly those of rows 2 to `last`. */
  lemma RecordsExactly(s: Sheet, headers: seq<Cell>, last: int, rec: Record)
    ensures rec in Records(s, headers, last) ==> exists r :: 2 <= r <= last && rec == RecordOf(s, headers, r)
    ensures rec in Records(s, headers, last) <== exists r :: 2 <= r <= last && rec == RecordOf(s, headers, r)
  {
    var recs := Records(s, headers, last);
    if rec in recs {
      var i :| 0 <= i < |recs| && recs[i] == rec;
      assert 2 <= i + 2 <= last && rec == RecordOf(s, headers, i + 2);
    }
    forall r | 2 <= r <= last && rec == RecordOf(s, headers, r)
      ensures rec in recs
    {
      assert recs[r - 2] == RecordOf(s, headers, (r - 2) + 2);
    }
  }

  /** A record is read iff its row (from row 2 on) is selected; every
      record has every header cell of row 1 as a key. */
  lemma MasterReadExactly(wb: Workbook, s: Sheet, rec: Record)
    requires Lookup(wb, MASTER) == Some(s)
    ensures MasterRead(Some(wb)).Some?
    ensures rec in MasterRead(Some(wb)).value <==>
            (Selected(rec) && exists r :: 2 <= r <= MaxRow(s) && rec == RecordOf(s, Headers(s), r))
    ensures rec in MasterRead(Some(wb)).value ==> forall h :: h in Headers(s) ==> h in rec
  {
    var headers := Headers(s);
    var recs := Records(s, headers, MaxRow(s));
    assert MasterRead(Some(wb)) == Some(Filter(recs, Selected));
    FilterExactly(recs, Selected, rec);
    RecordsExactly(s, headers, MaxRow(s), rec);
    if rec in recs {
      var r :| 2 <= r <= MaxRow(s) && rec == RecordOf(s, headers, r);
      forall h | h in headers
        ensures h in rec
      {
        RecordKeys(s, headers, r, h);
      }
    }
  }

  /** Every record read is selected. */
  lemma MasterReadSelected(wb: Workbook, s: Sheet)
    requires Lookup(wb, MASTER) == Some(s)
    ensures forall rec :: rec in MasterRead(Some(wb)).value ==> Selected(rec)
  {
    forall rec | rec in MasterRead(Some(wb)).value
      ensures Selected(rec)
    {
      MasterReadExactly(wb, s, rec);
    }
  }

  /** Selection keeps sheet order: the cases of rows 2 to `a` come first
      among those of rows 2 to `b`. */
  lemma MasterOrder(s: Sheet, headers: seq<Cell>, a: int, b: int)
    requires a <= b
    ensures Filter(Records(s, headers, a), Selected) <= Filter(Records(s, headers, b), Selected)
  {
    var ra := Records(s, headers, a);
    var rb := Records(s, headers, b);
    assert rb == ra + rb[|ra|..];
    FilterAppend(ra, rb[|ra|..], Selected);
  }

  /** One parsed test case: its id and its steps in column order. */
  datatype TestCase = TestCase(testCaseId: string, steps: seq<Step<Cell>>)

  /** A screen as `read_screen_sheet` returns and caches it. */
  datatype ScreenData = ScreenData(screenName: string, fieldLocatorMap: map<string, Cell>, testCases: seq<TestCase>)

  /** The non-empty cells of row 1, as written, in column order. */
  function Fields(s: Sheet): seq<string> {
    Present(RowCells(s, 1))
  }

  /** Row 2 under the first `n` columns. */
  function Locators(s: Sheet, n: nat): (locs: seq<Cell>)
    ensures |locs| == n
  {
    Cells(s, 2, 1, n)
  }

  /** `field_locator_map`: each field name to the locator at its
      position, a later duplicate name overwriting an earlier one. */
  function LocatorMap(fields: seq<string>, locators: seq<Cell>): map<string, Cell>
    requires |fields| <= |locators|
    decreases |fields|
  {
    if fields == [] then map[]
    else LocatorMap(fields[..|fields| - 1], locators)[fields[|fields| - 1] := locators[|fields| - 1]]
  }

  /** Row `r` under the first `n` columns, an empty cell read as "". */
  function TextRow(s: Sheet, r: int, n: nat): (row: seq<string>)
    ensures |row| == n
  {
    seq(n, c requires 0 <= c < n => CellText(s, r, c + 1))
  }

  /** The values of the pair whose keyword row is `r`: row `r + 1`, or
      nothing when `r` is the last row. */
  function ValuesRow(s: Sheet, r: int, n: nat): (row: seq<string>)
    ensures |row| == if r + 1 <= MaxRow(s) then n else 0
  {
    if r + 1 <= MaxRow(s) then TextRow(s, r + 1, n) else []
  }

  /** The locator a step of field `f` carries: `field_locator_map[f]`,
      the cell as read, `None` when it is empty. */
  function StepLocator(lmap: map<string, Cell>, f: string): Cell {
    if f in lmap then lmap[f] else None
  }

  /** `values_row[idx] if idx < len(values_row) else ""`. */
  function ValueAt(values: seq<string>, c: nat): string {
    if c < |values| then values[c] else ""
  }

  /** The steps of one pair from its first `c` columns: one per non-empty
      keyword, in column order. */
  function RowSteps(fields: seq<string>, lmap: map<string, Cell>, keywords: seq<string>, values: seq<string>, c: nat)
    : (steps: seq<Step<Cell>>)
    requires c <= |fields| <= |keywords|
    ensures |steps| <= c
  {
    if c == 0 then []
    else
      RowSteps(fields, lmap, keywords, values, c - 1)
      + if keywords[c - 1] != "" then
          [Step(fields[c - 1], keywords[c - 1], StepLocator(lmap, fields[c - 1]), ValueAt(values, c - 1))]
        else []
  }

  /** The number of keyword rows `3, 5, 7, …` up to `max_row`. */
  function PairCount(s: Sheet): nat {
    (MaxRow(s) - 1) / 2
  }

  /** The test case of the k-th pair (its keyword row is `3 + 2k`), numbered `k + 1`. */
  function PairCase(s: Sheet, name: string, fields: seq<string>, lmap: map<string, Cell>, k: nat): TestCase {
    var r := 3 + 2 * k;
    var n := |fields|;
    TestCase(CaseId(name, k + 1), RowSteps(fields, lmap, TextRow(s, r, n), ValuesRow(s, r, n), n))
  }

  /** `f"{screen_name}_TC{test_case_num}"`. */
  function CaseId(name: string, num: nat): string {
    name + "_TC" + NatToString(num)
  }

  /** The test cases of the first `count` pairs, empty ones included. */
  function PairCases(s: Sheet, name: string, fields: seq<string>, lmap: map<string, Cell>, count: nat)
    : (cases: seq<TestCase>)
    ensures |cases| == count
  {
    seq(count, k requires 0 <= k < count => PairCase(s, name, fields, lmap, k))
  }

  predicate HasSteps(tc: TestCase) {
    tc.steps != []
  }

  /** A screen sheet parsed as `read_screen_sheet` does. */
  function ParseScreen(name: string, s: Sheet): (d: ScreenData)
    ensures d.screenName == name
    ensures |d.testCases| <= PairCount(s)
  {
    var fields := Fields(s);
    var lmap := LocatorMap(fields, Locators(s, |fields|));
    ScreenData(name, lmap, Filter(PairCases(s, name, fields, lmap, PairCount(s)), HasSteps))
  }

  /** What `read_screen_sheet(name)` returns: `None` without a workbook
      or without a sheet of that name. */
  function ScreenOf(wb: Option<Workbook>, name: string): (d: Option<ScreenData>)
    ensures d.Some? ==> d.value.screenName == name
  {
    if wb.None? then None
    else match Lookup(wb.value, name)
      case None => None
      case Some(s) => Some(ParseScreen(name, s))
  }

  /** One more pair adds its test case at the end. */
  lemma PairCasesSnoc(s: Sheet, name: string, fields: seq<string>, lmap: map<string, Cell>, k: nat)
    ensures PairCases(s, name, fields, lmap, k + 1) == PairCases(s, name, fields, lmap, k) + [PairCase(s, name, fields, lmap, k)]
  {
    var a := PairCases(s, name, fields, lmap, k + 1);
    var b := PairCases(s, name, fields, lmap, k) + [PairCase(s, name, fields, lmap, k)];
    assert forall i :: 0 <= i < k + 1 ==> a[i] == b[i];
  }

  /** The keyword rows are exactly rows `3, 5, …` up to `max_row`. */
  lemma PairRows(s: Sheet, k: nat)
    ensures k < PairCount(s) <==> 3 + 2 * k <= MaxRow(s)
  {}

  /** The field names of the locator map are exactly the fields. */
  lemma {:induction false} LocatorMapKeys(fields: seq<string>, locators: seq<Cell>, f: string)
    requires |fields| <= |locators|
    ensures f in LocatorMap(fields, locators) <==> f in fields
    decreases |fields|
  {
    if fields != [] {
      var init := fields[..|fields| - 1];
      LocatorMapKeys(init, locators, f);
      assert fields == init + [fields[|fields| - 1]];
    }
  }

  /** A field name maps to the locator under its last occurrence, which
      every column of that name then shares. */
  lemma {:induction false} LocatorLastWins(fields: seq<string>, locators: seq<Cell>, k: nat)
    requires k < |fields| <= |locators|
    requires forall j :: k < j < |fields| ==> fields[j] != fields[k]
    ensures fields[k] in LocatorMap(fields, locators) && LocatorMap(fields, locators)[fields[k]] == locators[k]
    decreases |fields|
  {
    LocatorMapKeys(fields, locators, fields[k]);
    if k < |fields| - 1 {
      var init := fields[..|fields| - 1];
      assert init[k] == fields[k];
      LocatorLastWins(init, locators, k);
    }
  }

  /** Each step comes from a column with a non-empty keyword and carries
      that keyword as written, the column's field, the field's locator and
      the value below; every such column gives a step. */
  lemma {:induction false} RowStepsExactly(fields: seq<string>, lmap: map<string, Cell>, keywords: seq<string>,
                                           values: seq<string>, c: nat, st: Step<Cell>)
    requires c <= |fields| <= |keywords|
    ensures st in RowSteps(fields, lmap, keywords, values, c) <==>
            exists j :: 0 <= j < c && keywords[j] != ""
                        && st == Step(fields[j], keywords[j], StepLocator(lmap, fields[j]), ValueAt(values, j))
  {
    if c > 0 {
      RowStepsExactly(fields, lmap, keywords, values, c - 1, st);
      var j := c - 1;
      var tail := if keywords[j] != "" then [Step(fields[j], keywords[j], StepLocator(lmap, fields[j]), ValueAt(values, j))] else [];
      assert RowSteps(fields, lmap, keywords, values, c) == RowSteps(fields, lmap, keywords, values, j) + tail;
    }
  }

  /** A pair whose keyword row is the sheet's last row has "" for every value. */
  lemma {:induction false} TrailingRowValues(fields: seq<string>, lmap: map<string, Cell>, keywords: seq<string>, c: nat)
    requires c <= |fields| <= |keywords|
    ensures forall st :: st in RowSteps(fields, lmap, keywords, [], c) ==> st.value == ""
  {
    if c > 0 {
      TrailingRowValues(fields, lmap, keywords, c - 1);
    }
  }

  /** The last pair of a sheet with an even `max_row` has no value row. */
  lemma TrailingKeywordRow(s: Sheet, name: string, fields: seq<string>, lmap: map<string, Cell>, k: nat)
    requires 3 + 2 * k == MaxRow(s)
    ensures forall st :: st in PairCase(s, name, fields, lmap, k).steps ==> st.value == ""
  {
    var n := |fields|;
    assert ValuesRow(s, 3 + 2 * k, n) == [];
    TrailingRowValues(fields, lmap, TextRow(s, 3 + 2 * k, n), n);
  }

  /** The parsed test cases are exactly the pairs with steps, each with
      the number of its pair, so a pair without keywords leaves a gap in
      the numbering. */
  lemma ScreenCasesExactly(name: string, s: Sheet, tc: TestCase)
    ensures tc in ParseScreen(name, s).testCases <==>
            exists k :: 0 <= k < PairCount(s) && HasSteps(tc)
                        && tc == PairCase(s, name, Fields(s), ParseScreen(name, s).fieldLocatorMap, k)
    ensures tc in ParseScreen(name, s).testCases ==>
            exists num :: 1 <= num <= PairCount(s) && tc.testCaseId == CaseId(name, num)
  {
    KeptCasesExactly(s, name, Fields(s), ParseScreen(name, s).fieldLocatorMap, PairCount(s), tc);
  }

  /** The kept cases of the first `count` pairs are those with steps, each
      numbered after its pair. */
  lemma KeptCasesExactly(s: Sheet, name: string, fields: seq<string>, lmap: map<string, Cell>, count: nat, tc: TestCase)
    ensures tc in Filter(PairCases(s, name, fields, lmap, count), HasSteps) <==>
            exists k :: 0 <= k < count && HasSteps(tc) && tc == PairCase(s, name, fields, lmap, k)
    ensures tc in Filter(PairCases(s, name, fields, lmap, count), HasSteps) ==>
            exists num :: 1 <= num <= count && tc.testCaseId == CaseId(name, num)
  {
    var all := PairCases(s, name, fields, lmap, count);
    FilterExactly(all, HasSteps, tc);
    if tc in all {
      var k :| 0 <= k < |all| && all[k] == tc;
      assert tc == PairCase(s, name, fields, lmap, k);
      assert tc.testCaseId == CaseId(name, k + 1);
    }
    if exists k :: 0 <= k < count && HasSteps(tc) && tc == PairCase(s, name, fields, lmap, k) {
      var k :| 0 <= k < count && HasSteps(tc) && tc == PairCase(s, name, fields, lmap, k);
      assert all[k] == tc;
    }
  }

  /** When the first pair has no keyword and the second has one, the
      first test case is numbered 2. */
  lemma NumberingSkipsEmptyPair(name: string, s: Sheet)
    requires PairCount(s) >= 2
    requires !HasSteps(PairCase(s, name, Fields(s), ParseScreen(name, s).fieldLocatorMap, 0))
    requires HasSteps(PairCase(s, name, Fields(s), ParseScreen(name, s).fieldLocatorMap, 1))
    ensures ParseScreen(name, s).testCases != []
    ensures ParseScreen(name, s).testCases[0].testCaseId == CaseId(name, 2)
  {
    var all := PairCases(s, name, Fields(s), ParseScreen(name, s).fieldLocatorMap, PairCount(s));
    FilterSkipsFirst(all, HasSteps);
  }

  /** The first element kept, when the first fails and the second passes. */
  lemma FilterSkipsFirst<T>(xs: seq<T>, keep: T -> bool)
    requires |xs| >= 2 && !keep(xs[0]) && keep(xs[1])
    ensures Filter(xs, keep) != [] && Filter(xs, keep)[0] == xs[1]
  {
    var first := xs[..2];
    assert Filter(first, keep) == [xs[1]] by {
      assert first[..1] == [xs[0]];
      assert Filter([xs[0]], keep) == [];
    }
    assert xs == first + xs[2..];
    FilterAppend(first, xs[2..], keep);
  }

  /** The screen names of a flow: split on commas and trimmed, empty names kept. */
  function FlowNames(flow: string): (names: seq<string>)
    ensures |names| == |Split(flow, ',')|
  {
    StripAll(Split(flow, ','))
  }

  /** A sheet parser: the data of a named screen, `None` when its sheet
      is missing. */
  type Parser = string -> Option<ScreenData>

  /** `read_screen_sheet` against a fixed workbook, as a function of the name. */
  function Reader(wb: Option<Workbook>): Parser {
    name => ScreenOf(wb, name)
  }

  /** The readable screens among `names`, in order, duplicates kept. */
  function FlowOf(parse: Parser, names: seq<string>): (r: seq<ScreenData>)
    ensures |r| <= |names|
    decreases |names|
  {
    if names == [] then []
    else
      FlowOf(parse, names[..|names| - 1])
      + match parse(names[|names| - 1]) case None => [] case Some(d) => [d]
  }

  /** The entries are the successful parses of the names, whatever the parser. */
  lemma {:induction false} FlowOfParses(parse: Parser, names: seq<string>, d: ScreenData)
    ensures d in FlowOf(parse, names) <==> exists i :: 0 <= i < |names| && parse(names[i]) == Some(d)
    decreases |names|
  {
    if names != [] {
      var init := names[..|names| - 1];
      var last := names[|names| - 1];
      FlowOfParses(parse, init, d);
      assert forall i :: 0 <= i < |init| ==> init[i] == names[i];
      assert d in FlowOf(parse, names) <==> d in FlowOf(parse, init) || parse(last) == Some(d);
    }
  }

  /** Every entry is a readable screen of the flow, and every readable
      screen of the flow has an entry. */
  lemma FlowOfExactly(wb: Option<Workbook>, names: seq<string>, d: ScreenData)
    ensures d in FlowOf(Reader(wb), names) <==> d.screenName in names && ScreenOf(wb, d.screenName) == Some(d)
  {
    FlowOfParses(Reader(wb), names, d);
    if d.screenName in names && ScreenOf(wb, d.screenName) == Some(d) {
      var i :| 0 <= i < |names| && names[i] == d.screenName;
      assert Reader(wb)(names[i]) == Some(d);
    }
  }

  /** The part of the reader's state a flow lookup uses and changes: the
      screens gathered so far, the cache, and the names whose sheets have
      been parsed. */
  datatype FlowState = FlowState(data: seq<ScreenData>, cache: map<string, ScreenData>, sheetReads: seq<string>)

  /** One screen of `get_test_data_for_flow`: a cached screen is taken
      from the cache; otherwise its sheet is parsed, and cached and taken
      when it exists, skipped when it does not. */
  function Visit(parse: Parser, st: FlowState, name: string): (v: FlowState)
    ensures st.data <= v.data && |v.data| <= |st.data| + 1
    ensures v.sheetReads == st.sheetReads + if name in st.cache then [] else [name]
  {
    if name in st.cache then st.(data := st.data + [st.cache[name]])
    else match parse(name)
      case None => st.(sheetReads := st.sheetReads + [name])
      case Some(d) => FlowState(st.data + [d], st.cache[name := d], st.sheetReads + [name])
  }

  /** The screens of `names` visited in order. */
  function Walk(parse: Parser, st: FlowState, names: seq<string>): (w: FlowState)
    ensures st.data <= w.data && |w.data| <= |st.data| + |names|
    decreases |names|
  {
    if names == [] then st
    else Visit(parse, Walk(parse, st, names[..|names| - 1]), names[|names| - 1])
  }

  /** Every cached screen is what its sheet parses to now. */
  ghost predicate CacheValid(parse: Parser, cache: map<string, ScreenData>) {
    forall n :: n in cache ==> parse(n) == Some(cache[n])
  }

  /** With a cache that agrees with the workbook, the cache is invisible:
      the flow's data is what reading every sheet afresh gives, and the
      cache still agrees afterwards. */
  lemma {:induction false} WalkTransparent(parse: Parser, st: FlowState, names: seq<string>)
    requires CacheValid(parse, st.cache)
    ensures Walk(parse, st, names).data == st.data + FlowOf(parse, names)
    ensures CacheValid(parse, Walk(parse, st, names).cache)
    decreases |names|
  {
    if names != [] {
      WalkTransparent(parse, st, names[..|names| - 1]);
    }
  }

  /** A screen already cached is never parsed again, and every parse is
      of a name of the flow. */
  lemma {:induction false} WalkNoReread(parse: Parser, st: FlowState, names: seq<string>)
    ensures var w := Walk(parse, st, names);
            && st.sheetReads <= w.sheetReads
            && st.cache.Keys <= w.cache.Keys
            && (forall i :: |st.sheetReads| <= i < |w.sheetReads| ==> w.sheetReads[i] !in st.cache && w.sheetReads[i] in names)
    decreases |names|
  {
    if names != [] {
      var init := names[..|names| - 1];
      WalkNoReread(parse, st, init);
      var v := Walk(parse, st, init);
      var w := Visit(parse, v, names[|names| - 1]);
      forall i | |st.sheetReads| <= i < |w.sheetReads|
        ensures w.sheetReads[i] in names
      {
        if i < |v.sheetReads| {
          assert v.sheetReads[i] in init;
        }
      }
    }
  }

  /** A screen parsed successfully is cached, and so parsed only once. */
  lemma {:induction false} WalkParsesOnce(parse: Parser, st: FlowState, names: seq<string>)
    ensures var w := Walk(parse, st, names);
            && (forall i :: |st.sheetReads| <= i < |w.sheetReads| && parse(w.sheetReads[i]).Some? ==> w.sheetReads[i] in w.cache)
            && (forall i, j :: |st.sheetReads| <= i < j < |w.sheetReads| && w.sheetReads[i] == w.sheetReads[j] ==> parse(w.sheetReads[i]).None?)
    decreases |names|
  {
    if names != [] {
      var init := names[..|names| - 1];
      WalkParsesOnce(parse, st, init);
      WalkNoReread(parse, st, init);
      var v := Walk(parse, st, init);
      var w := Visit(parse, v, names[|names| - 1]);
      assert v.sheetReads <= w.sheetReads && v.cache.Keys <= w.cache.Keys;
    }
  }

  /** The reader's state: the loaded workbook, the selected master rows,
      and the cache of parsed screens. `sheetReads` records, for the proofs,
      every name whose sheet was parsed. */
  class ExcelReader {
    var workbook: Option<Workbook>
    var masterSheetData: seq<Record>
    var screenData: map<string, ScreenData>
    ghost var sheetReads: seq<string>

    constructor ()
      ensures workbook == None && masterSheetData == [] && screenData == map[] && sheetReads == []
    {
      workbook := None;
      masterSheetData := [];
      screenData := map[];
      sheetReads := [];
    }

    /** `load_workbook`: `file` is the workbook found at the configured
        path, or `None` when it is missing or fails to load, in which case
        the earlier workbook stays. The cache is not cleared. */
    method LoadWorkbook(file: Option<Workbook>) returns (ok: bool)
      modifies this
      ensures ok == file.Some?
      ensures workbook == if file.Some? then file else old(workbook)
      ensures masterSheetData == old(masterSheetData) && screenData == old(screenData) && sheetReads == old(sheetReads)
    {
      if file.None? {
        return false;
      }
      workbook := file;
      return true;
    }

    /** `read_master_sheet`: the selected rows, which are also stored. */
    method ReadMasterSheet() returns (cases: seq<Record>)
      modifies this
      ensures cases == if MasterRead(workbook).Some? then MasterRead(workbook).value else []
      ensures masterSheetData == if MasterRead(workbook).Some? then cases else old(masterSheetData)
      ensures workbook == old(workbook) && screenData == old(screenData) && sheetReads == old(sheetReads)
    {
      if workbook.None? {
        return [];
      }
      var sheet := Lookup(workbook.value, MASTER);
      if sheet.None? {
        return [];
      }
      var s := sheet.value;
      var headers := CollectHeaders(s);
      cases := SelectRecords(s, headers);
      masterSheetData := cases;
    }

    /** `read_screen_sheet`: parse the sheet and cache what was read. */
    method ReadScreenSheet(name: string) returns (d: Option<ScreenData>)
      modifies this
      ensures d == ScreenOf(workbook, name)
      ensures screenData == if d.Some? then old(screenData)[name := d.value] else old(screenData)
      ensures sheetReads == old(sheetReads) + [name]
      ensures workbook == old(workbook) && masterSheetData == old(masterSheetData)
    {
      sheetReads := sheetReads + [name];
      if workbook.None? {
        return None;
      }
      var sheet := Lookup(workbook.value, name);
      if sheet.None? {
        return None;
      }
      var parsed := ParseScreenSheet(name, sheet.value);
      screenData := screenData[name := parsed];
      return Some(parsed);
    }

    /** `get_test_data_for_flow`: an empty flow cell (`None`) makes the
        split raise, which is caught and gives `[]`. */
    method GetTestDataForFlow(flow: Option<string>) returns (data: seq<ScreenData>)
      modifies this
      ensures flow.None? ==> data == [] && screenData == old(screenData) && sheetReads == old(sheetReads)
      ensures flow.Some? ==>
                var w := Walk(Reader(old(workbook)), FlowState([], old(screenData), old(sheetReads)), FlowNames(flow.value));
                data == w.data && screenData == w.cache && sheetReads == w.sheetReads
      ensures workbook == old(workbook) && masterSheetData == old(masterSheetData)
    {
      if flow.None? {
        return [];
      }
      var names := FlowNames(flow.value);
      data := ReadFlow(names);
    }

    /** The loop of `get_test_data_for_flow` over the flow's screen names. */
    method ReadFlow(names: seq<string>) returns (data: seq<ScreenData>)
      modifies this
      ensures var w := Walk(Reader(old(workbook)), FlowState([], old(screenData), old(sheetReads)), names);
              data == w.data && screenData == w.cache && sheetReads == w.sheetReads
      ensures workbook == old(workbook) && masterSheetData == old(masterSheetData)
    {
      ghost var start := FlowState([], screenData, sheetReads);
      data := [];
      for i := 0 to |names|
        invariant workbook == old(workbook) && masterSheetData == old(masterSheetData)
        invariant FlowState(data, screenData, sheetReads) == Walk(Reader(workbook), start, names[..i])
      {
        assert names[..i + 1][..i] == names[..i];
        if names[i] in screenData {
          data := data + [screenData[names[i]]];
        } else {
          var d := ReadScreenSheet(names[i]);
          if d.Some? {
            data := data + [d.value];
          }
        }
      }
      assert names[..|names|] == names;
    }

    /** `get_all_test_cases`: the rows the last master read stored. */
    method GetAllTestCases() returns (cases: seq<Record>)
      ensures cases == masterSheetData
    {
      return masterSheetData;
    }
  }

  /** `for cell in sheet[1]: headers.append(cell.value)`. */
  method CollectHeaders(s: Sheet) returns (headers: seq<Cell>)
    ensures headers == Headers(s)
  {
    var row := RowCells(s, 1);
    headers := [];
    for c := 0 to |row|
      invariant headers == row[..c]
    {
      headers := headers + [row[c]];
    }
  }

  /** The selected records of rows 2 to `max_row`, collected by a loop. */
  method SelectRecords(s: Sheet, headers: seq<Cell>) returns (cases: seq<Record>)
    ensures cases == Filter(Records(s, headers, MaxRow(s)), Selected)
  {
    cases := [];
    for r := 2 to MaxRow(s) + 1
      invariant cases == Filter(Records(s, headers, r - 1), Selected)
    {
      var rec := ReadRecord(s, headers, r);
      assert Records(s, headers, r) == Records(s, headers, r - 1) + [rec];
      FilterSnoc(Records(s, headers, r - 1), rec, Selected);
      if Selected(rec) {
        cases := cases + [rec];
      }
    }
  }

  /** Row `r` as a dictionary, filled header by header. */
  method ReadRecord(s: Sheet, headers: seq<Cell>, r: int) returns (rec: Record)
    ensures rec == RecordOf(s, headers, r)
  {
    rec := map[];
    for k := 0 to |headers|
      invariant rec == RecordOf(s, headers[..k], r)
    {
      assert headers[..k + 1][..k] == headers[..k];
      rec := rec[headers[k] := CellAt(s, r, k + 1)];
    }
    assert headers[..|headers|] == headers;
  }

  /** The body of `read_screen_sheet` once the sheet is found. */
  method ParseScreenSheet(name: string, s: Sheet) returns (d: ScreenData)
    ensures d == ParseScreen(name, s)
  {
    var fields := CollectFields(s);
    var locators := ReadLocators(s, |fields|);
    var lmap := BuildLocatorMap(fields, locators);
    var cases := ReadPairs(s, name, fields, lmap);
    d := ScreenData(name, lmap, cases);
  }

  /** The non-empty cells of row 1, collected by a loop. */
  method CollectFields(s: Sheet) returns (fields: seq<string>)
    ensures fields == Fields(s)
  {
    var row := RowCells(s, 1);
    fields := [];
    for c := 0 to |row|
      invariant fields == Present(row[..c])
    {
      assert row[..c + 1] == row[..c] + [row[c]];
      PresentAppend(row[..c], [row[c]]);
      if Truthy(row[c]) {
        fields := fields + [row[c].value];
      }
    }
    assert row[..|row|] == row;
  }

  /** Row 2 under the first `n` columns, collected by a loop. */
  method ReadLocators(s: Sheet, n: nat) returns (locators: seq<Cell>)
    ensures locators == Locators(s, n)
  {
    locators := [];
    for c := 0 to n
      invariant locators == Locators(s, n)[..c]
    {
      locators := locators + [CellAt(s, 2, c + 1)];
    }
  }

  /** `field_locator_map`, filled field by field. */
  method BuildLocatorMap(fields: seq<string>, locators: seq<Cell>) returns (lmap: map<string, Cell>)
    requires |fields| <= |locators|
    ensures lmap == LocatorMap(fields, locators)
  {
    lmap := map[];
    for k := 0 to |fields|
      invariant lmap == LocatorMap(fields[..k], locators)
    {
      assert fields[..k + 1][..k] == fields[..k];
      lmap := lmap[fields[k] := locators[k]];
    }
    assert fields[..|fields|] == fields;
  }

  /** Row `r` under the first `n` columns, collected by a loop. */
  method ReadTextRow(s: Sheet, r: int, n: nat) returns (row: seq<string>)
    ensures row == TextRow(s, r, n)
  {
    row := [];
    for c := 0 to n
      invariant row == TextRow(s, r, n)[..c]
    {
      row := row + [CellText(s, r, c + 1)];
    }
  }

  /** The steps of one pair, column by column. */
  method ReadRowSteps(fields: seq<string>, lmap: map<string, Cell>, keywords: seq<string>, values: seq<string>)
    returns (steps: seq<Step<Cell>>)
    requires |fields| <= |keywords|
    ensures steps == RowSteps(fields, lmap, keywords, values, |fields|)
  {
    steps := [];
    for c := 0 to |fields|
      invariant steps == RowSteps(fields, lmap, keywords, values, c)
    {
      if keywords[c] != "" {
        steps := steps + [Step(fields[c], keywords[c], StepLocator(lmap, fields[c]), ValueAt(values, c))];
      }
    }
  }

  /** The test case of the pair whose keyword row is `r`. */
  method ReadPair(s: Sheet, name: string, fields: seq<string>, lmap: map<string, Cell>, k: nat)
    returns (tc: TestCase)
    ensures tc == PairCase(s, name, fields, lmap, k)
  {
    var r := 3 + 2 * k;
    var num := k + 1;
    var keywords := ReadTextRow(s, r, |fields|);
    var values: seq<string> := [];
    if r + 1 <= MaxRow(s) {
      values := ReadTextRow(s, r + 1, |fields|);
    }
    var steps := ReadRowSteps(fields, lmap, keywords, values);
    tc := TestCase(CaseId(name, num), steps);
  }

  /** The `while row_idx <= max_row` loop: pairs from row 3, two rows at
      a time, numbered from 1, keeping those with steps. */
  method ReadPairs(s: Sheet, name: string, fields: seq<string>, lmap: map<string, Cell>) returns (cases: seq<TestCase>)
    ensures cases == Filter(PairCases(s, name, fields, lmap, PairCount(s)), HasSteps)
  {
    cases := [];
    var row := 3;
    var k: nat := 0;
    while row <= MaxRow(s)
      invariant k <= PairCount(s)
      invariant row == 3 + 2 * k
      invariant cases == Filter(PairCases(s, name, fields, lmap, k), HasSteps)
      decreases MaxRow(s) - row
    {
      PairRows(s, k);
      cases := ReadNextPair(s, name, fields, lmap, cases, k);
      row := row + 2;
      k := k + 1;
    }
    PairRows(s, k);
    assert k == PairCount(s);
  }

  /** One iteration of that loop: the k-th pair's test case is kept when it has steps. */
  method ReadNextPair(s: Sheet, name: string, fields: seq<string>, lmap: map<string, Cell>, cases: seq<TestCase>, k: nat)
    returns (next: seq<TestCase>)
    requires cases == Filter(PairCases(s, name, fields, lmap, k), HasSteps)
    ensures next == Filter(PairCases(s, name, fields, lmap, k + 1), HasSteps)
  {
    var tc := ReadPair(s, name, fields, lmap, k);
    PairCasesSnoc(s, name, fields, lmap, k);
    FilterSnoc(PairCases(s, name, fields, lmap, k), tc, HasSteps);
    next := cases;
    if HasSteps(tc) {
      next := next + [tc];
    }
  }
}
