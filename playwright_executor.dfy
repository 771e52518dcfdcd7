/** The Playwright variant's test executor: for each selected test case,
    start the browser, run the first test case of every screen of its flow
    until a step fails, close the browser and add one report entry. */
module PlaywrightExecutor {
  import opened Text
  import opened Steps
  import opened StepRuns
  import Sheets
  import P = PlaywrightKeywords
  import X = PlaywrightExcel
  import R = PlaywrightReport

  /** The screenshot switches of `EXECUTION_CONFIG`. */
  datatype Settings = Settings(shotOnFailure: bool, shotOnSuccess: bool)

  /** The shipped configuration: a screenshot after a failure only. */
  const Config := Settings(true, false)

  /** What one test case meets outside the model: whether
      `start_browser` succeeds, the keyword engine bound to the browser
      (the outcome of the k-th keyword executed), the path
      `take_screenshot` returns for a name (`None` when saving fails), and
      the exception, if any, raised once the browser has started and
      before the flow is looked up. */
  datatype Session = Session(started: bool, exec: Engine<Sheets.Cell>, shot: string -> Option<string>, fault: Option<string>)

  /** `dict.get(key, default)` on a master-sheet row. */
  function Get(rec: X.Record, key: string, default: string): (v: Option<string>)
    ensures Some(key) in rec ==> v == rec[Some(key)]
    ensures Some(key) !in rec ==> v == Some(default)
  {
    if Some(key) in rec then rec[Some(key)] else Some(default)
  }

  /** The keyword engine of a session: the k-th keyword runs
      `execute_keyword(keyword, locator, value)` on the page as it then is. */
  function Exec(pageAt: nat -> P.Page): Engine<Sheets.Cell> {
    (k: nat, st: Step<Sheets.Cell>) => P.ExecuteKeyword(pageAt(k), st.keyword, st.locator, st.value)
  }

  /** The session `execute_test_case` works in: `KeywordEngine(browser_manager)`
      over the pages `pageAt`. */
  function KeywordSession(started: bool, pageAt: nat -> P.Page, shot: string -> Option<string>, fault: Option<string>)
    : (s: Session)
    ensures s.started == started && s.shot == shot && s.fault == fault
  {
    Session(started, Exec(pageAt), shot, fault)
  }

  /** The steps a screen contributes: those of its first test case, none
      when it has no test case. */
  function CaseSteps(d: X.ScreenData): seq<Step<Sheets.Cell>> {
    if d.testCases != [] then d.testCases[0].steps else []
  }

  /** The steps each screen of the flow contributes. */
  function Screens(data: seq<X.ScreenData>): (screens: seq<seq<Step<Sheets.Cell>>>)
    ensures |screens| == |data|
  {
    seq(|data|, j requires 0 <= j < |data| => CaseSteps(data[j]))
  }

  /** What `execute_test_case` determines: the returned pair, the names of
      the screenshots taken in order, the report entry added (if any) and
      whether the browser was closed. */
  datatype CaseResult = CaseResult(passed: bool, message: string, shots: seq<string>,
                                   entry: Option<R.ReportEntry>, closed: bool)

  /** The screenshots of a completed run: on a failure the one taken in the
      loop, named after the failing screen, then the final one. */
  function ShotNames(cfg: Settings, id: string, f: FlowResult, data: seq<X.ScreenData>): (names: seq<string>)
    requires f.failure.Some? ==> f.failure.value.screen < |data|
    ensures |names| <= 2
    ensures names != [] <==> if f.failure.None? then cfg.shotOnSuccess else cfg.shotOnFailure
    ensures names != [] ==> names[|names| - 1] == id + if f.failure.None? then "_PASSED" else "_FAILED"
  {
    if f.failure.None? then (if cfg.shotOnSuccess then [id + "_PASSED"] else [])
    else if cfg.shotOnFailure then [id + "_" + data[f.failure.value.screen].screenName + "_FAILED", id + "_FAILED"]
    else []
  }

  /** One test case read from `rec`, whose flow data is `data`. */
  function CaseRun(cfg: Settings, rec: X.Record, data: seq<X.ScreenData>, s: Session): (r: CaseResult)
    ensures r.passed ==> r.message == ""
  {
    var id := Get(rec, "TestCaseID", "Unknown");
    var flow := Get(rec, "ScreenFlow", "");
    if !s.started then CaseResult(false, "Browser start failed", [], None, false)
    else if s.fault.Some? then CaseResult(false, "Error executing test case: " + s.fault.value, [], None, true)
    else if data == [] then CaseResult(false, "No data for screen flow: " + PyStr(flow), [], None, true)
    else
      var f := RunFrom(s.exec, Screens(data), 0, 0, 0);
      var passed := f.failure.None?;
      var message := if passed then "" else f.failure.value.message;
      var shots := ShotNames(cfg, PyStr(id), f, data);
      var path := if shots == [] then Some("") else s.shot(shots[|shots| - 1]);
      CaseResult(passed, message, shots, Some(R.ReportEntry(id, flow, if passed then "PASS" else "FAIL", message, path)), true)
  }

  /** The flow data of a row's `ScreenFlow` cell parsed afresh by `parse`;
      an empty cell gives none. */
  function FlowData(parse: X.Parser, flow: Option<string>): (d: seq<X.ScreenData>)
    ensures flow.None? ==> d == []
    ensures flow.Some? ==> |d| <= |Split(flow.value, ',')|
  {
    if flow.None? then [] else X.FlowOf(parse, X.FlowNames(flow.value))
  }

  /** `get_test_data_for_flow(flow)` on the reader's state `st`. */
  function FlowWalk(parse: X.Parser, st: X.FlowState, flow: Option<string>): X.FlowState {
    if flow.None? then st else X.Walk(parse, st, X.FlowNames(flow.value))
  }

  /** What running one case adds to the report, given the row, the flow
      data the case is run on and its session. */
  type Runner = (X.Record, seq<X.ScreenData>, Session) -> seq<R.ReportEntry>

  /** The runner of `execute_test_case` under the settings `cfg`: the
      case's entry, if it has one. */
  function EntryOf(cfg: Settings): Runner {
    (rec: X.Record, data: seq<X.ScreenData>, s: Session) =>
      var r := CaseRun(cfg, rec, data, s);
      if r.entry.Some? then [r.entry.value] else []
  }

  /** The report entries of the first n cases, the i-th run in session i
      on the flow data parsed afresh by `parse`. */
  function Entries(run: Runner, parse: X.Parser, cases: seq<X.Record>, sessions: nat -> Session, n: nat)
    : (es: seq<R.ReportEntry>)
    requires n <= |cases|
    ensures (forall rec, d, s :: |run(rec, d, s)| <= 1) ==> |es| <= n
  {
    if n == 0 then []
    else Entries(run, parse, cases, sessions, n - 1) + run(cases[n - 1], FlowData(parse, Get(cases[n - 1], "ScreenFlow", "")), sessions(n - 1))
  }

  /** Where a run of cases has got to: the report entries added so far and
      the reader's cache and parse log. */
  datatype Batch = Batch(entries: seq<R.ReportEntry>, cache: map<string, X.ScreenData>, sheetReads: seq<string>)

  /** One more case on the reader as `b` leaves it: the case is run on its
      flow data as looked up through the cache, and what it adds is
      appended; the lookup changes the cache and the parse log only once
      the browser has started and nothing has raised (before that,
      `execute_test_case` never looks at the flow data). */
  function NextCase(run: Runner, parse: X.Parser, b: Batch, rec: X.Record, s: Session): (b': Batch)
    ensures b.entries <= b'.entries
    ensures !(s.started && s.fault.None?) ==> b'.cache == b.cache && b'.sheetReads == b.sheetReads
  {
    var looked := s.started && s.fault.None?;
    var w := FlowWalk(parse, X.FlowState([], b.cache, b.sheetReads), Get(rec, "ScreenFlow", ""));
    Batch(b.entries + run(rec, w.data, s),
          if looked then w.cache else b.cache,
          if looked then w.sheetReads else b.sheetReads)
  }

  /** The first n cases run in order on a reader whose cache and parse log
      start as `cache` and `sheetReads`, the i-th in session i. */
  function RunCases(run: Runner, parse: X.Parser, cache: map<string, X.ScreenData>, sheetReads: seq<string>,
                    cases: seq<X.Record>, sessions: nat -> Session, n: nat): (b: Batch)
    requires n <= |cases|
    ensures (forall rec, d, s :: |run(rec, d, s)| <= 1) ==> |b.entries| <= n
  {
    if n == 0 then Batch([], cache, sheetReads)
    else NextCase(run, parse, RunCases(run, parse, cache, sheetReads, cases, sessions, n - 1), cases[n - 1], sessions(n - 1))
  }

  /** The selected master rows `read_master_sheet` returns. */
  function MasterCases(wb: Option<Sheets.Workbook>): (cases: seq<X.Record>)
    ensures X.MasterRead(wb).None? ==> cases == []
    ensures forall rec :: rec in cases ==> X.Selected(rec)
  {
    if X.MasterRead(wb).Some? then
      X.MasterReadSelected(wb.value, Sheets.Lookup(wb.value, X.MASTER).value);
      X.MasterRead(wb).value
    else []
  }

  // ---------------------------------------------------------------------
  // Properties of a test case

  /** A test case passes exactly when the browser starts, nothing raises,
      the flow has data and every step of the first test case of every
      screen succeeds, the n-th step as the session's n-th keyword. */
  lemma CasePassIff(cfg: Settings, rec: X.Record, data: seq<X.ScreenData>, s: Session)
    ensures CaseRun(cfg, rec, data, s).passed <==>
            s.started && s.fault.None? && data != []
            && var steps := Flatten(Screens(data));
               forall n :: 0 <= n < |steps| ==> StepOk(s.exec, steps[n], n)
  {
    WholeFlowPassIff(s.exec, Screens(data));
  }

  /** In a keyword session the same holds with the keyword engine's own
      verdict: the n-th step runs `execute_keyword` on the n-th page. */
  lemma KeywordCasePassIff(cfg: Settings, rec: X.Record, data: seq<X.ScreenData>, started: bool,
                           pageAt: nat -> P.Page, shot: string -> Option<string>, fault: Option<string>)
    ensures CaseRun(cfg, rec, data, KeywordSession(started, pageAt, shot, fault)).passed <==>
            started && fault.None? && data != []
            && var steps := Flatten(Screens(data));
               forall n :: 0 <= n < |steps| ==>
                 P.ExecuteKeyword(pageAt(n), steps[n].keyword, steps[n].locator, steps[n].value).success
  {
    var s := KeywordSession(started, pageAt, shot, fault);
    CasePassIff(cfg, rec, data, s);
    var steps := Flatten(Screens(data));
    assert forall n :: 0 <= n < |steps| ==>
      (StepOk(s.exec, steps[n], n) <==> P.ExecuteKeyword(pageAt(n), steps[n].keyword, steps[n].locator, steps[n].value).success);
  }

  /** When the n-th step of the flow is the first to fail, the test case
      fails with that keyword's message, exactly n + 1 keywords having
      run, and its report entry says FAIL with the same message. */
  lemma FirstFailureStops(cfg: Settings, rec: X.Record, data: seq<X.ScreenData>, s: Session, n: nat)
    requires s.started && s.fault.None?
    requires var steps := Flatten(Screens(data));
             n < |steps| && (forall m :: 0 <= m < n ==> StepOk(s.exec, steps[m], m)) && !StepOk(s.exec, steps[n], n)
    ensures var r := CaseRun(cfg, rec, data, s);
            !r.passed
            && r.message == s.exec(n, Flatten(Screens(data))[n]).message
            && RunFrom(s.exec, Screens(data), 0, 0, 0).ran == n + 1
            && r.entry.Some? && r.entry.value.status == "FAIL" && r.entry.value.errorMessage == r.message
  {
    FirstFailure(s.exec, Screens(data), n);
  }

  /** A report entry is added exactly when the run completes: the browser
      started, nothing raised and the flow had data. The entry records the
      row's id and flow, PASS exactly for a pass, and the returned message.
      The browser is closed exactly when it started. */
  lemma EntryIffCompleted(cfg: Settings, rec: X.Record, data: seq<X.ScreenData>, s: Session)
    ensures var r := CaseRun(cfg, rec, data, s);
            (r.entry.Some? <==> s.started && s.fault.None? && data != [])
            && (r.entry.Some? ==>
                  r.entry.value.testCase == Get(rec, "TestCaseID", "Unknown")
                  && r.entry.value.screenFlow == Get(rec, "ScreenFlow", "")
                  && (r.entry.value.status == "PASS" <==> r.passed)
                  && r.entry.value.errorMessage == r.message)
            && (r.closed <==> s.started)
  {}

  /** With the shipped settings a passing case takes no screenshot and
      records an empty path; a failing run takes two, the first named
      after the failing screen, and records the path of the second. */
  lemma ShippedScreenshots(rec: X.Record, data: seq<X.ScreenData>, s: Session)
    requires s.started && s.fault.None? && data != []
    ensures var r := CaseRun(Config, rec, data, s);
            var id := PyStr(Get(rec, "TestCaseID", "Unknown"));
            (r.passed ==> r.shots == [] && r.entry.value.screenshotPath == Some(""))
            && (!r.passed ==>
                  |r.shots| == 2 && r.shots[1] == id + "_FAILED"
                  && (exists j :: 0 <= j < |data| && r.shots[0] == id + "_" + data[j].screenName + "_FAILED")
                  && r.entry.value.screenshotPath == s.shot(id + "_FAILED"))
  {
    var f := RunFrom(s.exec, Screens(data), 0, 0, 0);
    if f.failure.Some? {
      var j := f.failure.value.screen;
      assert CaseRun(Config, rec, data, s).shots[0] == PyStr(Get(rec, "TestCaseID", "Unknown")) + "_" + data[j].screenName + "_FAILED";
    }
  }

  /** Only the first test case of each screen matters: flows whose screens
      agree on their names and first test cases give the same result. */
  lemma OnlyFirstCaseRuns(cfg: Settings, rec: X.Record, d1: seq<X.ScreenData>, d2: seq<X.ScreenData>, s: Session)
    requires |d1| == |d2|
    requires forall j :: 0 <= j < |d1| ==> d1[j].screenName == d2[j].screenName && CaseSteps(d1[j]) == CaseSteps(d2[j])
    ensures CaseRun(cfg, rec, d1, s) == CaseRun(cfg, rec, d2, s)
  {
    assert Screens(d1) == Screens(d2);
  }

  /** With a cache that agrees with the workbook, a flow lookup gives the
      flow data read afresh, and the cache still agrees afterwards. */
  lemma CachedFlow(parse: X.Parser, cache: map<string, X.ScreenData>, parsed: seq<string>, flow: Option<string>)
    requires X.CacheValid(parse, cache)
    ensures FlowWalk(parse, X.FlowState([], cache, parsed), flow).data == FlowData(parse, flow)
    ensures X.CacheValid(parse, FlowWalk(parse, X.FlowState([], cache, parsed), flow).cache)
  {
    if flow.Some? {
      X.WalkTransparent(parse, X.FlowState([], cache, parsed), X.FlowNames(flow.value));
    }
  }

  /** With a cache that agrees with the workbook, running the cases
      through the cache adds the same entries as reading every flow
      afresh, and the cache keeps agreeing. */
  lemma {:induction false} RunCasesFresh(run: Runner, parse: X.Parser, cache: map<string, X.ScreenData>,
                                         sheetReads: seq<string>, cases: seq<X.Record>, sessions: nat -> Session, n: nat)
    requires n <= |cases|
    requires X.CacheValid(parse, cache)
    ensures RunCases(run, parse, cache, sheetReads, cases, sessions, n).entries == Entries(run, parse, cases, sessions, n)
    ensures X.CacheValid(parse, RunCases(run, parse, cache, sheetReads, cases, sessions, n).cache)
  {
    if n > 0 {
      RunCasesFresh(run, parse, cache, sheetReads, cases, sessions, n - 1);
      var b := RunCases(run, parse, cache, sheetReads, cases, sessions, n - 1);
      NextCaseFresh(run, parse, b, cases[n - 1], sessions(n - 1));
      assert RunCases(run, parse, cache, sheetReads, cases, sessions, n) == NextCase(run, parse, b, cases[n - 1], sessions(n - 1));
    }
  }

  /** One case on a reader whose cache agrees with the workbook adds what
      the case adds on its flow read afresh. */
  lemma NextCaseFresh(run: Runner, parse: X.Parser, b: Batch, rec: X.Record, s: Session)
    requires X.CacheValid(parse, b.cache)
    ensures NextCase(run, parse, b, rec, s).entries == b.entries + run(rec, FlowData(parse, Get(rec, "ScreenFlow", "")), s)
    ensures X.CacheValid(parse, NextCase(run, parse, b, rec, s).cache)
  {
    CachedFlow(parse, b.cache, b.sheetReads, Get(rec, "ScreenFlow", ""));
  }

  /** A fresh reader's empty cache agrees with any workbook, so running the
      selected cases adds the entries of the cases read afresh. */
  lemma FreshReaderRun(cfg: Settings, wb: Option<Sheets.Workbook>, cases: seq<X.Record>, sessions: nat -> Session)
    ensures RunCases(EntryOf(cfg), X.Reader(wb), map[], [], cases, sessions, |cases|).entries
            == Entries(EntryOf(cfg), X.Reader(wb), cases, sessions, |cases|)
  {
    RunCasesFresh(EntryOf(cfg), X.Reader(wb), map[], [], cases, sessions, |cases|);
  }

  // ---------------------------------------------------------------------
  // The browser and the executor

  /** The browser manager's lifecycle: whether a browser is running and how
      many times it has been closed. */
  class BrowserManager {
    var running: bool
    var closes: nat

    constructor ()
      ensures !running && closes == 0
    {
      running := false;
      closes := 0;
    }

    /** `start_browser`: `launches` says whether the launch succeeds. */
    method StartBrowser(launches: bool) returns (ok: bool)
      modifies this
      ensures ok == launches && running == launches && closes == old(closes)
    {
      running := launches;
      ok := launches;
    }

    /** `close_browser`, which swallows its own errors. */
    method CloseBrowser()
      modifies this
      ensures !running && closes == old(closes) + 1
    {
      running := false;
      closes := closes + 1;
    }
  }

  /** The two loops of `execute_test_case`: the screens of the flow, the
      steps of each screen's first test case, stopping at the first
      failing step. */
  method RunFlow(s: Session, data: seq<X.ScreenData>) returns (f: FlowResult)
    ensures f == RunFrom(s.exec, Screens(data), 0, 0, 0)
  {
    ghost var screens := Screens(data);
    var ran := 0;
    var j := 0;
    while j < |data|
      invariant 0 <= j <= |data|
      invariant RunFrom(s.exec, screens, 0, 0, 0) == RunFrom(s.exec, screens, j, 0, ran)
    {
      if data[j].testCases != [] {
        var steps := data[j].testCases[0].steps;
        var i := 0;
        while i < |steps|
          invariant 0 <= i <= |steps| && steps == screens[j]
          invariant RunFrom(s.exec, screens, 0, 0, 0) == RunFrom(s.exec, screens, j, i, ran)
        {
          var o := s.exec(ran, steps[i]);
          if !o.success {
            return FlowResult(Some(StepFault(j, i, o.message)), ran + 1);
          }
          i := i + 1;
          ran := ran + 1;
        }
      } else {
        assert screens[j] == [];
      }
      j := j + 1;
    }
    f := FlowResult(None, ran);
  }

  /** The executor: the reader, the browser manager and the report. */
  class TestExecutor {
    const settings: Settings
    const reader: X.ExcelReader
    const browser: BrowserManager
    const report: R.ReportGenerator

    constructor (cfg: Settings)
      ensures settings == cfg && fresh(reader) && fresh(browser) && fresh(report)
      ensures reader.workbook == None && reader.masterSheetData == [] && reader.screenData == map[]
      ensures !browser.running && browser.closes == 0
      ensures report.results == [] && report.startTime == None && report.endTime == None
    {
      settings := cfg;
      reader := new X.ExcelReader();
      browser := new BrowserManager();
      report := new R.ReportGenerator();
    }

    /** `initialize`: load the workbook and read the selected cases;
        fails when loading fails or no case is selected. */
    method Initialize(file: Option<Sheets.Workbook>) returns (ok: bool)
      modifies reader
      ensures ok <==> file.Some? && MasterCases(file) != []
      ensures reader.workbook == if file.Some? then file else old(reader.workbook)
      ensures file.Some? && X.MasterRead(file).Some? ==> reader.masterSheetData == MasterCases(file)
      ensures !(file.Some? && X.MasterRead(file).Some?) ==> reader.masterSheetData == old(reader.masterSheetData)
      ensures reader.screenData == old(reader.screenData) && reader.sheetReads == old(reader.sheetReads)
    {
      var loaded := reader.LoadWorkbook(file);
      if !loaded {
        return false;
      }
      var cases := reader.ReadMasterSheet();
      ok := cases != [];
    }

    /** `execute_test_case`: one case in session `s`. */
    method ExecuteTestCase(rec: X.Record, s: Session) returns (passed: bool, message: string)
      modifies reader, browser, report
      ensures var looked := s.started && s.fault.None?;
              var w := FlowWalk(X.Reader(old(reader.workbook)), X.FlowState([], old(reader.screenData), old(reader.sheetReads)),
                                Get(rec, "ScreenFlow", ""));
              var r := CaseRun(settings, rec, if looked then w.data else [], s);
              passed == r.passed && message == r.message
              && report.results == old(report.results) + (if r.entry.Some? then [r.entry.value] else [])
              && browser.closes == old(browser.closes) + (if r.closed then 1 else 0)
              && (looked ==> reader.screenData == w.cache && reader.sheetReads == w.sheetReads)
              && (!looked ==> reader.screenData == old(reader.screenData) && reader.sheetReads == old(reader.sheetReads))
      ensures !browser.running
      ensures reader.workbook == old(reader.workbook) && reader.masterSheetData == old(reader.masterSheetData)
      ensures report.startTime == old(report.startTime) && report.endTime == old(report.endTime)
    {
      var id := Get(rec, "TestCaseID", "Unknown");
      var flow := Get(rec, "ScreenFlow", "");
      var started := browser.StartBrowser(s.started);
      if !started {
        return false, "Browser start failed";
      }
      if s.fault.Some? {
        browser.CloseBrowser();
        return false, "Error executing test case: " + s.fault.value;
      }
      var flowData := reader.GetTestDataForFlow(flow);
      if flowData == [] {
        browser.CloseBrowser();
        return false, "No data for screen flow: " + PyStr(flow);
      }
      passed, message := CompleteCase(rec, s, flowData);
    }

    /** The rest of `execute_test_case` once the flow has data: run it,
        take the screenshots, close the browser and add the entry. */
    method CompleteCase(rec: X.Record, s: Session, data: seq<X.ScreenData>) returns (passed: bool, message: string)
      requires s.started && s.fault.None? && data != []
      modifies browser, report
      ensures var r := CaseRun(settings, rec, data, s);
              passed == r.passed && message == r.message && r.entry.Some?
              && report.results == old(report.results) + [r.entry.value]
      ensures !browser.running && browser.closes == old(browser.closes) + 1
      ensures report.startTime == old(report.startTime) && report.endTime == old(report.endTime)
    {
      var id := Get(rec, "TestCaseID", "Unknown");
      var f := RunFlow(s, data);
      var status := if f.failure.None? then "PASS" else "FAIL";
      message := if f.failure.None? then "" else f.failure.value.message;
      var shots := ShotNames(settings, PyStr(id), f, data);
      var path: Option<string> := Some("");
      if shots != [] {
        path := s.shot(shots[|shots| - 1]);
      }
      browser.CloseBrowser();
      report.AddTestResult(id, Get(rec, "ScreenFlow", ""), status, message, path);
      passed := status == "PASS";
    }

    /** `execute_all_tests`: initialise, then run every selected case in
        master order, the i-th in session i, between the two clock
        readings, and generate the report. The result says only whether
        initialisation succeeded, whatever the cases did. */
    method ExecuteAllTests(file: Option<Sheets.Workbook>, sessions: nat -> Session, start: int, end: int)
      returns (ok: bool)
      modifies reader, browser, report
      ensures ok <==> file.Some? && MasterCases(file) != []
      ensures !ok ==> report.results == old(report.results)
      ensures ok ==> var b := RunCases(EntryOf(settings), X.Reader(file), old(reader.screenData), old(reader.sheetReads),
                                       MasterCases(file), sessions, |MasterCases(file)|);
                     report.results == old(report.results) + b.entries
                     && reader.screenData == b.cache && reader.sheetReads == b.sheetReads
      ensures ok ==> report.startTime == Some(start) && report.endTime == Some(end)
    {
      ok := Initialize(file);
      if !ok {
        return false;
      }
      var cases := reader.GetAllTestCases();
      report.StartExecution(start);
      ExecuteCases(file, cases, sessions);
      report.EndExecution(end);
      var _ := report.GenerateReport();
    }

    /** The loop of `execute_all_tests` over the selected cases. */
    method ExecuteCases(file: Option<Sheets.Workbook>, cases: seq<X.Record>, sessions: nat -> Session)
      requires reader.workbook == file
      modifies reader, browser, report
      ensures reader.workbook == file && report.startTime == old(report.startTime)
      ensures var b := RunCases(EntryOf(settings), X.Reader(file), old(reader.screenData), old(reader.sheetReads), cases, sessions, |cases|);
              report.results == old(report.results) + b.entries
              && reader.screenData == b.cache && reader.sheetReads == b.sheetReads
    {
      ghost var cache := reader.screenData;
      ghost var parsed := reader.sheetReads;
      ghost var before := report.results;
      var i := 0;
      while i < |cases|
        invariant 0 <= i <= |cases|
        invariant reader.workbook == file && report.startTime == old(report.startTime)
        invariant Reached(file, cases, sessions, cache, parsed, before, i)
      {
        ExecuteNext(file, cases, sessions, cache, parsed, before, i);
        i := i + 1;
      }
    }

    /** The reader and the report are as running the first i cases leaves
        them. */
    ghost predicate Reached(file: Option<Sheets.Workbook>, cases: seq<X.Record>, sessions: nat -> Session,
                            cache: map<string, X.ScreenData>, parsed: seq<string>, before: seq<R.ReportEntry>, i: nat)
      requires i <= |cases|
      reads reader, report
    {
      var b := RunCases(EntryOf(settings), X.Reader(file), cache, parsed, cases, sessions, i);
      report.results == before + b.entries && reader.screenData == b.cache && reader.sheetReads == b.sheetReads
    }

    /** One iteration of that loop: case i, in session i, on the reader as
        the cases before it left it. */
    method ExecuteNext(file: Option<Sheets.Workbook>, cases: seq<X.Record>, sessions: nat -> Session,
                       ghost cache: map<string, X.ScreenData>, ghost parsed: seq<string>, ghost before: seq<R.ReportEntry>, i: nat)
      requires i < |cases| && reader.workbook == file
      requires Reached(file, cases, sessions, cache, parsed, before, i)
      modifies reader, browser, report
      ensures reader.workbook == file && report.startTime == old(report.startTime)
      ensures Reached(file, cases, sessions, cache, parsed, before, i + 1)
    {
      var _, _ := ExecuteTestCase(cases[i], sessions(i));
    }
  }
}
