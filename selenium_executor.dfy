/** The Selenium variant's test executor: run every selected test case
    screen by screen and step by step, stop a case at its first failing
    step, count the outcome and add one report entry per case. */
module SeleniumExecutor {
  import opened Text
  import opened Steps
  import opened StepRuns
  import Sheets
  import D = SeleniumDriver
  import K = SeleniumKeywords
  import X = SeleniumExcel
  import R = SeleniumReport

  /** The configuration the executor reads: the browser name and whether
      a screenshot is taken after a passing and after a failing case. */
  datatype Settings = Settings(browser: string, shotOnSuccess: bool, shotOnFailure: bool)

  /** The browser session of one test case: how launching each browser
      ends, the page as the k-th executed keyword finds it, and the
      keyword engine bound to that session, which gives the outcome of the
      k-th keyword. */
  datatype Session = Session(launch: D.BrowserKind -> D.Launch, pageAt: nat -> K.Page, exec: Engine<string>)

  /** `dict.get(key, default)`. */
  function Get(rec: X.Record, key: string, default: string): (v: string)
    ensures key in rec ==> v == rec[key]
    ensures key !in rec ==> v == default
  {
    if key in rec then rec[key] else default
  }

  /** The session `execute_test_case` works in: `KeywordEngine(driver_manager)`
      over the pages `pageAt`, each keyword run by
      `execute_keyword(keyword, locator, value)`. */
  function KeywordSession(launch: D.BrowserKind -> D.Launch, pageAt: nat -> K.Page): (s: Session)
    ensures s.launch == launch && s.pageAt == pageAt
  {
    Session(launch, pageAt, (k: nat, st: Step<string>) => K.ExecuteKeyword(pageAt(k), st.keyword, st.locator, st.value))
  }

  /** The failure reason of the n-th step of a screen (counted from 1). */
  function StepFailure(n: nat, message: string): (m: string)
    ensures m != ""
  {
    "Step " + NatToString(n) + " failed: " + message
  }

  /** The steps of each screen of a flow, as `parse_test_steps` reads them. */
  function Screens(data: seq<X.FlowScreen>): (screens: seq<seq<Step<string>>>)
    ensures |screens| == |data|
  {
    seq(|data|, j requires 0 <= j < |data| => X.ParseSteps(data[j].data))
  }

  /** The message of the `AttributeError` raised when no reader exists. */
  const NoReaderError := "'NoneType' object has no attribute 'get_test_data_for_flow'"

  function NoFlowError(flow: string): string {
    "No test data found for screen flow: " + flow
  }

  /** What `execute_test_case` determines: the verdict, the failure reason
      ("" for a pass), the screenshot path and how many keywords ran. */
  datatype CaseResult = CaseResult(passed: bool, failure: string, screenshot: Option<string>, ran: nat)

  /** The screenshot after an exception: `take_screenshot` is called
      whenever the settings ask for it; without a driver its
      `self.driver.save_screenshot` raises an `AttributeError`, which it
      catches, so only a set driver, started or left behind by a failed
      start, can save one. */
  function ErrorShot(cfg: Settings, s: Session, id: string): (r: Option<string>)
    ensures r.Some? ==> cfg.shotOnFailure && D.DriverSet(cfg.browser, s.launch)
    ensures cfg.shotOnFailure && D.DriverSet(cfg.browser, s.launch) ==>
              r == D.TakeScreenshot(s.pageAt(0).driver, id + "_ERROR")
  {
    if cfg.shotOnFailure && D.DriverSet(cfg.browser, s.launch)
    then D.TakeScreenshot(s.pageAt(0).driver, id + "_ERROR") else None
  }

  /** One test case. `data` is the reader's flow data, `None` when there
      is no reader. */
  function CaseRun(cfg: Settings, data: Option<seq<X.FlowScreen>>, flow: string, id: string, s: Session): (r: CaseResult)
    ensures r.passed <==> r.failure == ""
  {
    var started := D.StartBrowser(cfg.browser, s.launch);
    if !started then CaseResult(false, "Failed to start browser", ErrorShot(cfg, s, id), 0)
    else if data.None? then CaseResult(false, NoReaderError, ErrorShot(cfg, s, id), 0)
    else if data.value == [] then CaseResult(false, NoFlowError(flow), ErrorShot(cfg, s, id), 0)
    else
      var f := RunFrom(s.exec, Screens(data.value), 0, 0, 0);
      var passed := f.failure.None?;
      var shot := if (passed && cfg.shotOnSuccess) || (!passed && cfg.shotOnFailure)
                  then D.TakeScreenshot(s.pageAt(f.ran).driver, id + (if passed then "_PASS" else "_FAIL"))
                  else None;
      CaseResult(passed, if passed then "" else StepFailure(f.failure.value.step + 1, f.failure.value.message), shot, f.ran)
  }

  /** The workbook a reader holds, `None` when there is no reader. */
  function WorkbookOf(reader: X.ExcelReader?): Option<Option<Sheets.Workbook>>
    reads reader
  {
    if reader == null then None else Some(reader.workbook)
  }

  /** The flow data the reader hands out for a test case. */
  function FlowFor(wb: Option<Option<Sheets.Workbook>>, rec: X.Record): Option<seq<X.FlowScreen>> {
    if wb.None? then None else Some(X.FlowData(wb.value, Get(rec, "ScreenFlow", "")))
  }

  /** The result of the test case read from `rec`, given its flow data. */
  function CaseWith(cfg: Settings, flow: Option<seq<X.FlowScreen>>, rec: X.Record, s: Session): CaseResult {
    CaseRun(cfg, flow, Get(rec, "ScreenFlow", ""), Get(rec, "TestCaseID", "Unknown"), s)
  }

  /** The result of the test case read from `rec` with the reader's
      workbook `wb` (`None`: no reader). */
  function CaseOf(cfg: Settings, wb: Option<Option<Sheets.Workbook>>, rec: X.Record, s: Session): CaseResult {
    CaseWith(cfg, FlowFor(wb, rec), rec, s)
  }

  /** `flow` is the flow data the reader hands out for `rec`. Stated for
      every row equal to `rec`, so that the workbook is consulted only
      where the flow data is actually read. */
  ghost predicate FlowLink(wb: Option<Option<Sheets.Workbook>>, rec: X.Record, flow: Option<seq<X.FlowScreen>>) {
    forall r :: r == rec ==> flow == FlowFor(wb, r)
  }

  /** `flows` holds the flow data of each of the cases. */
  ghost predicate FlowsOf(wb: Option<Option<Sheets.Workbook>>, cases: seq<X.Record>, flows: seq<Option<seq<X.FlowScreen>>>) {
    |flows| == |cases| && forall i :: 0 <= i < |cases| ==> FlowLink(wb, cases[i], flows[i])
  }

  /** The flow data of each case of a loaded workbook. */
  function Flows(wb: Option<Sheets.Workbook>, cases: seq<X.Record>): (flows: seq<Option<seq<X.FlowScreen>>>)
    ensures |flows| == |cases|
  {
    seq(|cases|, i requires 0 <= i < |cases| => FlowFor(Some(wb), cases[i]))
  }

  /** The report entry `execute_test_case` adds. */
  function Entry(rec: X.Record, r: CaseResult): (e: R.ReportEntry)
    ensures e.status == "PASS" <==> r.passed
    ensures e.testCaseId == Get(rec, "TestCaseID", "Unknown") && e.duration == 0
  {
    R.ReportEntry(Get(rec, "TestCaseID", "Unknown"), Get(rec, "Description", "No description"),
                  if r.passed then "PASS" else "FAIL", 0, r.screenshot, r.failure)
  }

  /** The entries of the first n test cases, the i-th run in session i
      on the flow data `flows[i]`. */
  function Entries(cfg: Settings, flows: seq<Option<seq<X.FlowScreen>>>, cases: seq<X.Record>, sessions: nat -> Session, n: nat): (es: seq<R.ReportEntry>)
    requires n <= |cases| && n <= |flows|
    ensures |es| == n
  {
    if n == 0 then []
    else Entries(cfg, flows, cases, sessions, n - 1) + [Entry(cases[n - 1], CaseWith(cfg, flows[n - 1], cases[n - 1], sessions(n - 1)))]
  }

  /** `tc.get("TestCaseID") == test_case_id`: a row without the column
      never matches. */
  predicate HasId(rec: X.Record, id: string) {
    "TestCaseID" in rec && rec["TestCaseID"] == id
  }

  /** The index of the first case from j on with the given id. */
  function FirstWithId(cases: seq<X.Record>, id: string, j: nat): (r: Option<nat>)
    requires j <= |cases|
    ensures r.Some? ==> j <= r.value < |cases| && HasId(cases[r.value], id)
                        && forall m :: j <= m < r.value ==> !HasId(cases[m], id)
    ensures r.None? ==> forall m :: j <= m < |cases| ==> !HasId(cases[m], id)
    decreases |cases| - j
  {
    if j == |cases| then None
    else if HasId(cases[j], id) then Some(j)
    else FirstWithId(cases, id, j + 1)
  }

  // ---------------------------------------------------------------------
  // Properties of a test case

  /** A test case passes exactly when the browser starts, the flow has
      screens and every step of the flow succeeds in the keyword engine. */
  lemma CasePassIff(cfg: Settings, data: Option<seq<X.FlowScreen>>, flow: string, id: string, s: Session)
    ensures CaseRun(cfg, data, flow, id, s).passed <==>
            D.StartBrowser(cfg.browser, s.launch) && data.Some? && data.value != []
            && forall n :: 0 <= n < |Flatten(Screens(data.value))| ==>
                 StepOk(s.exec, Flatten(Screens(data.value))[n], n)
  {
    if data.Some? {
      WholeFlowPassIff(s.exec, Screens(data.value));
    }
  }

  /** In a keyword session, a test case passes exactly when the browser
      starts, the flow has screens and the keyword engine reports success
      for the n-th step of the flow on the n-th page of the session. */
  lemma KeywordCasePassIff(cfg: Settings, data: Option<seq<X.FlowScreen>>, flow: string, id: string,
                           launch: D.BrowserKind -> D.Launch, pageAt: nat -> K.Page)
    ensures CaseRun(cfg, data, flow, id, KeywordSession(launch, pageAt)).passed <==>
            D.StartBrowser(cfg.browser, launch) && data.Some? && data.value != []
            && var steps := Flatten(Screens(data.value));
               forall n :: 0 <= n < |steps| ==>
                 K.ExecuteKeyword(pageAt(n), steps[n].keyword, steps[n].locator, steps[n].value).success
  {
    var s := KeywordSession(launch, pageAt);
    CasePassIff(cfg, data, flow, id, s);
    if data.Some? {
      var steps := Flatten(Screens(data.value));
      assert forall n :: 0 <= n < |steps| ==>
        (StepOk(s.exec, steps[n], n) <==> K.ExecuteKeyword(pageAt(n), steps[n].keyword, steps[n].locator, steps[n].value).success);
    }
  }

  /** A screenshot is saved only after the cases the settings ask for and
      only through a driver that is set; a start that fails after creating
      the driver still takes the `<id>_ERROR` screenshot through it. */
  lemma ScreenshotPolicy(cfg: Settings, data: Option<seq<X.FlowScreen>>, flow: string, id: string, s: Session)
    ensures var r := CaseRun(cfg, data, flow, id, s);
            (r.screenshot.Some? ==> if r.passed then cfg.shotOnSuccess else cfg.shotOnFailure)
            && (!D.DriverSet(cfg.browser, s.launch) ==> r.screenshot == None)
            && (!D.StartBrowser(cfg.browser, s.launch) && D.DriverSet(cfg.browser, s.launch) && cfg.shotOnFailure ==>
                  r.screenshot == D.TakeScreenshot(s.pageAt(0).driver, id + "_ERROR"))
  {}

  /** The flow link is exactly equality with the reader's flow data. */
  lemma FlowLinkIff(wb: Option<Option<Sheets.Workbook>>, rec: X.Record, flow: Option<seq<X.FlowScreen>>)
    ensures FlowLink(wb, rec, flow) <==> flow == FlowFor(wb, rec)
  {
    if FlowLink(wb, rec, flow) {
      assert rec == rec ==> flow == FlowFor(wb, rec);
    }
  }

  /** `Flows` gives each case its flow data. */
  lemma FlowsLinked(wb: Option<Sheets.Workbook>, cases: seq<X.Record>)
    ensures FlowsOf(Some(wb), cases, Flows(wb, cases))
  {
    forall i | 0 <= i < |cases|
      ensures FlowLink(Some(wb), cases[i], Flows(wb, cases)[i])
    {
      FlowLinkIff(Some(wb), cases[i], Flows(wb, cases)[i]);
    }
  }

  /** The i-th of the entries belongs to the i-th case, run in session i. */
  lemma {:induction false} EntriesAt(cfg: Settings, flows: seq<Option<seq<X.FlowScreen>>>, cases: seq<X.Record>, sessions: nat -> Session, n: nat, i: nat)
    requires i < n <= |cases| && n <= |flows|
    ensures Entries(cfg, flows, cases, sessions, n)[i] == Entry(cases[i], CaseWith(cfg, flows[i], cases[i], sessions(i)))
    decreases n
  {
    if i < n - 1 {
      EntriesAt(cfg, flows, cases, sessions, n - 1, i);
    }
  }

  /** With the workbook's flow data, the i-th entry is the report of case
      i of the workbook run in session i. */
  lemma EntriesOfWorkbook(cfg: Settings, wb: Option<Sheets.Workbook>, cases: seq<X.Record>, sessions: nat -> Session)
    ensures forall i :: 0 <= i < |cases| ==>
      Entries(cfg, Flows(wb, cases), cases, sessions, |cases|)[i] == Entry(cases[i], CaseOf(cfg, Some(wb), cases[i], sessions(i)))
  {
    forall i | 0 <= i < |cases|
      ensures Entries(cfg, Flows(wb, cases), cases, sessions, |cases|)[i] == Entry(cases[i], CaseOf(cfg, Some(wb), cases[i], sessions(i)))
    {
      EntriesAt(cfg, Flows(wb, cases), cases, sessions, |cases|, i);
    }
  }

  // ---------------------------------------------------------------------
  // The loops of `execute_test_case`

  /** The inner loop of `execute_test_case`: the steps of screen j, the
      first being the session's keyword number `from`, up to the first
      failing one. It reports that step's fault, or how many keywords
      have run once the screen is done. */
  method RunScreen(exec: Engine<string>, ghost screens: seq<seq<Step<string>>>, j: nat, steps: seq<Step<string>>, from: nat)
    returns (fault: Option<StepFault>, ran: nat)
    requires j < |screens| && steps == screens[j]
    ensures fault.Some? ==> RunFrom(exec, screens, j, 0, from) == FlowResult(fault, ran)
    ensures fault.None? ==> RunFrom(exec, screens, j, 0, from) == RunFrom(exec, screens, j + 1, 0, ran)
  {
    ran := from;
    var i := 0;
    while i < |steps|
      invariant 0 <= i <= |steps|
      invariant RunFrom(exec, screens, j, 0, from) == RunFrom(exec, screens, j, i, ran)
    {
      var o := exec(ran, steps[i]);
      if !o.success {
        return Some(StepFault(j, i, o.message)), ran + 1;
      }
      i := i + 1;
      ran := ran + 1;
    }
    fault := None;
  }

  /** The outer loop of `execute_test_case`: the screens of the flow,
      stopping at the first failing step. */
  method RunFlow(reader: X.ExcelReader, exec: Engine<string>, data: seq<X.FlowScreen>) returns (r: FlowResult)
    ensures r == RunFrom(exec, Screens(data), 0, 0, 0)
  {
    ghost var screens := Screens(data);
    var ran := 0;
    var j := 0;
    while j < |data|
      invariant 0 <= j <= |data|
      invariant RunFrom(exec, screens, 0, 0, 0) == RunFrom(exec, screens, j, 0, ran)
    {
      var steps := reader.ParseTestSteps(data[j].data);
      var fault;
      fault, ran := RunScreen(exec, screens, j, steps, ran);
      if fault.Some? {
        return FlowResult(fault, ran);
      }
      j := j + 1;
    }
    r := FlowResult(None, ran);
  }

  /** The body of `execute_test_case` up to the counters: start the
      browser, fetch the flow, run it and take the screenshot. */
  method RunCase(cfg: Settings, reader: X.ExcelReader?, rec: X.Record, s: Session, ghost flow: Option<seq<X.FlowScreen>>)
    returns (result: CaseResult)
    requires FlowLink(WorkbookOf(reader), rec, flow)
    ensures result == CaseWith(cfg, flow, rec, s)
  {
    FlowLinkIff(WorkbookOf(reader), rec, flow);
    var id := Get(rec, "TestCaseID", "Unknown");
    var screenFlow := Get(rec, "ScreenFlow", "");
    assert CaseWith(cfg, flow, rec, s) == CaseRun(cfg, flow, screenFlow, id, s);
    var started := D.StartBrowser(cfg.browser, s.launch);
    if !started {
      return CaseResult(false, "Failed to start browser", ErrorShot(cfg, s, id), 0);
    }
    if reader == null {
      return CaseResult(false, NoReaderError, ErrorShot(cfg, s, id), 0);
    }
    var flowData := reader.GetTestDataForFlow(screenFlow);
    if flowData == [] {
      return CaseResult(false, NoFlowError(screenFlow), ErrorShot(cfg, s, id), 0);
    }
    var f := RunFlow(reader, s.exec, flowData);
    var ok := f.failure.None?;
    var shot := None;
    if (ok && cfg.shotOnSuccess) || (!ok && cfg.shotOnFailure) {
      shot := D.TakeScreenshot(s.pageAt(f.ran).driver, id + (if ok then "_PASS" else "_FAIL"));
    }
    result := CaseResult(ok, if ok then "" else StepFailure(f.failure.value.step + 1, f.failure.value.message), shot, f.ran);
  }

  /** The index of the first case with the given id, as the search loop
      of `execute_single_test` finds it. */
  method FindCase(cases: seq<X.Record>, id: string) returns (r: Option<nat>)
    ensures r == FirstWithId(cases, id, 0)
  {
    var j := 0;
    while j < |cases|
      invariant 0 <= j <= |cases|
      invariant FirstWithId(cases, id, 0) == FirstWithId(cases, id, j)
    {
      if "TestCaseID" in cases[j] && cases[j]["TestCaseID"] == id {
        return Some(j);
      }
      j := j + 1;
    }
    r := None;
  }

  /** The executor: the reader, the selected test cases, the report and
      the pass and fail counters. */
  class TestExecutor {
    const settings: Settings
    var reader: X.ExcelReader?
    var testCases: seq<X.Record>
    const report: R.ReportGenerator
    var totalTests: nat
    var passedTests: nat
    var failedTests: nat
    /** How many browser sessions have been closed. */
    var closedBrowsers: nat

    /** The counters agree with the report: one entry per executed case,
        the passes counted by `passedTests`, the rest by `failedTests`. */
    ghost predicate Valid()
      reads this, report
    {
      passedTests == R.CountPass(report.results)
      && passedTests + failedTests == |report.results|
      && closedBrowsers == |report.results|
    }

    constructor (cfg: Settings)
      ensures Valid() && settings == cfg && fresh(report)
      ensures reader == null && testCases == [] && report.results == [] && report.startTime == None
      ensures totalTests == 0 && passedTests == 0 && failedTests == 0
    {
      settings := cfg;
      reader := null;
      testCases := [];
      report := new R.ReportGenerator();
      totalTests := 0;
      passedTests := 0;
      failedTests := 0;
      closedBrowsers := 0;
    }

    /** The first part of `initialize`: a new reader on the file, loaded
        and validated. */
    method OpenReader(file: Option<Sheets.Workbook>) returns (valid: bool)
      modifies this
      ensures valid <==> file.Some? && X.Validate(file).valid
      ensures reader != null && fresh(reader) && reader.workbook == file
      ensures testCases == old(testCases) && totalTests == old(totalTests)
      ensures passedTests == old(passedTests) && failedTests == old(failedTests)
      ensures closedBrowsers == old(closedBrowsers)
    {
      reader := new X.ExcelReader();
      var loaded := reader.LoadWorkbook(file);
      if !loaded {
        return false;
      }
      var errors;
      valid, errors := reader.ValidateExcelStructure();
    }

    /** `initialize`: load and validate the workbook, then read the
        selected cases; fails when there are none. */
    method Initialize(file: Option<Sheets.Workbook>) returns (ok: bool)
      modifies this
      ensures ok <==> file.Some? && X.Validate(file).valid && X.MasterCases(file) != []
      ensures reader != null && fresh(reader) && reader.workbook == file
      ensures testCases == if file.Some? && X.Validate(file).valid then X.MasterCases(file) else old(testCases)
      ensures totalTests == if ok then |testCases| else old(totalTests)
      ensures passedTests == old(passedTests) && failedTests == old(failedTests)
      ensures closedBrowsers == old(closedBrowsers)
    {
      var valid := OpenReader(file);
      if !valid {
        return false;
      }
      testCases := reader.ReadMasterSheet();
      if testCases == [] {
        return false;
      }
      totalTests := |testCases|;
      ok := true;
    }

    /** `execute_test_case`: one case, one counter incremented, one report
        entry appended, and the browser closed whatever happened. */
    method ExecuteTestCase(rec: X.Record, s: Session, ghost flow: Option<seq<X.FlowScreen>>) returns (passed: bool)
      requires Valid() && FlowLink(WorkbookOf(reader), rec, flow)
      modifies this, report
      ensures Valid()
      ensures var r := CaseWith(settings, flow, rec, s);
              passed == r.passed && report.results == old(report.results) + [Entry(rec, r)]
      ensures passedTests == old(passedTests) + (if passed then 1 else 0)
      ensures failedTests == old(failedTests) + (if passed then 0 else 1)
      ensures reader == old(reader) && testCases == old(testCases) && totalTests == old(totalTests)
      ensures report.startTime == old(report.startTime) && report.endTime == old(report.endTime)
    {
      var id := Get(rec, "TestCaseID", "Unknown");
      var description := Get(rec, "Description", "No description");
      var result := RunCase(settings, reader, rec, s, flow);
      closedBrowsers := closedBrowsers + 1;
      passed := result.passed;
      if passed {
        passedTests := passedTests + 1;
      } else {
        failedTests := failedTests + 1;
      }
      R.CountPassAppend(report.results, [Entry(rec, result)]);
      report.AddTestResult(id, description, if passed then "PASS" else "FAIL", 0, result.screenshot, result.failure);
    }

    /** The loop of `execute_all_tests`: every selected case in order, the
        i-th in session i on its flow data `flows[i]`. */
    method ExecuteCases(sessions: nat -> Session, ghost flows: seq<Option<seq<X.FlowScreen>>>)
      requires Valid() && reader != null && FlowsOf(WorkbookOf(reader), testCases, flows)
      modifies this, report
      ensures Valid()
      ensures reader == old(reader) && testCases == old(testCases) && totalTests == old(totalTests)
      ensures report.results == old(report.results) + Entries(settings, flows, testCases, sessions, |testCases|)
      ensures report.startTime == old(report.startTime) && report.endTime == old(report.endTime)
    {
      ghost var before := report.results;
      var i := 0;
      while i < |testCases|
        invariant 0 <= i <= |testCases|
        invariant Valid() && reader == old(reader) && testCases == old(testCases) && totalTests == old(totalTests)
        invariant report.startTime == old(report.startTime) && report.endTime == old(report.endTime)
        invariant report.results == before + Entries(settings, flows, testCases, sessions, i)
      {
        ExecuteNext(sessions, flows, before, i);
        i := i + 1;
      }
    }

    /** One iteration of that loop: case i in session i. */
    method ExecuteNext(sessions: nat -> Session, ghost flows: seq<Option<seq<X.FlowScreen>>>,
                       ghost before: seq<R.ReportEntry>, i: nat)
      requires Valid() && reader != null && FlowsOf(WorkbookOf(reader), testCases, flows) && i < |testCases|
      requires report.results == before + Entries(settings, flows, testCases, sessions, i)
      modifies this, report
      ensures Valid()
      ensures reader == old(reader) && testCases == old(testCases) && totalTests == old(totalTests)
      ensures report.results == before + Entries(settings, flows, testCases, sessions, i + 1)
      ensures report.startTime == old(report.startTime) && report.endTime == old(report.endTime)
    {
      var _ := ExecuteTestCase(testCases[i], sessions(i), flows[i]);
    }

    /** `execute_all_tests`: initialise, run every case (the i-th in
        session i) between the two clock readings, and report whether no
        case has failed. The new entries are those of `EntriesOfWorkbook`. */
    method ExecuteAllTests(file: Option<Sheets.Workbook>, sessions: nat -> Session, start: int, end: int)
      returns (allPassed: bool)
      requires Valid()
      modifies this, report
      ensures Valid()
      ensures var ok := file.Some? && X.Validate(file).valid && X.MasterCases(file) != [];
              var cases := X.MasterCases(file);
              (ok ==> report.results == old(report.results) + Entries(settings, Flows(file, cases), cases, sessions, |cases|))
              && (!ok ==> report.results == old(report.results) && !allPassed)
              && (allPassed <==> ok && forall i :: 0 <= i < |report.results| ==> report.results[i].status == "PASS")
    ensures var ok := file.Some? && X.Validate(file).valid && X.MasterCases(file) != [];
            testCases == (if file.Some? && X.Validate(file).valid then X.MasterCases(file) else old(testCases))
            && totalTests == (if ok then |testCases| else old(totalTests))
            && (ok ==> report.startTime == Some(start) && report.endTime == Some(end))
            && (!ok ==> report.startTime == old(report.startTime) && report.endTime == old(report.endTime))
    {
      var ok := Initialize(file);
      if !ok {
        return false;
      }
      report.StartExecution(start);
      ghost var before := report.results;
      FlowsLinked(file, testCases);
      ExecuteCases(sessions, Flows(file, testCases));
      report.EndExecution(end);
      allPassed := failedTests == 0;
      R.NoFailuresIffAllPass(report.results);
    }

    /** `execute_single_test`: initialise, then run the first selected case
        with the given id; false when there is none. */
    method ExecuteSingleTest(file: Option<Sheets.Workbook>, id: string, s: Session, start: int, end: int)
      returns (result: bool)
      requires Valid()
      modifies this, report
      ensures Valid()
      ensures var ok := file.Some? && X.Validate(file).valid && X.MasterCases(file) != [];
              var found := if ok then FirstWithId(X.MasterCases(file), id, 0) else None;
              (found.None? ==> !result && report.results == old(report.results))
              && (found.Some? ==>
                    var r := CaseOf(settings, Some(file), X.MasterCases(file)[found.value], s);
                    result == r.passed
                    && report.results == old(report.results) + [Entry(X.MasterCases(file)[found.value], r)])
    ensures var ok := file.Some? && X.Validate(file).valid && X.MasterCases(file) != [];
            var found := if ok then FirstWithId(X.MasterCases(file), id, 0) else None;
            testCases == (if file.Some? && X.Validate(file).valid then X.MasterCases(file) else old(testCases))
            && totalTests == (if ok then |testCases| else old(totalTests))
            && (found.Some? ==> report.startTime == Some(start) && report.endTime == Some(end))
            && (found.None? ==> report.startTime == old(report.startTime) && report.endTime == old(report.endTime))
    {
      var ok := Initialize(file);
      if !ok {
        return false;
      }
      var found := FindCase(testCases, id);
      if found.None? {
        return false;
      }
      report.StartExecution(start);
      ghost var flow := FlowFor(WorkbookOf(reader), testCases[found.value]);
      FlowLinkIff(WorkbookOf(reader), testCases[found.value], flow);
      result := ExecuteTestCase(testCases[found.value], s, flow);
      report.EndExecution(end);
    }
  }
}
