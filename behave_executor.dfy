/** The Behave variant's keyword executor (`KeywordExecutor`): for every
    scenario of the master sheet, start a browser, run the keyword rows
    of each screen of its flow through a fresh keyword engine, stop at the
    first keyword that raises, and keep one `TestResult` per scenario. */
module BehaveExecutor {
  import opened Text
  import Sheets
  import X = BehaveExcel
  import K = BehaveKeywords
  import R = BehaveReport

  /** The states of a `TestResult` and of a step entry. */
  datatype Status = NotStarted | Running | Passed | Failed | Error

  /** The status as `TestResult.status` spells it. */
  function StatusName(s: Status): string {
    match s
    case NotStarted => "Not Started"
    case Running => "Running"
    case Passed => "Passed"
    case Failed => "Failed"
    case Error => "Error"
  }

  /** An entry of `TestResult.steps`; the message is the keyword's
      description on success and the error text on failure. */
  datatype StepEntry = StepEntry(stepNo: nat, keyword: string, status: Status, message: Option<string>)

  /** A step about to run, as the executor reads it from its row. */
  datatype Input = Input(keyword: Option<string>, locatorType: Option<string>, locatorValue: Option<string>,
                         testData: Option<string>, description: Option<string>)

  /** A step of `read_keywords`, as `_run_test_case` reads it: the test
      data passed as text (`str(x or '')`). */
  function FromStep(k: X.KeywordStep): Input {
    Input(k.keyword, k.locatorType, k.locatorValue, Some(X.OrEmpty(k.testData)), Some(k.description))
  }

  function Inputs(steps: seq<X.KeywordStep>): (ins: seq<Input>)
    ensures |ins| == |steps|
  {
    seq(|steps|, i requires 0 <= i < |steps| => FromStep(steps[i]))
  }

  /** `step.get(key, '')`. */
  function GetOr(row: X.Row, key: string): Option<string> {
    if key in row then row[key] else Some("")
  }

  /** A step dictionary as `run_test_case` reads it. */
  function FromRow(row: X.Row): Input {
    Input(GetOr(row, "keyword"), GetOr(row, "locator_type"), GetOr(row, "locator_value"),
          GetOr(row, "test_data"), GetOr(row, "description"))
  }

  function RowInputs(rows: seq<X.Row>): (ins: seq<Input>)
    ensures |ins| == |rows|
  {
    seq(|rows|, i requires 0 <= i < |rows| => FromRow(rows[i]))
  }

  /** The engine's variables. */
  type Vars = map<string, Option<string>>

  /** One call `execute(keyword, locator_type, locator_value, test_data)`. */
  datatype Call = Call(keyword: string, locatorType: Option<string>, locatorValue: Option<string>, testData: Option<string>)

  /** How a call ends: the text of the exception it raises, if any, and
      the engine's variables afterwards. */
  datatype Outcome = Outcome(error: Option<string>, variables: Vars)

  /** A keyword engine over a session: the outcome of a call made with the
      given variables as the session's k-th call. */
  type Runner = (Vars, nat, Call) -> Outcome

  function OutcomeOf(x: K.Execution): (o: Outcome)
    ensures o.variables == x.variables
    ensures o.error.None? <==> x.result.Ok?
  {
    Outcome(if x.result.Err? then Some(K.Message(x.result.error)) else None, x.variables)
  }

  /** `KeywordEngine.execute` with the registry `keywords`, the k-th call running on
      the page as `pageAt(k)` shows it. */
  function KeywordRunner(keywords: K.Table, pageAt: nat -> K.Page, perform: K.Perform): Runner {
    (vars: Vars, k: nat, c: Call) =>
      OutcomeOf(K.Executed(keywords, vars, pageAt(k), perform, c.keyword, c.locatorType, c.locatorValue, c.testData))
  }

  /** Why a run stopped: a keyword raised (screen, step number from 1,
      message), or something else raised on the way. */
  datatype Stop = Raised(screen: string, stepNo: nat, message: string) | Aborted(message: string)

  /** A run so far: the step entries, the engine's variables, how many
      calls were made, and whether it stopped. */
  datatype Progress = Progress(steps: seq<StepEntry>, variables: Vars, ran: nat, stop: Option<Stop>)

  /** A fresh engine, nothing run. */
  const Start := Progress([], map[], 0, None)

  /** The `AttributeError` texts for a missing keyword and a missing flow. */
  const NoUpper := "'NoneType' object has no attribute 'upper'"
  const NoSplit := "'NoneType' object has no attribute 'split'"

  /** One row of a screen, as the body of the step loop: the keyword is
      upper-cased, an empty one skipped; the call's success gives a Passed
      entry, its exception a Failed entry and the stop. A stopped run
      stays as it is. */
  function Advance(run: Runner, p: Progress, screen: string, idx: nat, step: Input): (q: Progress)
    ensures p.stop.Some? ==> q == p
    ensures p.steps <= q.steps && |q.steps| <= |p.steps| + 1
  {
    if p.stop.Some? then p
    else if step.keyword.None? then p.(stop := Some(Aborted(NoUpper)))
    else
      var kw := Upper(step.keyword.value);
      if kw == "" then p
      else
        var o := run(p.variables, p.ran, Call(kw, step.locatorType, step.locatorValue, step.testData));
        if o.error.None? then Progress(p.steps + [StepEntry(idx, kw, Passed, step.description)], o.variables, p.ran + 1, None)
        else Progress(p.steps + [StepEntry(idx, kw, Failed, o.error)], o.variables, p.ran + 1,
                      Some(Raised(screen, idx, o.error.value)))
  }

  /** Every entry passed. */
  predicate AllPassed(entries: seq<StepEntry>) {
    forall i :: 0 <= i < |entries| ==> entries[i].status == Passed
  }

  /** What a run from `p` to `q` did: it appended one entry per call and
      changed nothing once stopped; a run that ends unstopped or aborted
      added only passed entries, and a run stopped by a keyword ends with
      that keyword's Failed entry after passed ones. */
  ghost predicate Continues(p: Progress, q: Progress) {
    p.steps <= q.steps && |q.steps| - |p.steps| == q.ran - p.ran
    && (p.stop.Some? ==> q == p)
    && (p.stop.None? && (q.stop.None? || q.stop.value.Aborted?) ==> AllPassed(q.steps[|p.steps|..]))
    && (p.stop.None? && q.stop.Some? && q.stop.value.Raised? ==>
          |q.steps| > |p.steps| && AllPassed(q.steps[|p.steps|..|q.steps| - 1])
          && q.steps[|q.steps| - 1].status == Failed
          && q.steps[|q.steps| - 1].stepNo == q.stop.value.stepNo
          && q.steps[|q.steps| - 1].message == Some(q.stop.value.message))
  }

  /** Runs are composed step after step. */
  lemma ContinuesTrans(p: Progress, q: Progress, r: Progress)
    requires Continues(p, q) && Continues(q, r)
    ensures Continues(p, r)
  {
    if p.stop.None? && q.stop.None? {
      assert r.steps[|p.steps|..] == q.steps[|p.steps|..] + r.steps[|q.steps|..];
      if r.stop.Some? && r.stop.value.Raised? {
        assert r.steps[|p.steps|..|r.steps| - 1] == q.steps[|p.steps|..] + r.steps[|q.steps|..|r.steps| - 1];
      }
    }
  }

  /** One step continues the run. */
  lemma AdvanceContinues(run: Runner, p: Progress, screen: string, idx: nat, step: Input)
    ensures Continues(p, Advance(run, p, screen, idx, step))
  {
    var q := Advance(run, p, screen, idx, step);
    if p.stop.None? && |q.steps| > |p.steps| {
      assert q.steps[|p.steps|..] == [q.steps[|p.steps|]];
    }
  }

  /** The step loop of one screen: its rows numbered from 1. */
  function RunSteps(run: Runner, p: Progress, screen: string, steps: seq<Input>): (q: Progress)
    ensures p.stop.Some? ==> q == p
    ensures p.steps <= q.steps && |q.steps| <= |p.steps| + |steps|
    decreases |steps|
  {
    if steps == [] then p
    else Advance(run, RunSteps(run, p, screen, steps[..|steps| - 1]), screen, |steps|, steps[|steps| - 1])
  }

  /** The step loop continues the run it starts from. */
  lemma {:induction false} StepsContinue(run: Runner, p: Progress, screen: string, steps: seq<Input>)
    ensures Continues(p, RunSteps(run, p, screen, steps))
    decreases |steps|
  {
    if steps != [] {
      var q := RunSteps(run, p, screen, steps[..|steps| - 1]);
      StepsContinue(run, p, screen, steps[..|steps| - 1]);
      AdvanceContinues(run, q, screen, |steps|, steps[|steps| - 1]);
      ContinuesTrans(p, q, RunSteps(run, p, screen, steps));
    }
  }

  /** The keyword steps of a screen, or the `ValueError` of a missing sheet. */
  type Source = string -> Result<seq<X.KeywordStep>, X.ReaderError>

  /** `reader.read_keywords(name)` on a loaded workbook. */
  function SheetSource(wb: Sheets.Workbook): Source {
    name => X.KeywordsIn(Ok(wb), name)
  }

  /** The screen loop: each readable screen's steps in turn, a screen
      whose sheet is missing skipped. */
  function RunScreens(run: Runner, read: Source, p: Progress, names: seq<string>): (q: Progress)
    ensures p.stop.Some? ==> q == p
    ensures p.steps <= q.steps
    decreases |names|
  {
    if names == [] then p
    else
      var q := RunScreens(run, read, p, names[..|names| - 1]);
      var name := names[|names| - 1];
      match read(name)
      case Err(_) => q
      case Ok(steps) => RunSteps(run, q, name, Inputs(steps))
  }

  /** The screen loop continues the run it starts from. */
  lemma {:induction false} ScreensContinue(run: Runner, read: Source, p: Progress, names: seq<string>)
    ensures Continues(p, RunScreens(run, read, p, names))
    decreases |names|
  {
    if names != [] {
      var q := RunScreens(run, read, p, names[..|names| - 1]);
      ScreensContinue(run, read, p, names[..|names| - 1]);
      var name := names[|names| - 1];
      if read(name).Ok? {
        StepsContinue(run, q, name, Inputs(read(name).value));
        ContinuesTrans(p, q, RunScreens(run, read, p, names));
      }
    }
  }

  /** The state a test case ends in, apart from its id, description and
      times. */
  datatype CaseState = CaseState(status: Status, steps: seq<StepEntry>, errorMessage: Option<string>,
                                 screenshotPath: Option<string>)

  /** `Config.SCREENSHOT_ON_FAILURE` and `Config.SCREENSHOT_ON_SUCCESS`. */
  datatype Settings = Settings(shotOnFailure: bool, shotOnSuccess: bool)

  /** The defaults of config.py: a screenshot on failure only. */
  const DefaultSettings := Settings(true, false)

  /** The browser side of one test case: whether `_setup_driver` raises
      (and its message), the engine it gives, what `take_screenshot`
      returns or raises, and the clock at the start and at the end. */
  datatype Session = Session(setup: Option<string>, pageAt: nat -> K.Page, perform: K.Perform,
                             shot: Result<string, string>, started: int, ended: int)

  /** The guarded failure screenshot: its path, or nothing when it is not
      configured or raises. */
  function FailureShot(cfg: Settings, shot: Result<string, string>): Option<string> {
    if cfg.shotOnFailure && shot.Ok? then Some(shot.value) else None
  }

  /** `f"Screen: {screen_name}, Step: {idx} - {error_msg}"`. */
  function ScreenFailure(screen: string, stepNo: nat, message: string): string {
    "Screen: " + screen + ", Step: " + NatToString(stepNo) + " - " + message
  }

  /** How a run of `_run_test_case` ends, given the run over its flow. */
  function ExcelFinish(cfg: Settings, shot: Result<string, string>, p: Progress): CaseState {
    match p.stop
    case Some(Raised(screen, n, m)) => CaseState(Failed, p.steps, Some(ScreenFailure(screen, n, m)), FailureShot(cfg, shot))
    case Some(Aborted(m)) => CaseState(Error, p.steps, Some(m), None)
    case None =>
      if !cfg.shotOnSuccess then CaseState(Passed, p.steps, None, None)
      else if shot.Ok? then CaseState(Passed, p.steps, None, Some(shot.value))
      else CaseState(Error, p.steps, Some(shot.error), None)
  }

  /** `_run_test_case` with the screen flow cell `flow`. */
  function ExcelCase(cfg: Settings, read: Source, s: Session, flow: Option<string>): (c: CaseState)
    ensures s.setup.Some? ==> c.status == Error && c.steps == [] && c.errorMessage == s.setup
    ensures s.setup.None? && flow.None? ==> c.status == Error && c.errorMessage == Some(NoSplit)
    ensures c.status == Passed ==> s.setup.None? && flow.Some? && c.errorMessage.None?
  {
    if s.setup.Some? then CaseState(Error, [], s.setup, None)
    else if flow.None? then CaseState(Error, [], Some(NoSplit), None)
    else ExcelFinish(cfg, s.shot, RunScreens(KeywordRunner(K.Registry, s.pageAt, s.perform), read, Start, CommaNames(flow.value)))
  }

  /** How a run of `run_test_case` ends: the failing step's own message,
      no success screenshot. */
  function DirectFinish(cfg: Settings, shot: Result<string, string>, p: Progress): CaseState {
    match p.stop
    case Some(Raised(_, _, m)) => CaseState(Failed, p.steps, Some(m), FailureShot(cfg, shot))
    case Some(Aborted(m)) => CaseState(Error, p.steps, Some(m), None)
    case None => CaseState(Passed, p.steps, None, None)
  }

  /** `run_test_case(test_case_id, keywords)`. */
  function DirectCase(cfg: Settings, s: Session, rows: seq<X.Row>): (c: CaseState)
    ensures s.setup.Some? ==> c.status == Error && c.steps == [] && c.errorMessage == s.setup
    ensures c.status == Passed ==> s.setup.None? && c.errorMessage.None? && c.screenshotPath.None?
  {
    if s.setup.Some? then CaseState(Error, [], s.setup, None)
    else DirectFinish(cfg, s.shot, RunSteps(KeywordRunner(K.Registry, s.pageAt, s.perform), Start, "", RowInputs(rows)))
  }

  /** A test case from the workbook ends Passed, Failed or Error: Failed
      exactly when a keyword raised, with the "Screen: S, Step: N - msg"
      text, the failing step being the last entry; Passed exactly when the
      browser started, the flow was present, nothing raised and a
      configured success screenshot worked; Error otherwise, always with a
      message. Entries before the last are all Passed. */
  lemma ExcelCaseOutcome(cfg: Settings, read: Source, s: Session, flow: Option<string>)
    ensures var c := ExcelCase(cfg, read, s, flow);
            c.status == Passed || c.status == Failed || c.status == Error
    ensures var c := ExcelCase(cfg, read, s, flow);
            (c.status == Passed <==> c.errorMessage.None?)
    ensures var c := ExcelCase(cfg, read, s, flow);
            s.setup.None? && flow.Some? ==>
              var p := RunScreens(KeywordRunner(K.Registry, s.pageAt, s.perform), read, Start, CommaNames(flow.value));
              c.steps == p.steps
              && (c.status == Failed <==> p.stop.Some? && p.stop.value.Raised?)
              && (c.status == Passed <==> p.stop.None? && (!cfg.shotOnSuccess || s.shot.Ok?))
              && (c.status == Failed ==>
                    c.errorMessage == Some(ScreenFailure(p.stop.value.screen, p.stop.value.stepNo, p.stop.value.message))
                    && |c.steps| > 0 && c.steps[|c.steps| - 1].status == Failed
                    && AllPassed(c.steps[..|c.steps| - 1]))
              && (c.status != Failed ==> AllPassed(c.steps))
    ensures s.setup.Some? ==> ExcelCase(cfg, read, s, flow) == CaseState(Error, [], s.setup, None)
  {
    if s.setup.None? && flow.Some? {
      var p := RunScreens(KeywordRunner(K.Registry, s.pageAt, s.perform), read, Start, CommaNames(flow.value));
      ScreensContinue(KeywordRunner(K.Registry, s.pageAt, s.perform), read, Start, CommaNames(flow.value));
      assert p.steps[0..] == p.steps;
      if p.stop.Some? && p.stop.value.Raised? {
        assert p.steps[0..|p.steps| - 1] == p.steps[..|p.steps| - 1];
      }
    }
  }

  /** A test case run from a list of steps ends Passed, Failed or Error:
      Failed exactly when a keyword raised, with that keyword's own
      message; Passed exactly when the browser started and nothing
      raised. */
  lemma DirectCaseOutcome(cfg: Settings, s: Session, rows: seq<X.Row>)
    ensures var c := DirectCase(cfg, s, rows);
            (c.status == Passed || c.status == Failed || c.status == Error)
            && (c.status == Passed <==> c.errorMessage.None?)
    ensures var c := DirectCase(cfg, s, rows);
            s.setup.None? ==>
              var p := RunSteps(KeywordRunner(K.Registry, s.pageAt, s.perform), Start, "", RowInputs(rows));
              c.steps == p.steps
              && (c.status == Failed <==> p.stop.Some? && p.stop.value.Raised?)
              && (c.status == Passed <==> p.stop.None?)
              && (c.status == Failed ==> c.errorMessage == Some(p.stop.value.message))
              && (c.status != Failed ==> AllPassed(c.steps))
  {
    if s.setup.None? {
      var p := RunSteps(KeywordRunner(K.Registry, s.pageAt, s.perform), Start, "", RowInputs(rows));
      StepsContinue(KeywordRunner(K.Registry, s.pageAt, s.perform), Start, "", RowInputs(rows));
      assert p.steps[0..] == p.steps;
    }
  }

  /** Once a keyword has raised, no later step of the screen and no later
      screen runs: the run stays as it was. */
  lemma StoppedStays(run: Runner, read: Source, p: Progress, screen: string, steps: seq<Input>, names: seq<string>)
    requires p.stop.Some?
    ensures RunSteps(run, p, screen, steps) == p
    ensures RunScreens(run, read, p, names) == p
  {
    StepsContinue(run, p, screen, steps);
    ScreensContinue(run, read, p, names);
  }

  /** A row whose keyword is empty is skipped: no call, no entry, no step
      number used up beyond its own position. */
  lemma EmptyKeywordSkipped(run: Runner, p: Progress, screen: string, idx: nat, step: Input)
    requires step.keyword == Some("")
    ensures Advance(run, p, screen, idx, step) == p
  {}

  /** A keyword that returns, whatever it returns (a verification that
      answers False included), is recorded as Passed; only a raise fails
      the step. */
  lemma ReturnedValuePasses(pageAt: nat -> K.Page, perform: K.Perform, p: Progress, screen: string, idx: nat,
                            step: Input, kw: string, returned: K.Returned)
    requires p.stop.None? && step.keyword.Some? && kw == Upper(step.keyword.value) && kw != ""
    requires K.Executed(K.Registry, p.variables, pageAt(p.ran), perform, kw, step.locatorType, step.locatorValue,
                        step.testData).result == Ok(returned)
    ensures var q := Advance(KeywordRunner(K.Registry, pageAt, perform), p, screen, idx, step);
            q.stop.None? && q.steps == p.steps + [StepEntry(idx, kw, Passed, step.description)]
  {
    var c := Call(kw, step.locatorType, step.locatorValue, step.testData);
    assert KeywordRunner(K.Registry, pageAt, perform)(p.variables, p.ran, c).error.None?;
  }

  /** An unregistered keyword fails its step with "Unknown keyword: K"
      and stops the run, the variables untouched. */
  lemma UnknownKeywordFails(pageAt: nat -> K.Page, perform: K.Perform, p: Progress, screen: string, idx: nat,
                            step: Input, kw: string)
    requires p.stop.None? && step.keyword.Some? && kw == Upper(step.keyword.value) && kw != ""
    requires Strip(kw) !in K.Names(K.Registry)
    ensures var q := Advance(KeywordRunner(K.Registry, pageAt, perform), p, screen, idx, step);
            q.stop == Some(Raised(screen, idx, "Unknown keyword: " + Strip(kw)))
            && q.steps == p.steps + [StepEntry(idx, kw, Failed, Some("Unknown keyword: " + Strip(kw)))]
            && q.variables == p.variables
  {
    UpperIdempotent(step.keyword.value);
    var x := K.Executed(K.Registry, p.variables, pageAt(p.ran), perform, kw, step.locatorType, step.locatorValue, step.testData);
    K.UnknownTouchesNothing(K.Registry, p.variables, pageAt(p.ran), pageAt(p.ran), perform, perform, kw, step.locatorType, step.locatorValue, step.testData);
    assert K.Message(x.result.error) == "Unknown keyword: " + Strip(kw);
  }

  /** The entries from position `from` on are numbered by row position
      among `steps`, from 1 and strictly increasing, each naming its
      row's upper-cased keyword. */
  ghost predicate Numbered(steps: seq<Input>, entries: seq<StepEntry>, from: nat) {
    (forall i :: from <= i < |entries| ==>
       1 <= entries[i].stepNo <= |steps|
       && steps[entries[i].stepNo - 1].keyword.Some?
       && entries[i].keyword == Upper(steps[entries[i].stepNo - 1].keyword.value))
    && (forall i, j :: from <= i < j < |entries| ==> entries[i].stepNo < entries[j].stepNo)
  }

  /** A numbering among some rows stays one when more rows follow. */
  lemma NumberedGrows(init: seq<Input>, steps: seq<Input>, entries: seq<StepEntry>, from: nat)
    requires init <= steps && Numbered(init, entries, from)
    ensures Numbered(steps, entries, from)
  {
    forall i | from <= i < |entries|
      ensures steps[entries[i].stepNo - 1] == init[entries[i].stepNo - 1]
    {
    }
  }

  /** The last row of a screen keeps its numbering. */
  lemma AdvanceNumbered(run: Runner, q: Progress, screen: string, steps: seq<Input>, from: nat)
    requires steps != [] && Numbered(steps[..|steps| - 1], q.steps, from)
    ensures Numbered(steps, Advance(run, q, screen, |steps|, steps[|steps| - 1]).steps, from)
  {
    var n := |steps|;
    NumberedGrows(steps[..n - 1], steps, q.steps, from);
    var r := Advance(run, q, screen, n, steps[n - 1]);
    if r.steps != q.steps {
      var e := r.steps[|q.steps|];
      assert r.steps == q.steps + [e];
      assert e.stepNo == n && e.keyword == Upper(steps[n - 1].keyword.value);
    }
  }

  /** The entries a screen adds are numbered by row position; the
      numbering restarts at 1 with every screen. */
  lemma {:induction false} StepNumbers(run: Runner, p: Progress, screen: string, steps: seq<Input>)
    ensures Numbered(steps, RunSteps(run, p, screen, steps).steps, |p.steps|)
    decreases |steps|
  {
    if steps != [] {
      var n := |steps|;
      StepNumbers(run, p, screen, steps[..n - 1]);
      AdvanceNumbered(run, RunSteps(run, p, screen, steps[..n - 1]), screen, steps, |p.steps|);
    }
  }

  /** A screen whose sheet is missing changes nothing; a readable one runs
      its steps after those of the screens before it. */
  lemma ScreensSnoc(run: Runner, read: Source, p: Progress, names: seq<string>, name: string)
    ensures read(name).Err? ==> RunScreens(run, read, p, names + [name]) == RunScreens(run, read, p, names)
    ensures read(name).Ok? ==>
              RunScreens(run, read, p, names + [name]) == RunSteps(run, RunScreens(run, read, p, names), name, Inputs(read(name).value))
  {
    assert (names + [name])[..|names|] == names;
  }

  /** The step loop of one screen, one row more. */
  lemma StepsSnoc(run: Runner, p: Progress, screen: string, steps: seq<Input>, i: nat)
    requires i < |steps|
    ensures RunSteps(run, p, screen, steps[..i + 1])
            == Advance(run, RunSteps(run, p, screen, steps[..i]), screen, i + 1, steps[i])
  {
    assert steps[..i + 1][..i] == steps[..i];
  }

  /** A step loop that has stopped at row i runs no further row. */
  lemma {:induction false} StepsStopped(run: Runner, p: Progress, screen: string, steps: seq<Input>, i: nat)
    requires i <= |steps| && (i < |steps| ==> RunSteps(run, p, screen, steps[..i]).stop.Some?)
    ensures RunSteps(run, p, screen, steps) == RunSteps(run, p, screen, steps[..i])
    decreases |steps| - i
  {
    if i < |steps| {
      StepsSnoc(run, p, screen, steps, i);
      StepsStopped(run, p, screen, steps, i + 1);
    } else {
      assert steps[..i] == steps;
    }
  }

  /** A screen loop that has stopped at screen i reads no further screen. */
  lemma {:induction false} ScreensStopped(run: Runner, read: Source, p: Progress, names: seq<string>, i: nat)
    requires i <= |names| && (i < |names| ==> RunScreens(run, read, p, names[..i]).stop.Some?)
    ensures RunScreens(run, read, p, names) == RunScreens(run, read, p, names[..i])
    decreases |names| - i
  {
    if i < |names| {
      var q := RunScreens(run, read, p, names[..i]);
      assert names[..i + 1] == names[..i] + [names[i]];
      ScreensSnoc(run, read, p, names[..i], names[i]);
      if read(names[i]).Ok? {
        StoppedStays(run, read, q, names[i], Inputs(read(names[i]).value), []);
      }
      ScreensStopped(run, read, p, names, i + 1);
    } else {
      assert names[..i] == names;
    }
  }

  /** A result's dictionary as the report reads it (`to_dict`). */
  function Entry(id: Option<string>, description: string, c: CaseState, duration: int): R.Entry {
    R.Entry(Some(StatusName(c.status)), Some(id), Some(description), Some(duration), Some(c.errorMessage))
  }

  /** `sum(1 for r in self.results if r.status == status)`. */
  function CountStatus(statuses: seq<Status>, s: Status): (n: nat)
    ensures n <= |statuses|
  {
    if statuses == [] then 0
    else CountStatus(statuses[..|statuses| - 1], s) + (if statuses[|statuses| - 1] == s then 1 else 0)
  }

  /** The counts `_print_summary` shows agree with those of the report
      built from the same results, whose statuses are spelt out. */
  lemma {:induction false} SummaryAgreesWithReport(statuses: seq<Status>, entries: seq<R.Entry>, s: Status)
    requires |entries| == |statuses|
    requires forall i :: 0 <= i < |statuses| ==> entries[i].status == Some(StatusName(statuses[i]))
    ensures R.Count(entries, StatusName(s)) == CountStatus(statuses, s)
  {
    if statuses != [] {
      var n := |statuses| - 1;
      SummaryAgreesWithReport(statuses[..n], entries[..n], s);
      assert StatusName(statuses[n]) == StatusName(s) <==> statuses[n] == s by {
        StatusNamesDistinct(statuses[n], s);
      }
    }
  }

  /** Results that all ended (Passed, Failed or Error, as every run
      does) make the report's three counts add up to the number of
      results. */
  lemma ReportCountsEnded(statuses: seq<Status>, entries: seq<R.Entry>)
    requires |entries| == |statuses|
    requires forall i :: 0 <= i < |statuses| ==> entries[i].status == Some(StatusName(statuses[i]))
    requires forall i :: 0 <= i < |statuses| ==> statuses[i] in {Passed, Failed, Error}
    ensures R.Count(entries, "Passed") + R.Count(entries, "Failed") + R.Count(entries, "Error") == |entries|
  {
    R.CountsPartition(entries);
    forall i | 0 <= i < |entries| ensures R.Counted(entries[i]) {
      assert statuses[i] in {Passed, Failed, Error};
    }
  }

  lemma StatusNamesDistinct(a: Status, b: Status)
    ensures StatusName(a) == StatusName(b) <==> a == b
  {
    if a != b {
      var x, y := StatusName(a), StatusName(b);
      assert x[0] != y[0];
    }
  }

  /** The fields of a result after a step loop that ended with `stop`: a
      keyword that raised marks it Failed with the error text (prefixed by
      its screen and step on a run from the workbook) and the guarded
      failure screenshot, if one was taken; otherwise only the steps
      changed. */
  function Marked(cfg: Settings, shot: Result<string, string>, excel: bool, stop: Option<Stop>, before: CaseState,
                  steps: seq<StepEntry>): CaseState {
    if stop.Some? && stop.value.Raised? then
      var m := stop.value.message;
      CaseState(Failed, steps, Some(if excel then ScreenFailure(stop.value.screen, stop.value.stepNo, m) else m),
                if cfg.shotOnFailure && shot.Ok? then Some(shot.value) else before.screenshotPath)
    else before.(steps := steps)
  }

  /** `TestResult`. */
  class TestResult {
    var testCaseId: Option<string>
    var description: string
    var status: Status
    var steps: seq<StepEntry>
    var startTime: Option<int>
    var endTime: Option<int>
    var errorMessage: Option<string>
    var screenshotPath: Option<string>

    /** A new result: "Not Started", no steps, no times, no error. */
    constructor (testCaseId: Option<string>, description: string)
      ensures this.testCaseId == testCaseId && this.description == description
      ensures status == NotStarted && steps == []
      ensures startTime == None && endTime == None && errorMessage == None && screenshotPath == None
    {
      this.testCaseId := testCaseId;
      this.description := description;
      status := NotStarted;
      steps := [];
      startTime := None;
      endTime := None;
      errorMessage := None;
      screenshotPath := None;
    }

    /** `duration`: 0 unless both times are set. */
    function Duration(): int
      reads this
    {
      if startTime.Some? && endTime.Some? then endTime.value - startTime.value else 0
    }

    /** The fields a run decides. */
    function State(): CaseState
      reads this
    {
      CaseState(status, steps, errorMessage, screenshotPath)
    }

    /** `to_dict()`. */
    function ToDict(): R.Entry
      reads this
    {
      Entry(testCaseId, description, State(), Duration())
    }

    /** `add_step(step_no, keyword, status, message)`: one entry at the
        end, nothing else changed. */
    method AddStep(stepNo: nat, keyword: string, status: Status, message: Option<string>)
      modifies this
      ensures steps == old(steps) + [StepEntry(stepNo, keyword, status, message)]
      ensures this.status == old(this.status) && errorMessage == old(errorMessage) && screenshotPath == old(screenshotPath)
      ensures testCaseId == old(testCaseId) && description == old(description)
      ensures startTime == old(startTime) && endTime == old(endTime)
    {
      steps := steps + [StepEntry(stepNo, keyword, status, message)];
    }
  }

  /** The state of a result object at the end of a run. */
  ghost predicate Ended(result: TestResult, id: Option<string>, description: string, s: Session, c: CaseState)
    reads result
  {
    result.testCaseId == id && result.description == description && result.State() == c
    && result.startTime == Some(s.started) && result.endTime == Some(s.ended)
  }

  /** A result object holds the run of scenario `sc` of workbook `wb`. */
  ghost predicate Recorded(result: TestResult, cfg: Settings, wb: Sheets.Workbook, s: Session, sc: X.Scenario)
    reads result
  {
    Ended(result, sc.testCaseId, sc.description, s, ExcelCase(cfg, SheetSource(wb), s, sc.screenFlow))
  }

  /** `KeywordExecutor`. */
  class KeywordExecutor {
    const testDataPath: string
    const browser: string
    const headless: bool
    var results: seq<TestResult>
    /** Whether `self.driver` is set. */
    var driverOpen: bool
    var engine: K.KeywordEngine?

    /** `KeywordExecutor(test_data_path, browser, headless)`, each falling
        back to its configured value. */
    constructor (testDataPath: Option<string>, browser: Option<string>, headless: Option<bool>,
                 configPath: string, configBrowser: string, configHeadless: bool)
      ensures this.testDataPath == (if testDataPath.Some? then testDataPath.value else configPath)
      ensures this.browser == (if Truthy(browser) then browser.value else configBrowser)
      ensures this.headless == (if headless.Some? then headless.value else configHeadless)
      ensures results == [] && !driverOpen && engine == null
    {
      this.testDataPath := if testDataPath.Some? then testDataPath.value else configPath;
      this.browser := if Truthy(browser) then browser.value else configBrowser;
      this.headless := if headless.Some? then headless.value else configHeadless;
      results := [];
      driverOpen := false;
      engine := null;
    }

    /** `_setup_driver`: a driver and a fresh engine, or the exception of
        `create_driver`, which leaves both as they were. */
    method SetupDriver(s: Session) returns (err: Option<string>)
      modifies this
      ensures err == s.setup
      ensures err.None? ==> driverOpen && engine != null && fresh(engine)
                            && engine.keywords == K.Registry && engine.variables == map[]
      ensures err.Some? ==> driverOpen == old(driverOpen) && engine == old(engine)
      ensures results == old(results)
    {
      if s.setup.Some? {
        return s.setup;
      }
      driverOpen := true;
      engine := new K.KeywordEngine();
      return None;
    }

    /** `_teardown_driver`: quit errors are swallowed; the driver and the
        engine are dropped only if a driver was set. */
    method TeardownDriver()
      modifies this
      ensures !driverOpen
      ensures old(driverOpen) ==> engine == null
      ensures !old(driverOpen) ==> engine == old(engine)
      ensures results == old(results)
    {
      if driverOpen {
        driverOpen := false;
        engine := null;
      }
    }

    /** One call of the engine as the session's `ran`-th call. */
    static method Invoke(s: Session, e: K.KeywordEngine, ghost run: Runner, ran: nat, c: Call) returns (o: Outcome)
      requires run == KeywordRunner(e.keywords, s.pageAt, s.perform)
      modifies e
      ensures o == run(old(e.variables), ran, c) && e.variables == o.variables
    {
      var r := e.Execute(s.pageAt(ran), s.perform, c.keyword, c.locatorType, c.locatorValue, c.testData);
      o := Outcome(if r.Err? then Some(K.Message(r.error)) else None, e.variables);
    }

    /** One row of a screen on the engine (the body of the step loop up to
        the raise); a raising keyword also marks the result Failed with
        its error text and takes the guarded screenshot. */
    method RunStep(cfg: Settings, s: Session, e: K.KeywordEngine, result: TestResult, ghost run: Runner,
                   screen: string, idx: nat, step: Input, ran: nat, excel: bool)
      returns (ran': nat, stop: Option<Stop>)
      requires run == KeywordRunner(e.keywords, s.pageAt, s.perform)
      modifies e, result
      ensures Progress(result.steps, e.variables, ran', stop)
              == Advance(run, Progress(old(result.steps), old(e.variables), ran, None), screen, idx, step)
      ensures result.State() == Marked(cfg, s.shot, excel, stop, old(result.State()), result.steps)
      ensures result.testCaseId == old(result.testCaseId) && result.description == old(result.description)
      ensures result.startTime == old(result.startTime) && result.endTime == old(result.endTime)
    {
      if step.keyword.None? {
        return ran, Some(Aborted(NoUpper));
      }
      var kw := Upper(step.keyword.value);
      if kw == "" {
        return ran, None;
      }
      var o := Invoke(s, e, run, ran, Call(kw, step.locatorType, step.locatorValue, step.testData));
      if o.error.None? {
        result.AddStep(idx, kw, Passed, step.description);
        return ran + 1, None;
      }
      var message := o.error.value;
      result.AddStep(idx, kw, Failed, Some(message));
      result.errorMessage := Some(if excel then ScreenFailure(screen, idx, message) else message);
      result.status := Failed;
      if cfg.shotOnFailure && s.shot.Ok? {
        result.screenshotPath := Some(s.shot.value);
      }
      return ran + 1, Some(Raised(screen, idx, message));
    }

    /** The step loop of one screen (of the whole list, for a direct run):
        rows in order, numbered from 1, up to the first that raises. */
    method RunScreen(cfg: Settings, s: Session, e: K.KeywordEngine, result: TestResult, ghost run: Runner,
                     screen: string, steps: seq<Input>, ran: nat, excel: bool)
      returns (ran': nat, stop: Option<Stop>)
      requires run == KeywordRunner(e.keywords, s.pageAt, s.perform)
      modifies e, result
      ensures Progress(result.steps, e.variables, ran', stop)
              == RunSteps(run, Progress(old(result.steps), old(e.variables), ran, None), screen, steps)
      ensures result.State() == Marked(cfg, s.shot, excel, stop, old(result.State()), result.steps)
      ensures result.testCaseId == old(result.testCaseId) && result.description == old(result.description)
      ensures result.startTime == old(result.startTime) && result.endTime == old(result.endTime)
    {
      ghost var p0 := Progress(result.steps, e.variables, ran, None);
      ran', stop := ran, None;
      var i := 0;
      while i < |steps| && stop.None?
        invariant 0 <= i <= |steps|
        invariant Progress(result.steps, e.variables, ran', stop) == RunSteps(run, p0, screen, steps[..i])
        invariant result.State() == Marked(cfg, s.shot, excel, stop, old(result.State()), result.steps)
        invariant result.testCaseId == old(result.testCaseId) && result.description == old(result.description)
        invariant result.startTime == old(result.startTime) && result.endTime == old(result.endTime)
      {
        StepsSnoc(run, p0, screen, steps, i);
        ran', stop := RunStep(cfg, s, e, result, run, screen, i + 1, steps[i], ran', excel);
        i := i + 1;
      }
      StepsStopped(run, p0, screen, steps, i);
    }

    /** `reader.read_keywords(screen_name)` on the open workbook. */
    static method ReadScreen(reader: X.ExcelReader, ghost wb: Sheets.Workbook, name: string)
      returns (steps: Result<seq<X.KeywordStep>, X.ReaderError>)
      requires reader.workbook == Some(wb)
      modifies reader
      ensures reader.workbook == Some(wb)
      ensures steps == SheetSource(wb)(name)
    {
      steps := reader.ReadKeywords(None, name);
    }

    /** The screen loop of `_run_test_case` on the open workbook: each
        screen's keyword sheet read and run, a missing one skipped, up to
        the first keyword that raises. */
    method RunFlow(cfg: Settings, s: Session, e: K.KeywordEngine, result: TestResult, reader: X.ExcelReader,
                   ghost wb: Sheets.Workbook, ghost run: Runner, names: seq<string>, ran: nat)
      returns (ran': nat, stop: Option<Stop>)
      requires run == KeywordRunner(e.keywords, s.pageAt, s.perform)
      requires reader.workbook == Some(wb)
      modifies e, result, reader
      ensures reader.workbook == Some(wb)
      ensures Progress(result.steps, e.variables, ran', stop)
              == RunScreens(run, SheetSource(wb), Progress(old(result.steps), old(e.variables), ran, None), names)
      ensures result.State() == Marked(cfg, s.shot, true, stop, old(result.State()), result.steps)
      ensures result.testCaseId == old(result.testCaseId) && result.description == old(result.description)
      ensures result.startTime == old(result.startTime) && result.endTime == old(result.endTime)
    {
      ghost var read := SheetSource(wb);
      ghost var p0 := Progress(result.steps, e.variables, ran, None);
      ran', stop := ran, None;
      var i := 0;
      while i < |names| && stop.None?
        invariant 0 <= i <= |names|
        invariant reader.workbook == Some(wb)
        invariant Progress(result.steps, e.variables, ran', stop) == RunScreens(run, read, p0, names[..i])
        invariant result.State() == Marked(cfg, s.shot, true, stop, old(result.State()), result.steps)
        invariant result.testCaseId == old(result.testCaseId) && result.description == old(result.description)
        invariant result.startTime == old(result.startTime) && result.endTime == old(result.endTime)
      {
        ran', stop := RunNextScreen(cfg, s, e, result, reader, wb, run, p0, names, i, ran');
        i := i + 1;
      }
      ScreensStopped(run, read, p0, names, i);
    }

    /** One iteration of that loop: screen `i` read and, when it exists, run. */
    method RunNextScreen(cfg: Settings, s: Session, e: K.KeywordEngine, result: TestResult, reader: X.ExcelReader,
                         ghost wb: Sheets.Workbook, ghost run: Runner, ghost p0: Progress, names: seq<string>, i: nat, ran: nat)
      returns (ran': nat, stop: Option<Stop>)
      requires run == KeywordRunner(e.keywords, s.pageAt, s.perform)
      requires reader.workbook == Some(wb) && i < |names|
      requires Progress(result.steps, e.variables, ran, None) == RunScreens(run, SheetSource(wb), p0, names[..i])
      modifies e, result, reader
      ensures reader.workbook == Some(wb)
      ensures Progress(result.steps, e.variables, ran', stop) == RunScreens(run, SheetSource(wb), p0, names[..i + 1])
      ensures result.State() == Marked(cfg, s.shot, true, stop, old(result.State()), result.steps)
      ensures result.testCaseId == old(result.testCaseId) && result.description == old(result.description)
      ensures result.startTime == old(result.startTime) && result.endTime == old(result.endTime)
    {
      assert names[..i + 1] == names[..i] + [names[i]];
      ScreensSnoc(run, SheetSource(wb), p0, names[..i], names[i]);
      ran', stop := ran, None;
      var steps := ReadScreen(reader, wb, names[i]);
      if steps.Ok? {
        ran', stop := RunScreen(cfg, s, e, result, run, names[i], Inputs(steps.value), ran, true);
      }
    }

    /** The end of the `try` block of either run: an unstopped run passes
        (with the unguarded success screenshot on a workbook run, when
        configured), a run aborted by an exception other than a keyword's
        is an Error with its message, a failed one stays as it is. */
    static method Settle(cfg: Settings, s: Session, result: TestResult, stop: Option<Stop>, excel: bool, ghost p: Progress)
      requires p.stop == stop
      requires result.State() == Marked(cfg, s.shot, excel, stop, CaseState(Running, [], None, None), p.steps)
      modifies result
      ensures result.State() == if excel then ExcelFinish(cfg, s.shot, p) else DirectFinish(cfg, s.shot, p)
      ensures result.testCaseId == old(result.testCaseId) && result.description == old(result.description)
      ensures result.startTime == old(result.startTime) && result.endTime == old(result.endTime)
    {
      if stop.None? {
        result.status := Passed;
        if excel && cfg.shotOnSuccess {
          if s.shot.Ok? {
            result.screenshotPath := Some(s.shot.value);
          } else {
            result.status := Error;
            result.errorMessage := Some(s.shot.error);
          }
        }
      } else if stop.value.Aborted? {
        result.status := Error;
        result.errorMessage := Some(stop.value.message);
      }
    }

    /** `_run_test_case(reader, test_case_id, screen_flow, description)` on
        the open workbook: a new result, the browser started and torn down
        again, the state decided by `ExcelCase`. */
    method RunExcelCase(cfg: Settings, reader: X.ExcelReader, wb: Sheets.Workbook, s: Session,
                        id: Option<string>, flow: Option<string>, description: string)
      returns (result: TestResult)
      requires reader.workbook == Some(wb)
      modifies this, reader
      ensures fresh(result)
      ensures Ended(result, id, description, s, ExcelCase(cfg, SheetSource(wb), s, flow))
      ensures reader.workbook == Some(wb)
      ensures !driverOpen && results == old(results)
    {
      result := new TestResult(id, description);
      result.startTime := Some(s.started);
      result.status := Running;
      var err := SetupDriver(s);
      if err.Some? {
        result.status := Error;
        result.errorMessage := err;
      } else if flow.None? {
        result.status := Error;
        result.errorMessage := Some(NoSplit);
      } else {
        var e := engine;
        ghost var p := RunScreens(KeywordRunner(K.Registry, s.pageAt, s.perform), SheetSource(wb), Start, CommaNames(flow.value));
        var ran, stop := RunFlow(cfg, s, e, result, reader, wb, KeywordRunner(e.keywords, s.pageAt, s.perform), CommaNames(flow.value), 0);
        Settle(cfg, s, result, stop, true, p);
        assert result.State() == ExcelCase(cfg, SheetSource(wb), s, flow);
      }
      result.endTime := Some(s.ended);
      TeardownDriver();
    }

    /** `run_test_case(test_case_id, keywords)`: a new result for the given
        step rows, the state decided by `DirectCase`; it is not added to
        the results. */
    method RunTestCase(cfg: Settings, s: Session, id: Option<string>, rows: seq<X.Row>) returns (result: TestResult)
      modifies this
      ensures fresh(result)
      ensures Ended(result, id, "", s, DirectCase(cfg, s, rows))
      ensures !driverOpen && results == old(results)
    {
      result := new TestResult(id, "");
      result.startTime := Some(s.started);
      result.status := Running;
      var err := SetupDriver(s);
      if err.Some? {
        result.status := Error;
        result.errorMessage := err;
      } else {
        var e := engine;
        ghost var p := RunSteps(KeywordRunner(K.Registry, s.pageAt, s.perform), Start, "", RowInputs(rows));
        var ran, stop := RunScreen(cfg, s, e, result, KeywordRunner(e.keywords, s.pageAt, s.perform), "", RowInputs(rows), 0, false);
        Settle(cfg, s, result, stop, false, p);
        assert result.State() == DirectCase(cfg, s, rows);
      }
      result.endTime := Some(s.ended);
      TeardownDriver();
    }

    /** The scenario loop of `run_all_tests`: each scenario run in order,
        the i-th on `sessions(i)`, its result appended; the workbook is
        closed when the `with` block ends. */
    method RunScenarios(cfg: Settings, reader: X.ExcelReader, wb: Sheets.Workbook, scenarios: seq<X.Scenario>,
                        sessions: nat -> Session)
      returns (ghost added: seq<TestResult>)
      requires reader.workbook == Some(wb)
      modifies this, reader
      ensures reader.workbook == None
      ensures results == old(results) + added && |added| == |scenarios|
      ensures |scenarios| > 0 ==> !driverOpen
      ensures forall i :: 0 <= i < |scenarios| ==> fresh(added[i]) && Recorded(added[i], cfg, wb, sessions(i), scenarios[i])
    {
      added := [];
      var i := 0;
      while i < |scenarios|
        invariant 0 <= i <= |scenarios| && |added| == i
        invariant results == old(results) + added
        invariant reader.workbook == Some(wb)
        invariant i > 0 ==> !driverOpen
        invariant forall j :: 0 <= j < i ==> fresh(added[j]) && Recorded(added[j], cfg, wb, sessions(j), scenarios[j])
      {
        var result := RunExcelCase(cfg, reader, wb, sessions(i), scenarios[i].testCaseId, scenarios[i].screenFlow,
                                   scenarios[i].description);
        results := results + [result];
        added := added + [result];
        i := i + 1;
      }
      reader.Exit();
    }

    /** `run_all_tests()` with the test data file's contents `disk`: a
        missing file or Master sheet raises before any test runs;
        otherwise every selected scenario runs in order, the i-th on
        `sessions(i)`, and its result is added to those of earlier calls. */
    method RunAllTests(cfg: Settings, disk: Option<Sheets.Workbook>, sessions: nat -> Session)
      returns (r: Result<seq<TestResult>, X.ReaderError>)
      modifies this
      ensures disk.None? ==> r == Err(X.FileNotFound(testDataPath)) && results == old(results)
      ensures disk.Some? && X.ScenariosIn(Ok(disk.value), X.MASTER).Err? ==>
                r == Err(X.ScenariosIn(Ok(disk.value), X.MASTER).error) && results == old(results)
      ensures disk.Some? && X.ScenariosIn(Ok(disk.value), X.MASTER).Ok? ==>
                var scenarios := X.ScenariosIn(Ok(disk.value), X.MASTER).value;
                r == Ok(results) && |results| == |old(results)| + |scenarios| && results[..|old(results)|] == old(results)
                && (|scenarios| > 0 ==> !driverOpen)
                && forall i :: 0 <= i < |scenarios| ==>
                     fresh(results[|old(results)| + i])
                     && Recorded(results[|old(results)| + i], cfg, disk.value, sessions(i), scenarios[i])
    {
      var reader := new X.ExcelReader(Some(testDataPath), testDataPath);
      var loaded := reader.Enter(disk);
      if loaded.Err? {
        return Err(loaded.error);
      }
      var wb := loaded.value;
      assert disk == Some(wb);
      var found := reader.GetTestScenarios(disk, X.MASTER);
      assert found == X.ScenariosIn(Ok(wb), X.MASTER);
      if found.Err? {
        reader.Exit();
        return Err(found.error);
      }
      ghost var before := results;
      ghost var added := RunScenarios(cfg, reader, wb, found.value, sessions);
      assert results[..|before|] == before;
      assert forall j :: 0 <= j < |found.value| ==> results[|before| + j] == added[j];
      return Ok(results);
    }
  }
}
