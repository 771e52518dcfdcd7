/** The Playwright variant's report generator: an append-only list of
    test results and the summary figures `generate_report` computes. */
module PlaywrightReport {
  import opened Text

  /** One result as `add_test_result` records it. The test case and the
      screen flow are the master-sheet cells as read (an empty cell is
      `None`); the timestamp is not modelled. */
  datatype ReportEntry = ReportEntry(
    testCase: Option<string>,
    screenFlow: Option<string>,
    status: string,
    errorMessage: string,
    screenshotPath: Option<string>)

  /** The number of entries whose status is exactly `status`. */
  function CountStatus(results: seq<ReportEntry>, status: string): (n: nat)
    ensures n <= |results|
    decreases |results|
  {
    if results == [] then 0
    else CountStatus(results[..|results| - 1], status) + (if results[|results| - 1].status == status then 1 else 0)
  }

  /** The figures of `generate_report`. */
  datatype Summary = Summary(total: nat, passed: nat, failed: nat)

  /** total is the number of results; passed and failed count the
      statuses "PASS" and "FAIL", each on its own. */
  function Summarize(results: seq<ReportEntry>): (s: Summary)
    ensures s.total == |results|
    ensures s.passed + s.failed <= s.total
  {
    CountBoth(results);
    Summary(|results|, CountStatus(results, "PASS"), CountStatus(results, "FAIL"))
  }

  /** The pass percentage, 0 when there are no results. */
  function PassRate(s: Summary): (rate: real)
    ensures s.total == 0 ==> rate == 0.0
  {
    if s.total > 0 then (s.passed as real / s.total as real) * 100.0 else 0.0
  }

  /** The duration in seconds: 0 unless both ends were marked. */
  function Duration(start: Option<int>, end: Option<int>): (d: int)
    ensures start.None? || end.None? ==> d == 0
  {
    if start.Some? && end.Some? then end.value - start.value else 0
  }

  /** The CSS class of a result row. */
  function RowClass(e: ReportEntry): (c: string)
    ensures c == "pass" <==> e.status == "PASS"
    ensures c == "fail" <==> e.status != "PASS"
  {
    if e.status == "PASS" then "pass" else "fail"
  }

  /** The screenshot link of a row: present only for a non-empty path,
      and then pointing at it. */
  function ScreenshotLink(e: ReportEntry): (link: Option<string>)
    ensures link.Some? <==> Truthy(e.screenshotPath)
    ensures link.Some? ==> link.value == e.screenshotPath.value
  {
    if Truthy(e.screenshotPath) then Some(e.screenshotPath.value) else None
  }

  /** Two different statuses are never counted twice: their counts add up
      to at most the number of results. */
  lemma {:induction false} CountBoth(results: seq<ReportEntry>)
    ensures CountStatus(results, "PASS") + CountStatus(results, "FAIL") <= |results|
    decreases |results|
  {
    if results != [] {
      CountBoth(results[..|results| - 1]);
    }
  }

  /** Counting distributes over concatenation. */
  lemma {:induction false} CountStatusAppend(a: seq<ReportEntry>, b: seq<ReportEntry>, status: string)
    ensures CountStatus(a + b, status) == CountStatus(a, status) + CountStatus(b, status)
    decreases |b|
  {
    if b == [] {
      assert a + b == a;
    } else {
      assert (a + b)[..|a + b| - 1] == a + b[..|b| - 1];
      CountStatusAppend(a, b[..|b| - 1], status);
    }
  }

  /** The passed and failed counts cover every result exactly when every
      status is "PASS" or "FAIL". */
  lemma {:induction false} CountsCoverIff(results: seq<ReportEntry>)
    ensures Summarize(results).passed + Summarize(results).failed == |results| <==>
            forall i :: 0 <= i < |results| ==> results[i].status in {"PASS", "FAIL"}
    decreases |results|
  {
    if results != [] {
      var init := results[..|results| - 1];
      CountsCoverIff(init);
      CountBoth(init);
      assert forall i :: 0 <= i < |init| ==> init[i] == results[i];
    }
  }

  /** A result with another status is in neither count, yet its row is
      drawn with the "fail" class. */
  lemma OtherStatusUncounted(e: ReportEntry)
    requires e.status != "PASS" && e.status != "FAIL"
    ensures Summarize([e]).passed == 0 && Summarize([e]).failed == 0 && Summarize([e]).total == 1
    ensures RowClass(e) == "fail"
  {
    assert [e][..0] == [];
  }

  /** The pass percentage lies between 0 and 100. */
  lemma PassRateBounds(results: seq<ReportEntry>)
    ensures 0.0 <= PassRate(Summarize(results)) <= 100.0
  {
    var s := Summarize(results);
    if s.total > 0 {
      assert s.passed as real <= s.total as real;
      assert s.passed as real / s.total as real <= 1.0;
    }
  }

  /** The figures written into the report. */
  datatype Figures = Figures(summary: Summary, passRate: real, duration: int)

  /** The generator's state: the results added so far and the execution
      start and end marks (clock readings supplied by the caller). */
  class ReportGenerator {
    var results: seq<ReportEntry>
    var startTime: Option<int>
    var endTime: Option<int>

    constructor ()
      ensures results == [] && startTime == None && endTime == None
    {
      results := [];
      startTime := None;
      endTime := None;
    }

    method StartExecution(now: int)
      modifies this
      ensures startTime == Some(now)
      ensures results == old(results) && endTime == old(endTime)
    {
      startTime := Some(now);
    }

    method EndExecution(now: int)
      modifies this
      ensures endTime == Some(now)
      ensures results == old(results) && startTime == old(startTime)
    {
      endTime := Some(now);
    }

    /** Appends one entry; the earlier entries are untouched. */
    method AddTestResult(testCase: Option<string>, screenFlow: Option<string>, status: string,
                         errorMessage: string, screenshotPath: Option<string>)
      modifies this
      ensures results == old(results) + [ReportEntry(testCase, screenFlow, status, errorMessage, screenshotPath)]
      ensures startTime == old(startTime) && endTime == old(endTime)
    {
      results := results + [ReportEntry(testCase, screenFlow, status, errorMessage, screenshotPath)];
    }

    /** The summary figures of `generate_report`; the HTML text and the
        file written are not modelled. */
    method GenerateReport() returns (f: Figures)
      ensures f.summary.total == |results|
      ensures f.summary.passed == CountStatus(results, "PASS") && f.summary.failed == CountStatus(results, "FAIL")
      ensures f.summary.passed + f.summary.failed <= f.summary.total
      ensures f.passRate == PassRate(f.summary)
      ensures 0.0 <= f.passRate <= 100.0 && (results == [] ==> f.passRate == 0.0)
      ensures (startTime.None? || endTime.None?) ==> f.duration == 0
      ensures startTime.Some? && endTime.Some? ==> f.duration == endTime.value - startTime.value
    {
      var s := Summarize(results);
      PassRateBounds(results);
      f := Figures(s, PassRate(s), Duration(startTime, endTime));
    }
  }
}
