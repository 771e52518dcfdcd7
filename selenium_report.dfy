/** The Selenium variant's report generator: an append-only list of test
    results and the summary figures computed from it. */
module SeleniumReport {
  import opened Text

  /** One test result as `add_test_result` records it (the timestamp is
      not modelled). */
  datatype ReportEntry = ReportEntry(
    testCaseId: string,
    description: string,
    status: string,
    duration: int,
    screenshot: Option<string>,
    errorMessage: string)

  /** The number of entries whose status is exactly "PASS". */
  function CountPass(results: seq<ReportEntry>): (n: nat)
    ensures n <= |results|
  {
    if results == [] then 0
    else CountPass(results[..|results| - 1]) + (if results[|results| - 1].status == "PASS" then 1 else 0)
  }

  /** The figures of `generate_report`. */
  datatype Summary = Summary(total: nat, passed: nat, failed: nat)

  /** total is the number of results, passed those with status "PASS",
      failed all the others, whatever their status. */
  function Summarize(results: seq<ReportEntry>): (s: Summary)
    ensures s.passed + s.failed == s.total == |results|
  {
    var passed := CountPass(results);
    Summary(|results|, passed, |results| - passed)
  }

  /** The pass rate in percent, 0 when there are no results. */
  function PassRate(s: Summary): (rate: real)
    ensures s.total == 0 ==> rate == 0.0
  {
    if s.total > 0 then (s.passed as real / s.total as real) * 100.0 else 0.0
  }

  /** The duration in seconds, present only when both ends were marked. */
  function Duration(start: Option<int>, end: Option<int>): (d: Option<int>)
    ensures d.Some? <==> start.Some? && end.Some?
  {
    if start.Some? && end.Some? then Some(end.value - start.value) else None
  }

  /** The CSS class of a result row. */
  function RowClass(e: ReportEntry): (c: string)
    ensures c == "pass" <==> e.status == "PASS"
  {
    if e.status == "PASS" then "pass" else "fail"
  }

  /** Counting distributes over concatenation. */
  lemma {:induction false} CountPassAppend(a: seq<ReportEntry>, b: seq<ReportEntry>)
    ensures CountPass(a + b) == CountPass(a) + CountPass(b)
    decreases |b|
  {
    if b == [] {
      assert a + b == a;
    } else {
      assert (a + b)[..|a + b| - 1] == a + b[..|b| - 1];
      CountPassAppend(a, b[..|b| - 1]);
    }
  }

  /** Every result passed exactly when no result counts as failed. */
  lemma {:induction false} NoFailuresIffAllPass(results: seq<ReportEntry>)
    ensures Summarize(results).failed == 0 <==> forall i :: 0 <= i < |results| ==> results[i].status == "PASS"
  {
    if results != [] {
      var init := results[..|results| - 1];
      NoFailuresIffAllPass(init);
      assert forall i :: 0 <= i < |init| ==> init[i] == results[i];
    }
  }

  /** The pass rate lies between 0 and 100. */
  lemma PassRateBounds(results: seq<ReportEntry>)
    ensures 0.0 <= PassRate(Summarize(results)) <= 100.0
  {
    var s := Summarize(results);
    if s.total > 0 {
      assert s.passed as real <= s.total as real;
      assert s.passed as real / s.total as real <= 1.0;
    }
  }

  /** The generator's state: the results added so far and the execution
      start and end marks (clock readings supplied by the caller). */
  class ReportGenerator {
    var results: seq<ReportEntry>
    var startTime: Option<int>
    var endTime: Option<int>

    constructor ()
      ensures results == [] && startTime == None && endTime == None
    {
      results := [];
      startTime := None;
      endTime := None;
    }

    method StartExecution(now: int)
      modifies this
      ensures startTime == Some(now)
      ensures results == old(results) && endTime == old(endTime)
    {
      startTime := Some(now);
    }

    method EndExecution(now: int)
      modifies this
      ensures endTime == Some(now)
      ensures results == old(results) && startTime == old(startTime)
    {
      endTime := Some(now);
    }

    /** Appends one entry; the earlier entries are untouched. */
    method AddTestResult(id: string, description: string, status: string, duration: int,
                         screenshot: Option<string>, errorMessage: string)
      modifies this
      ensures results == old(results) + [ReportEntry(id, description, status, duration, screenshot, errorMessage)]
      ensures startTime == old(startTime) && endTime == old(endTime)
    {
      results := results + [ReportEntry(id, description, status, duration, screenshot, errorMessage)];
    }
  }
}
