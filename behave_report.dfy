/** The Behave variant's report generator (`ReportGenerator`): the summary
    counts and the per-row values `generate_html_report` puts into the
    page. The HTML text itself is not modelled. */
module BehaveReport {
  import opened Text

  /** One result dictionary: each field holds the value under its key, or
      `None` when the key is absent. The test case id may itself be `None`. */
  datatype Entry = Entry(
    status: Option<string>, testCaseId: Option<Option<string>>, description: Option<string>,
    duration: Option<int>, errorMessage: Option<Option<string>>)

  /** `r.get('status') == status`. */
  predicate HasStatus(e: Entry, status: string) {
    e.status == Some(status)
  }

  /** `sum(1 for r in results if r.get('status') == status)`. */
  function Count(results: seq<Entry>, status: string): (n: nat)
    ensures n <= |results|
  {
    if results == [] then 0
    else Count(results[..|results| - 1], status) + (if HasStatus(results[|results| - 1], status) then 1 else 0)
  }

  /** The status is one of the three the summary counts. */
  predicate Counted(e: Entry) {
    HasStatus(e, "Passed") || HasStatus(e, "Failed") || HasStatus(e, "Error")
  }

  /** The summary numbers: totals, the pass rate in percent, the summed
      durations. */
  datatype Summary = Summary(total: nat, passed: nat, failed: nat, errors: nat, passRate: real, totalDuration: int)

  function TotalDuration(results: seq<Entry>): int {
    if results == [] then 0
    else
      var e := results[|results| - 1];
      TotalDuration(results[..|results| - 1]) + (if e.duration.Some? then e.duration.value else 0)
  }

  /** The summary of `generate_html_report`; the pass rate is 0 for no
      results. */
  function Summarise(results: seq<Entry>): (s: Summary)
    ensures s.total == |results|
    ensures s.total == 0 ==> s.passRate == 0.0
    ensures s.total > 0 ==> s.passRate == (s.passed as real) / (s.total as real) * 100.0
  {
    var total := |results|;
    var passed := Count(results, "Passed");
    Summary(total, passed, Count(results, "Failed"), Count(results, "Error"),
            if total > 0 then (passed as real) / (total as real) * 100.0 else 0.0,
            TotalDuration(results))
  }

  /** The three counts never exceed the number of results, and add up to
      it exactly when every status is Passed, Failed or Error. */
  lemma {:induction false} CountsPartition(results: seq<Entry>)
    ensures Count(results, "Passed") + Count(results, "Failed") + Count(results, "Error") <= |results|
    ensures Count(results, "Passed") + Count(results, "Failed") + Count(results, "Error") == |results|
            <==> forall i :: 0 <= i < |results| ==> Counted(results[i])
  {
    if results != [] {
      var init := results[..|results| - 1];
      var last := results[|results| - 1];
      CountsPartition(init);
      assert "Passed" != "Failed" && "Passed" != "Error" && "Failed" != "Error";
      assert (forall i :: 0 <= i < |results| ==> Counted(results[i]))
             <==> (forall i :: 0 <= i < |init| ==> Counted(init[i])) && Counted(last) by {
        assert forall i :: 0 <= i < |init| ==> init[i] == results[i];
      }
    }
  }

  /** A share of a positive whole as a percentage. */
  lemma Percentage(p: nat, t: nat)
    requires 0 < t && p <= t
    ensures 0.0 <= (p as real) / (t as real) * 100.0 <= 100.0
    ensures (p as real) / (t as real) * 100.0 == 100.0 <==> p == t
  {
    var q := (p as real) / (t as real);
    assert q * (t as real) == p as real;
    assert 0.0 <= q <= 1.0;
    if q * 100.0 == 100.0 {
      assert q == 1.0;
      assert p as real == t as real;
    }
  }

  /** The pass rate is a percentage, 100 exactly when every result passed. */
  lemma PassRateBounds(results: seq<Entry>)
    ensures 0.0 <= Summarise(results).passRate <= 100.0
    ensures |results| > 0 ==> (Summarise(results).passRate == 100.0 <==> Count(results, "Passed") == |results|)
  {
    if |results| > 0 {
      Percentage(Count(results, "Passed"), |results|);
    }
  }

  /** What one row of the table shows. */
  datatype RowView = RowView(index: nat, status: string, statusClass: string, testId: string,
                             description: string, duration: int, error: Option<string>)

  /** The row of the `index`-th result (from 1), with the defaults of
      `generate_html_report` for absent keys; the error block appears
      only for an error message holding text. */
  function RowOf(index: nat, e: Entry): RowView {
    var status := if e.status.Some? then e.status.value else "Unknown";
    RowView(index, status, Lower(status),
            if e.testCaseId.Some? then PyStr(e.testCaseId.value) else "Test_" + NatToString(index),
            if e.description.Some? then e.description.value else "",
            if e.duration.Some? then e.duration.value else 0,
            if e.errorMessage.Some? && Truthy(e.errorMessage.value) then e.errorMessage.value else None)
  }

  /** The rows, one per result, in order. */
  function Rows(results: seq<Entry>): (rows: seq<RowView>)
    ensures |rows| == |results|
  {
    seq(|results|, i requires 0 <= i < |results| => RowOf(i + 1, results[i]))
  }

  /** Rows are numbered from 1 in the order of the results; a result
      without a status shows "Unknown" with the class "unknown", one
      without an id shows `Test_<n>`, and the status class is the status
      lower-cased. */
  lemma RowDefaults(results: seq<Entry>, i: nat)
    requires i < |results|
    ensures Rows(results)[i].index == i + 1
    ensures results[i].status.None? ==> Rows(results)[i].status == "Unknown" && Rows(results)[i].statusClass == "unknown"
    ensures results[i].testCaseId.None? ==> Rows(results)[i].testId == "Test_" + NatToString(i + 1)
    ensures results[i].status.Some? ==> Rows(results)[i].statusClass == Lower(results[i].status.value)
    ensures Rows(results)[i].error.Some? <==> results[i].errorMessage.Some? && Truthy(results[i].errorMessage.value)
  {
    var r := Rows(results)[i];
    assert r == RowOf(i + 1, results[i]);
    if results[i].status.None? {
      assert Lower("Unknown") == "unknown";
    }
  }
}
