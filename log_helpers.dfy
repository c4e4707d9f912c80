/**
 * The structured step logger: a step counter, the list of steps with their
 * status, and the lists of errors and warnings, plus the report its summary
 * prints. Timestamps, durations and the printed text itself are not modelled.
 */
module LogHelpers {
  import opened Wrappers

  datatype Status = Running | Succeeded | Failed

  datatype StepRecord = StepRecord(number: int, description: string, status: Status)

  datatype WarningRecord = WarningRecord(message: string, step: int)

  /** An error and the exception it was logged with, if any (its type and message). */
  datatype ErrorRecord = ErrorRecord(message: string, step: int, exception: Option<string>)

  /** The steps with the last one's status replaced; no steps, no change. */
  function WithLastStatus(steps: seq<StepRecord>, status: Status): (r: seq<StepRecord>)
    ensures |r| == |steps|
    ensures forall i :: 0 <= i < |steps| - 1 ==> r[i] == steps[i]
    ensures steps != [] ==> r[|r| - 1] == steps[|steps| - 1].(status := status)
  {
    if steps == [] then [] else steps[|steps| - 1 := steps[|steps| - 1].(status := status)]
  }

  /** The widest description the step table shows in full. */
  const DescriptionWidth: nat := 30

  /** The description cell of the step table: longer descriptions are cut to
      their first 30 characters followed by "...". */
  function ShortDescription(d: string): (r: string)
    ensures |r| <= DescriptionWidth + 3
    ensures |d| <= DescriptionWidth ==> r == d
    ensures |d| > DescriptionWidth ==>
      |r| == DescriptionWidth + 3 && r[..DescriptionWidth] == d[..DescriptionWidth] && r[DescriptionWidth..] == "..."
  {
    if |d| > DescriptionWidth then d[..DescriptionWidth] + "..." else d
  }

  /** A description is shown as it is exactly when it fits, or when it is
      already 30 characters followed by "...". */
  lemma ShortDescriptionUnchanged(d: string)
    ensures ShortDescription(d) == d <==>
      |d| <= DescriptionWidth || (|d| == DescriptionWidth + 3 && d[DescriptionWidth..] == "...")
  {
    if |d| > DescriptionWidth {
      var r := ShortDescription(d);
      assert r[DescriptionWidth..] == "...";
      assert d == d[..DescriptionWidth] + d[DescriptionWidth..];
    }
  }

  /** The closing line of the summary: failures first, then skips, then success. */
  datatype Verdict = SomeFailed(failed: int) | SomeSkipped(skipped: int) | AllPassed(passed: int)

  function FinalVerdict(passed: int, failed: int, skipped: int): (v: Verdict)
    ensures v.SomeFailed? <==> failed > 0
    ensures v.SomeSkipped? <==> failed <= 0 && skipped > 0
    ensures v.AllPassed? <==> failed <= 0 && skipped <= 0
    ensures v == SomeFailed(failed) || v == SomeSkipped(skipped) || v == AllPassed(passed)
  {
    if failed > 0 then SomeFailed(failed)
    else if skipped > 0 then SomeSkipped(skipped)
    else AllPassed(passed)
  }

  datatype StepRow = StepRow(number: int, description: string, status: Status)
  datatype ErrorDetail = ErrorDetail(index: nat, message: string, step: int, exception: Option<string>)
  datatype WarningLine = WarningLine(index: nat, message: string)

  /** What `summary` prints: the counts, one row per step, the numbered error
      details and warnings, and the verdict. */
  datatype Report = Report(
    passed: int,
    failed: int,
    skipped: int,
    rows: seq<StepRow>,
    errorDetails: seq<ErrorDetail>,
    warningLines: seq<WarningLine>,
    verdict: Verdict)

  class InlineLogger {
    var stepCounter: int
    var steps: seq<StepRecord>
    var errors: seq<ErrorRecord>
    var warnings: seq<WarningRecord>

    /** The counter is one past the last step, steps are numbered 1, 2, ... in
        order, and every error and warning names step 0 or an existing step. */
    ghost predicate Valid()
      reads this
    {
      && stepCounter == |steps| + 1
      && (forall i :: 0 <= i < |steps| ==> steps[i].number == i + 1)
      && (forall e :: e in errors ==> 0 <= e.step <= |steps|)
      && (forall w :: w in warnings ==> 0 <= w.step <= |steps|)
    }

    constructor ()
      ensures Valid()
      ensures stepCounter == 1 && steps == [] && errors == [] && warnings == []
    {
      stepCounter := 1;
      steps := [];
      errors := [];
      warnings := [];
    }

    /** The step an error or warning belongs to: the latest step's number, or 0 before any. */
    function CurrentStep(): int
      reads this
    {
      if steps != [] then stepCounter - 1 else 0
    }

    /** `step`: a new running step numbered with the counter, which then moves on. */
    method Step(description: string)
      requires Valid()
      modifies this
      ensures Valid()
      ensures steps == old(steps) + [StepRecord(old(stepCounter), description, Running)]
      ensures stepCounter == old(stepCounter) + 1
      ensures errors == old(errors) && warnings == old(warnings)
    {
      steps := steps + [StepRecord(stepCounter, description, Running)];
      stepCounter := stepCounter + 1;
    }

    /** `success`: marks the latest step successful (whatever it was before). */
    method Success(message: string)
      requires Valid()
      modifies this
      ensures Valid()
      ensures steps == WithLastStatus(old(steps), Succeeded)
      ensures stepCounter == old(stepCounter) && errors == old(errors) && warnings == old(warnings)
    {
      if steps != [] {
        steps := WithLastStatus(steps, Succeeded);
      }
    }

    /** `warning`: records the warning against the latest step; no status changes. */
    method Warning(message: string)
      requires Valid()
      modifies this
      ensures Valid()
      ensures warnings == old(warnings) + [WarningRecord(message, |old(steps)|)]
      ensures stepCounter == old(stepCounter) && steps == old(steps) && errors == old(errors)
    {
      warnings := warnings + [WarningRecord(message, CurrentStep())];
    }

    /** `error`: records the error against the latest step and marks that step failed. */
    method Error(message: string, exception: Option<string>)
      requires Valid()
      modifies this
      ensures Valid()
      ensures errors == old(errors) + [ErrorRecord(message, |old(steps)|, exception)]
      ensures steps == WithLastStatus(old(steps), Failed)
      ensures stepCounter == old(stepCounter) && warnings == old(warnings)
    {
      errors := errors + [ErrorRecord(message, CurrentStep(), exception)];
      if steps != [] {
        steps := WithLastStatus(steps, Failed);
      }
    }

    /** `note`, `highlight`, `divider`, `test_start` and `test_end` only print:
        they may change nothing. */
    method Note(message: string)
    {
    }

    method Highlight(message: string)
    {
    }

    method Divider()
    {
    }

    method TestStart(testName: string)
    {
    }

    method TestEnd(testName: string, status: string)
    {
    }

    /** `summary`: reads the logger and changes nothing. */
    method Summary(passed: int, failed: int, skipped: int) returns (report: Report)
      ensures report.passed == passed && report.failed == failed && report.skipped == skipped
      ensures |report.rows| == |steps|
      ensures forall i :: 0 <= i < |steps| ==>
        report.rows[i] == StepRow(steps[i].number, ShortDescription(steps[i].description), steps[i].status)
      ensures |report.errorDetails| == |errors|
      ensures forall i :: 0 <= i < |errors| ==>
        report.errorDetails[i] == ErrorDetail(i + 1, errors[i].message, errors[i].step, errors[i].exception)
      ensures |report.warningLines| == |warnings|
      ensures forall i :: 0 <= i < |warnings| ==> report.warningLines[i] == WarningLine(i + 1, warnings[i].message)
      ensures report.verdict == FinalVerdict(passed, failed, skipped)
    {
      var rows: seq<StepRow> := [];
      for i := 0 to |steps|
        invariant |rows| == i
        invariant forall j :: 0 <= j < i ==>
          rows[j] == StepRow(steps[j].number, ShortDescription(steps[j].description), steps[j].status)
      {
        var s := steps[i];
        rows := rows + [StepRow(s.number, ShortDescription(s.description), s.status)];
      }
      var details: seq<ErrorDetail> := [];
      for i := 0 to |errors|
        invariant |details| == i
        invariant forall j :: 0 <= j < i ==>
          details[j] == ErrorDetail(j + 1, errors[j].message, errors[j].step, errors[j].exception)
      {
        var e := errors[i];
        details := details + [ErrorDetail(i + 1, e.message, e.step, e.exception)];
      }
      var lines: seq<WarningLine> := [];
      for i := 0 to |warnings|
        invariant |lines| == i
        invariant forall j :: 0 <= j < i ==> lines[j] == WarningLine(j + 1, warnings[j].message)
      {
        lines := lines + [WarningLine(i + 1, warnings[i].message)];
      }
      report := Report(passed, failed, skipped, rows, details, lines, FinalVerdict(passed, failed, skipped));
    }
  }

  /** A run of the client's kind: a step that fails, is retried and then
      succeeds ends with one successful step, one error and one warning,
      all attributed to step 1. */
  method LoggerScenario() returns (report: Report)
    ensures |report.rows| == 1 && report.rows[0].status == Succeeded && report.rows[0].number == 1
    ensures report.errorDetails == [ErrorDetail(1, "boom", 1, None)]
    ensures report.warningLines == [WarningLine(1, "retrying")]
    ensures report.verdict == AllPassed(1)
  {
    var log := new InlineLogger();
    log.Step("Making GET request");
    log.Warning("retrying");
    log.Error("boom", None);
    log.Success("done");
    report := log.Summary(1, 0, 0);
  }
}
