/** `MigrationJob`: a migration job's mutable state. Worker completions append
    device reports; `updateStatus` recomputes progress and, once every device
    has reported, the final status; a retry first removes the failed reports. */
module Jobs {
  import opened Wrappers
  import opened Records
  import opened JobModel

  /** `MigrationJob.VERSION`, the layout version stored with each job. */
  const VERSION: int := 2

  /** The message of the `NullPointerException` a null dereference throws. */
  const NPE: string := "NullPointerException"

  /** The reports `removeReportsWithErrors` keeps: the ones without an error,
      in their original order. */
  function WithoutErrors(reports: seq<Report>): seq<Report>
  {
    if reports == [] then []
    else
      var last := reports[|reports| - 1];
      WithoutErrors(reports[..|reports| - 1]) + (if HasError(last) then [] else [last])
  }

  /** How many reports carry an error. */
  function ErrorCount(reports: seq<Report>): nat
  {
    if reports == [] then 0
    else ErrorCount(reports[..|reports| - 1]) + (if HasError(reports[|reports| - 1]) then 1 else 0)
  }

  /** `removeIf` removes exactly the failed reports: a report survives iff it
      was there and has no error, the survivors keep their multiplicity, and
      the number removed is the number of failed reports. */
  lemma {:induction false} WithoutErrorsKeepsClean(reports: seq<Report>)
    decreases |reports|
    ensures forall x :: x in WithoutErrors(reports) <==> x in reports && !HasError(x)
    ensures forall x :: !HasError(x) ==> multiset(WithoutErrors(reports))[x] == multiset(reports)[x]
    ensures |reports| - |WithoutErrors(reports)| == ErrorCount(reports)
  {
    if reports != [] {
      var init, last := reports[..|reports| - 1], reports[|reports| - 1];
      assert reports == init + [last];
      WithoutErrorsKeepsClean(init);
    }
  }

  /** Removing the failed reports a second time removes nothing. */
  lemma WithoutErrorsIdempotent(reports: seq<Report>)
    ensures ErrorCount(WithoutErrors(reports)) == 0
    ensures WithoutErrors(WithoutErrors(reports)) == WithoutErrors(reports)
  {
    WithoutErrorsKeepsClean(reports);
    CleanReports(WithoutErrors(reports));
  }

  /** A list without failed reports is its own filtering and counts no error. */
  lemma {:induction false} CleanReports(reports: seq<Report>)
    decreases |reports|
    requires forall i :: 0 <= i < |reports| ==> !HasError(reports[i])
    ensures WithoutErrors(reports) == reports && ErrorCount(reports) == 0
  {
    if reports != [] {
      var init := reports[..|reports| - 1];
      assert reports == init + [reports[|reports| - 1]];
      CleanReports(init);
    }
  }

  /** The error count is positive iff some report failed. */
  lemma {:induction false} ErrorCountPositive(reports: seq<Report>)
    decreases |reports|
    ensures ErrorCount(reports) > 0 <==> exists i :: 0 <= i < |reports| && HasError(reports[i])
  {
    if reports != [] {
      var init := reports[..|reports| - 1];
      ErrorCountPositive(init);
      if exists i :: 0 <= i < |init| && HasError(init[i]) {
        var i :| 0 <= i < |init| && HasError(init[i]);
        assert reports[i] == init[i];
      }
      if exists i :: 0 <= i < |reports| && HasError(reports[i]) {
        var i :| 0 <= i < |reports| && HasError(reports[i]);
        if i < |init| {
          assert init[i] == reports[i];
        }
      }
    }
  }

  /** `isDeviceProcessed`: the stream stops at the first report whose source
      id equals `id`; a report without a source id reached before that
      dereferences null. */
  function ProcessedIn(reports: seq<Report>, id: string): Result<bool>
  {
    if reports == [] then Ok(false)
    else if reports[0].sourceDeviceId.None? then Err(NPE)
    else if reports[0].sourceDeviceId == Some(id) then Ok(true)
    else ProcessedIn(reports[1..], id)
  }

  /** Every report before position `i` names a device other than `id`. */
  predicate ClearBefore(reports: seq<Report>, id: string, i: int)
    requires 0 <= i <= |reports|
  {
    forall j :: 0 <= j < i ==> reports[j].sourceDeviceId.Some? && reports[j].sourceDeviceId != Some(id)
  }

  lemma ClearBeforeTail(reports: seq<Report>, id: string, i: int)
    requires 1 <= i <= |reports|
    requires reports[0].sourceDeviceId.Some? && reports[0].sourceDeviceId != Some(id)
    ensures ClearBefore(reports, id, i) <==> ClearBefore(reports[1..], id, i - 1)
  {
    if ClearBefore(reports[1..], id, i - 1) {
      forall j | 1 <= j < i
        ensures reports[j].sourceDeviceId.Some? && reports[j].sourceDeviceId != Some(id)
      {
        assert reports[j] == reports[1..][j - 1];
      }
    }
  }

  /** What `isDeviceProcessed` answers, in both directions: true iff a report
      for `id` comes before any report without a source id; it throws iff a
      report without a source id comes before any report for `id`. */
  lemma {:induction false} ProcessedInMeaning(reports: seq<Report>, id: string)
    decreases |reports|
    ensures ProcessedIn(reports, id) == Ok(true) <==>
      exists i :: 0 <= i < |reports| && reports[i].sourceDeviceId == Some(id) && ClearBefore(reports, id, i)
    ensures ProcessedIn(reports, id).Err? <==>
      exists i :: 0 <= i < |reports| && reports[i].sourceDeviceId.None? && ClearBefore(reports, id, i)
  {
    if reports != [] {
      assert ClearBefore(reports, id, 0);
      var tail := reports[1..];
      ProcessedInMeaning(tail, id);
      if reports[0].sourceDeviceId.Some? && reports[0].sourceDeviceId != Some(id) {
        forall i | 1 <= i <= |reports| {
          ClearBeforeTail(reports, id, i);
        }
        if exists i :: 0 <= i < |tail| && tail[i].sourceDeviceId == Some(id) && ClearBefore(tail, id, i) {
          var i :| 0 <= i < |tail| && tail[i].sourceDeviceId == Some(id) && ClearBefore(tail, id, i);
          assert reports[i + 1] == tail[i];
        }
        if exists i :: 0 <= i < |tail| && tail[i].sourceDeviceId.None? && ClearBefore(tail, id, i) {
          var i :| 0 <= i < |tail| && tail[i].sourceDeviceId.None? && ClearBefore(tail, id, i);
          assert reports[i + 1] == tail[i];
        }
        if exists i :: 0 <= i < |reports| && reports[i].sourceDeviceId == Some(id) && ClearBefore(reports, id, i) {
          var i :| 0 <= i < |reports| && reports[i].sourceDeviceId == Some(id) && ClearBefore(reports, id, i);
          assert tail[i - 1] == reports[i];
        }
        if exists i :: 0 <= i < |reports| && reports[i].sourceDeviceId.None? && ClearBefore(reports, id, i) {
          var i :| 0 <= i < |reports| && reports[i].sourceDeviceId.None? && ClearBefore(reports, id, i);
          assert tail[i - 1] == reports[i];
        }
      }
    }
  }

  /** When every report carries a source id, `isDeviceProcessed` is plain
      membership. */
  lemma {:induction false} ProcessedWhenIdsPresent(reports: seq<Report>, id: string)
    decreases |reports|
    requires forall i :: 0 <= i < |reports| ==> reports[i].sourceDeviceId.Some?
    ensures ProcessedIn(reports, id) == Ok(exists i :: 0 <= i < |reports| && reports[i].sourceDeviceId == Some(id))
  {
    if reports != [] {
      var tail := reports[1..];
      ProcessedWhenIdsPresent(tail, id);
      if exists i :: 0 <= i < |tail| && tail[i].sourceDeviceId == Some(id) {
        var i :| 0 <= i < |tail| && tail[i].sourceDeviceId == Some(id);
        assert reports[i + 1] == tail[i];
      }
      if exists i :: 0 <= i < |reports| && reports[i].sourceDeviceId == Some(id) {
        var i :| 0 <= i < |reports| && reports[i].sourceDeviceId == Some(id);
        if i > 0 {
          assert tail[i - 1] == reports[i];
        }
      }
    }
  }

  /** A migrator's fetch-failure report has no source id, so asking a job that
      holds one about any device not reported before it throws. */
  lemma {:induction false} FetchFailureBreaksResume(reports: seq<Report>, msg: string, durationSec: int, id: string)
    decreases |reports|
    requires forall i :: 0 <= i < |reports| ==> reports[i].sourceDeviceId != Some(id)
    ensures ProcessedIn(reports + [FetchFailedReport(msg, durationSec)], id).Err?
  {
    var all := reports + [FetchFailedReport(msg, durationSec)];
    if reports != [] && reports[0].sourceDeviceId.Some? {
      assert all[1..] == reports[1..] + [FetchFailedReport(msg, durationSec)];
      FetchFailureBreaksResume(reports[1..], msg, durationSec, id);
    }
  }

  /** Some report carries an error (`anyMatch` in `updateStatus`). */
  predicate AnyErrors(reports: seq<Report>)
  {
    exists i :: 0 <= i < |reports| && HasError(reports[i])
  }

  /** The status `updateStatus` computes for an executing job whose report
      count does not exceed its device count. */
  function Completion(reports: seq<Report>, numTotalDevices: int): JobStatus
  {
    if |reports| == numTotalDevices then (if AnyErrors(reports) then FAILED else SUCCESSFUL)
    else EXECUTING
  }

  /** A job finishes exactly when every device has reported, and it fails
      exactly when some report failed. */
  lemma CompletionRule(reports: seq<Report>, numTotalDevices: int)
    ensures Completion(reports, numTotalDevices) != EXECUTING <==> |reports| == numTotalDevices
    ensures Completion(reports, numTotalDevices) == FAILED <==> |reports| == numTotalDevices && ErrorCount(reports) > 0
    ensures Completion(reports, numTotalDevices) != PENDING
  {
    ErrorCountPositive(reports);
  }

  /** After a retry has removed the failed reports, a job whose re-run
      devices all report cleanly completes successfully. */
  lemma RetrySucceedsOnCleanReports(reports: seq<Report>, rerun: seq<Report>, numTotalDevices: int)
    requires forall i :: 0 <= i < |rerun| ==> !HasError(rerun[i])
    requires |WithoutErrors(reports)| + |rerun| == numTotalDevices
    ensures Completion(WithoutErrors(reports) + rerun, numTotalDevices) == SUCCESSFUL
  {
    var kept := WithoutErrors(reports);
    WithoutErrorsKeepsClean(reports);
    var all := kept + rerun;
    forall i | 0 <= i < |all|
      ensures !HasError(all[i])
    {
      if i < |kept| {
        assert all[i] == kept[i] && kept[i] in kept;
      } else {
        assert all[i] == rerun[i - |kept|];
      }
    }
  }

  class MigrationJob {
    var config: JobConfig
    var numTotalDevices: int
    var numCompletedDevices: int
    var sourcePlatform: Option<Platform>
    var targetPlatform: Option<Platform>
    var c8yId: Option<string>
    var status: JobStatus
    var deviceReports: seq<Report>
    var version: int

    /** A new job: pending, with no device count yet (-1) and no reports. */
    constructor(config: JobConfig)
      ensures this.config == config
      ensures numTotalDevices == -1 && numCompletedDevices == 0
      ensures status == PENDING && deviceReports == [] && version == VERSION
      ensures c8yId.None? && sourcePlatform.None? && targetPlatform.None?
    {
      this.config := config;
      numTotalDevices := -1;
      numCompletedDevices := 0;
      sourcePlatform := None;
      targetPlatform := None;
      c8yId := None;
      status := PENDING;
      deviceReports := [];
      version := VERSION;
    }

    /** `addDeviceReport`: appends one report; nothing else changes. */
    method AddDeviceReport(report: Report)
      modifies this`deviceReports
      ensures deviceReports == old(deviceReports) + [report]
    {
      deviceReports := deviceReports + [report];
    }

    /** `removeReportsWithErrors`: keeps the reports without an error, resets
        the completed count to what is left and returns how many went. */
    method RemoveReportsWithErrors() returns (removed: int)
      modifies this`deviceReports, this`numCompletedDevices
      ensures deviceReports == WithoutErrors(old(deviceReports))
      ensures numCompletedDevices == |deviceReports|
      ensures removed == ErrorCount(old(deviceReports))
    {
      var size := |deviceReports|;
      var kept: seq<Report> := [];
      for i := 0 to size
        invariant kept == WithoutErrors(deviceReports[..i])
      {
        assert deviceReports[..i + 1][..i] == deviceReports[..i];
        var rep := deviceReports[i];
        if !(rep.error.Some? || rep.errors > 0) {
          kept := kept + [rep];
        }
      }
      assert deviceReports[..size] == deviceReports;
      WithoutErrorsKeepsClean(deviceReports);
      deviceReports := kept;
      numCompletedDevices := |deviceReports|;
      removed := size - |deviceReports|;
    }

    /** `isDeviceProcessed`. */
    method IsDeviceProcessed(sourceDeviceId: string) returns (r: Result<bool>)
      ensures r == ProcessedIn(deviceReports, sourceDeviceId)
    {
      var i := 0;
      while i < |deviceReports|
        invariant 0 <= i <= |deviceReports|
        invariant ProcessedIn(deviceReports[i..], sourceDeviceId) == ProcessedIn(deviceReports, sourceDeviceId)
      {
        assert deviceReports[i..][1..] == deviceReports[i + 1..];
        var rep := deviceReports[i];
        if rep.sourceDeviceId.None? {
          return Err(NPE);
        }
        if rep.sourceDeviceId.value == sourceDeviceId {
          return Ok(true);
        }
        i := i + 1;
      }
      return Ok(false);
    }

    /** `updateStatus`: only an executing job changes. More reports than
        devices is a sanity fault (`IllegalStateException`) that changes
        nothing; otherwise the completed count follows the reports and the
        status becomes final once every device has reported. */
    method UpdateStatus() returns (outcome: Outcome)
      modifies this`status, this`numCompletedDevices
      ensures old(status) != EXECUTING ==>
        outcome == Pass && status == old(status) && numCompletedDevices == old(numCompletedDevices)
      ensures old(status) == EXECUTING && |deviceReports| > numTotalDevices ==>
        outcome.Fail? && status == old(status) && numCompletedDevices == old(numCompletedDevices)
      ensures old(status) == EXECUTING && |deviceReports| <= numTotalDevices ==>
        && outcome == Pass
        && numCompletedDevices == |deviceReports|
        && status == Completion(deviceReports, numTotalDevices)
    {
      outcome := Pass;
      if status == EXECUTING {
        if |deviceReports| > numTotalDevices {
          return Fail("IllegalStateException");
        }
        numCompletedDevices := |deviceReports|;
        if |deviceReports| == numTotalDevices {
          var hasErrors := exists i :: 0 <= i < |deviceReports| && HasError(deviceReports[i]);
          if hasErrors {
            status := FAILED;
          } else {
            status := SUCCESSFUL;
          }
        }
      }
    }
  }
}
