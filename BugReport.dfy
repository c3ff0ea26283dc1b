/** The bug-report page's state: the capabilities of the connected device,
    and the in-progress flag and progress counters of a compressed report. */
module BugReportPage {
  import opened Outcomes
  import opened AppState

  /** What `BugReport.queryCapabilities` found out about the device. */
  datatype Capabilities = Capabilities(
    supportsBugReportZ: bool,
    supportsBugReportZProgress: bool,
    supportsBugReportZStream: bool)

  /** One call of the progress callback of `bugreportz`. */
  datatype ProgressEvent = ProgressEvent(progress: string, total: string)

  class BugReportState {
    var bugReport: Option<Capabilities>
    var bugReportZInProgress: bool
    var bugReportZProgress: Option<string>
    var bugReportZTotalSize: Option<string>

    /** Progress counters only exist while a run is marked in progress. */
    ghost predicate Valid()
      reads this
    {
      (bugReportZProgress.Some? || bugReportZTotalSize.Some?) ==> bugReportZInProgress
    }

    /** The page shows "progress / total" rather than a waiting message;
        while the state is valid, that is exactly when a non-empty total was
        reported. */
    predicate ShowsProgressCounts()
      reads this
      ensures Valid() ==> (ShowsProgressCounts() <==>
        bugReportZTotalSize.Some? && bugReportZTotalSize.value != "")
    {
      bugReportZInProgress && bugReportZTotalSize.Some? && bugReportZTotalSize.value != ""
    }

    /** The streamed compressed-report button is enabled. It is never
        affected by a compressed run in progress. */
    predicate BugReportZStreamEnabled()
      reads this
      ensures BugReportZStreamEnabled() ==> bugReport.Some?
    {
      bugReport.Some? && bugReport.value.supportsBugReportZStream
    }

    /** The compressed-report button is enabled: the device supports it and
        no run is in progress, so no progress counts are on show. */
    predicate BugReportZEnabled()
      reads this
      ensures BugReportZEnabled() ==> bugReport.Some? && !ShowsProgressCounts()
    {
      bugReport.Some? && bugReport.value.supportsBugReportZ && !bugReportZInProgress
    }

    /** The plain report button is enabled. Every other report button is
        enabled only when this one is. */
    predicate BugReportEnabled()
      reads this
      ensures BugReportZStreamEnabled() || BugReportZEnabled() ==> BugReportEnabled()
    {
      bugReport.Some?
    }

    /** The state is created with nothing known and runs its autorun once. */
    constructor (adb: Option<Adb>, query: Outcome<Capabilities>)
      ensures Valid() && !bugReportZInProgress
      ensures bugReportZProgress.None? && bugReportZTotalSize.None?
      ensures adb.Some? && query.Ok? ==> bugReport == Some(query.value)
      ensures adb.None? || query.Err? ==> bugReport.None?
    {
      bugReport := None;
      bugReportZInProgress := false;
      bugReportZProgress, bugReportZTotalSize := None, None;
      new;
      Autorun(adb, query);
    }

    /** The autorun, run whenever the global adb connection changes: without
        a connection the capabilities are cleared; with one they are replaced
        by what the query returns, and a failed query leaves them as they were. */
    method Autorun(adb: Option<Adb>, query: Outcome<Capabilities>)
      modifies this`bugReport
      ensures adb.None? ==> bugReport.None?
      ensures adb.Some? && query.Ok? ==> bugReport == Some(query.value)
      ensures adb.Some? && query.Err? ==> bugReport == old(bugReport)
    {
      if adb.None? {
        bugReport := None;
      } else if query.Ok? {
        bugReport := Some(query.value);
      }
    }

    /** `generateBugReport`: pipe the plain report into a file. */
    method GenerateBugReport(save: Outcome<Unit>) returns (file: Option<string>, result: Outcome<Unit>)
      ensures file.Some? <==> BugReportEnabled()
      ensures BugReportEnabled() ==> file == Some("bugreport.txt") && result == save
      ensures !BugReportEnabled() ==> result == Err(TypeError("this.bugReport"))
      ensures result.Ok? ==> file == Some("bugreport.txt") && save.Ok?
    {
      if bugReport.None? {
        return None, Err(TypeError("this.bugReport"));
      }
      file, result := Some("bugreport.txt"), save;
    }

    /** `generateBugReportZStream`: pipe the streamed compressed report into a file. */
    method GenerateBugReportZStream(save: Outcome<Unit>) returns (file: Option<string>, result: Outcome<Unit>)
      ensures file.Some? <==> BugReportEnabled()
      ensures BugReportZStreamEnabled() ==> file == Some("bugreport.zip") && result == save
      ensures !BugReportEnabled() ==> result == Err(TypeError("this.bugReport"))
      ensures result.Ok? ==> file == Some("bugreport.zip") && save.Ok?
    {
      if bugReport.None? {
        return None, Err(TypeError("this.bugReport"));
      }
      file, result := Some("bugreport.zip"), save;
    }

    /** `generateBugReportZ`: mark the run in progress; run `bugreportz`,
        whose progress calls overwrite the counters when the device supports
        progress; open a sync session, read the report file into a download
        and dispose of the session; then clear the flag and the counters.
        Nothing catches a failure, so any failure leaves the flag set. */
    method GenerateBugReportZ(events: seq<ProgressEvent>, command: Outcome<string>, adb: Option<Adb>,
                              sync: Outcome<Unit>, read: Outcome<Unit>)
      returns (result: Outcome<Unit>, syncDisposed: bool)
      requires Valid()
      modifies this`bugReportZInProgress, this`bugReportZProgress, this`bugReportZTotalSize
      ensures Valid()
      ensures result.Ok? <==>
        bugReport.Some? && command.Ok? && adb.Some? && sync.Ok? && read.Ok?
      ensures syncDisposed <==> result.Ok?
      ensures result.Ok? ==> !bugReportZInProgress && bugReportZProgress.None? && bugReportZTotalSize.None?
      ensures result.Ok? ==> !ShowsProgressCounts() && (BugReportZEnabled() <==> bugReport.value.supportsBugReportZ)
      ensures result.Err? ==> bugReportZInProgress && !BugReportZEnabled()
      ensures result.Err? ==>
        if bugReport.Some? && bugReport.value.supportsBugReportZProgress && events != [] then
          bugReportZProgress == Some(events[|events| - 1].progress) &&
          bugReportZTotalSize == Some(events[|events| - 1].total)
        else
          bugReportZProgress == old(bugReportZProgress) && bugReportZTotalSize == old(bugReportZTotalSize)
    {
      syncDisposed := false;
      bugReportZInProgress := true;
      if bugReport.None? {
        return Err(TypeError("this.bugReport")), false;
      }
      if bugReport.value.supportsBugReportZProgress {
        var i := 0;
        while i < |events|
          invariant 0 <= i <= |events|
          invariant bugReportZInProgress
          invariant i == 0 ==> (bugReportZProgress == old(bugReportZProgress) &&
            bugReportZTotalSize == old(bugReportZTotalSize))
          invariant i > 0 ==> (bugReportZProgress == Some(events[i - 1].progress) &&
            bugReportZTotalSize == Some(events[i - 1].total))
        {
          bugReportZProgress := Some(events[i].progress);
          bugReportZTotalSize := Some(events[i].total);
          i := i + 1;
        }
      }
      if command.Err? {
        return Err(command.error), false;
      }
      if adb.None? {
        return Err(TypeError("GLOBAL_STATE.adb")), false;
      }
      if sync.Err? {
        return Err(sync.error), false;
      }
      if read.Err? {
        return Err(read.error), false;
      }
      syncDisposed := true;
      bugReportZInProgress := false;
      bugReportZProgress, bugReportZTotalSize := None, None;
      result := Ok(Unit);
    }
  }
}
