/** The tracking record of a data-pipeline run and its status machine: scheduled runs are
    queued, then running, then completed, failed or terminated. Times are whole seconds. */
module PipelineModels {
  import opened Wrappers
  import opened PyStrings

  /** Execution statuses. */
  const Queued := "queued"
  const Running := "running"
  const Completed := "completed"
  const Failed := "failed"
  const Terminated := "terminated"

  const SecondsPerDay: int := 86400

  /** One run. The run time is kept as `executionSeconds`, the numerator of the recorded
      minutes: the seconds field of the end-minus-start timedelta, days dropped. */
  datatype Execution = Execution(
    researcher: string, studyId: int, submissionTimestamp: int,
    emailAddressList: Option<string>, queryStartDatetime: Option<string>,
    queryEndDatetime: Option<string>, participants: Option<string>,
    batchJobId: Option<string>, executionStatus: string, executionErrorText: Option<string>,
    executionStart: Option<int>, executionEnd: Option<int>, executionSeconds: Option<int>)

  /** `(end - start).seconds` as written: a timedelta's seconds field, which drops whole
      days (the days field is floored, so it is also never negative). */
  function DeltaSecondsAsWritten(start: int, end: int): (s: int)
    ensures 0 <= s < SecondsPerDay
    ensures (end - start - s) % SecondsPerDay == 0
  {
    (end - start) % SecondsPerDay
  }

  /** The run time evidently meant: the whole difference. */
  function ElapsedSeconds(start: int, end: int): (s: int)
    ensures start + s == end
  {
    end - start
  }

  /** Within a day of the start the two agree. */
  lemma DeltaSecondsWithinADay(start: int, end: int)
    requires 0 <= end - start < SecondsPerDay
    ensures DeltaSecondsAsWritten(start, end) == ElapsedSeconds(start, end)
  {
  }

  /** A run of 25 hours is recorded as one hour as written. */
  lemma DayLongRunUndercounted()
    ensures DeltaSecondsAsWritten(0, 90000) == 3600
    ensures ElapsedSeconds(0, 90000) == 90000
  {
  }

  /** The run time recorded at a crash or termination: none without a start time, otherwise
      the as-written seconds field, which is the elapsed time for a run shorter than a day. */
  function RunSeconds(e: Execution, end: int): (s: int)
    ensures 0 <= s < SecondsPerDay
    ensures e.executionStart.None? ==> s == 0
    ensures e.executionStart.Some? ==> (end - e.executionStart.value - s) % SecondsPerDay == 0
    ensures e.executionStart.Some? && 0 <= end - e.executionStart.value < SecondsPerDay
      ==> e.executionStart.value + s == end
  {
    if e.executionStart.Some? then DeltaSecondsAsWritten(e.executionStart.value, end) else 0
  }

  /** pipeline_started: the run is "running" from the given time; nothing else changes. */
  function StartedAt(e: Execution, startTimestamp: int): (r: Execution)
    ensures r.executionStatus == Running && r.executionStart == Some(startTimestamp)
    ensures r.(executionStatus := e.executionStatus, executionStart := e.executionStart) == e
  {
    e.(executionStatus := Running, executionStart := Some(startTimestamp))
  }

  /** pipeline_completed: a run without a start time raises TypeError on the subtraction;
      otherwise the run is "completed" at the end time with the as-written seconds field. */
  function CompletedAt(e: Execution, endTimestamp: int): (r: Result<Execution, string>)
    ensures r.Ok? <==> e.executionStart.Some?
    ensures r.Err? ==> r.error == "TypeError"
    ensures r.Ok? ==> (r.value.executionStatus == Completed && r.value.executionEnd == Some(endTimestamp)
      && r.value.executionSeconds == Some(RunSeconds(e, endTimestamp))
      && r.value.(executionStatus := e.executionStatus, executionEnd := e.executionEnd,
                  executionSeconds := e.executionSeconds) == e)
  {
    if e.executionStart.None? then Err("TypeError")
    else Ok(e.(executionStatus := Completed, executionEnd := Some(endTimestamp),
               executionSeconds := Some(DeltaSecondsAsWritten(e.executionStart.value, endTimestamp))))
  }

  /** pipeline_crashed: ignored when the status contains "completed"; otherwise the run is
      "failed" at the error time with the error text and its run time. */
  function CrashedAt(e: Execution, errorTimestamp: int, errorMessage: string): (r: Execution)
    ensures Contains(e.executionStatus, Completed) ==> r == e
    ensures !Contains(e.executionStatus, Completed) ==> (r.executionStatus == Failed
      && r.executionEnd == Some(errorTimestamp) && r.executionSeconds == Some(RunSeconds(e, errorTimestamp))
      && r.executionErrorText == Some(errorMessage)
      && r.(executionStatus := e.executionStatus, executionEnd := e.executionEnd,
            executionSeconds := e.executionSeconds, executionErrorText := e.executionErrorText) == e)
  {
    if Contains(e.executionStatus, Completed) then e
    else e.(executionStatus := Failed, executionEnd := Some(errorTimestamp),
            executionSeconds := Some(RunSeconds(e, errorTimestamp)), executionErrorText := Some(errorMessage))
  }

  /** terminate_job: whatever the status was, the run is "terminated" at the given time with
      the reason as its error text and its run time. */
  function TerminatedAt(e: Execution, terminateTimestamp: int, reason: string): (r: Execution)
    ensures r.executionStatus == Terminated && r.executionEnd == Some(terminateTimestamp)
      && r.executionSeconds == Some(RunSeconds(e, terminateTimestamp)) && r.executionErrorText == Some(reason)
    ensures r.(executionStatus := e.executionStatus, executionEnd := e.executionEnd,
               executionSeconds := e.executionSeconds, executionErrorText := e.executionErrorText) == e
  {
    e.(executionStatus := Terminated, executionEnd := Some(terminateTimestamp),
       executionSeconds := Some(RunSeconds(e, terminateTimestamp)), executionErrorText := Some(reason))
  }

  /** The statuses the machine uses. */
  predicate KnownStatus(s: string)
  {
    s == Queued || s == Running || s == Completed || s == Failed || s == Terminated
  }

  /** Among the statuses, only "completed" contains "completed". */
  lemma CompletedSubstringOnlyInCompleted(s: string)
    requires KnownStatus(s)
    ensures Contains(s, Completed) <==> s == Completed
  {
    if s == Completed {
      assert OccursAt(s, Completed, 0);
    } else {
      assert Completed[0] == 'c';
      assert 'c' !in s;
      NotContainsByChar(s, Completed, 0);
    }
  }

  /** A crash report on a run that is queued, running, failed or terminated marks it failed
      with the error text, the end time and the seconds field of the run time since its start
      (none without one): the whole run time for a run shorter than a day, and in every case
      a value below a day that differs from it by whole days. */
  lemma CrashFailsUnlessCompleted(e: Execution, t: int, msg: string)
    requires KnownStatus(e.executionStatus) && e.executionStatus != Completed
    ensures CrashedAt(e, t, msg).executionStatus == Failed
    ensures CrashedAt(e, t, msg).executionErrorText == Some(msg)
    ensures CrashedAt(e, t, msg).executionEnd == Some(t)
    ensures e.executionStart.None? ==> CrashedAt(e, t, msg).executionSeconds == Some(0)
    ensures e.executionStart.Some? ==> (0 <= CrashedAt(e, t, msg).executionSeconds.value < SecondsPerDay
      && (t - e.executionStart.value - CrashedAt(e, t, msg).executionSeconds.value) % SecondsPerDay == 0)
    ensures e.executionStart.Some? && 0 <= t - e.executionStart.value < SecondsPerDay
      ==> e.executionStart.value + CrashedAt(e, t, msg).executionSeconds.value == t
    ensures CrashedAt(e, t, msg).executionStart == e.executionStart && CrashedAt(e, t, msg).batchJobId == e.batchJobId
  {
    CompletedSubstringOnlyInCompleted(e.executionStatus);
  }

  /** Started and then completed, a run is "completed" with both times; the recorded run
      time is their difference when the run took less than a day, and otherwise that
      difference with the whole days dropped. */
  lemma StartThenComplete(e: Execution, t1: int, t2: int)
    ensures CompletedAt(StartedAt(e, t1), t2).Ok?
    ensures var c := CompletedAt(StartedAt(e, t1), t2).value;
      c.executionStatus == Completed && c.executionStart == Some(t1) && c.executionEnd == Some(t2)
      && c.executionErrorText == e.executionErrorText
      && 0 <= c.executionSeconds.value < SecondsPerDay && (t2 - t1 - c.executionSeconds.value) % SecondsPerDay == 0
      && (0 <= t2 - t1 < SecondsPerDay ==> t1 + c.executionSeconds.value == t2)
  {
  }

  /** A crash reported after completion leaves the record as it was. */
  lemma CrashAfterCompletionIgnored(e: Execution, t1: int, t2: int, msg: string)
    requires CompletedAt(e, t1).Ok?
    ensures CrashedAt(CompletedAt(e, t1).value, t2, msg) == CompletedAt(e, t1).value
  {
    assert OccursAt(Completed, Completed, 0);
  }

  /** Termination overrides every status, completion included. */
  lemma TerminationAlwaysTerminates(e: Execution, t: int, reason: string)
    ensures TerminatedAt(e, t, reason).executionStatus == Terminated
    ensures CrashedAt(TerminatedAt(e, t, reason), t, reason).executionStatus == Failed
  {
    CompletedSubstringOnlyInCompleted(Terminated);
  }

  /** Every transition leads to a known status. */
  lemma TransitionsKeepKnownStatus(e: Execution, t: int, text: string)
    requires KnownStatus(e.executionStatus)
    ensures KnownStatus(StartedAt(e, t).executionStatus)
    ensures CompletedAt(e, t).Ok? ==> KnownStatus(CompletedAt(e, t).value.executionStatus)
    ensures KnownStatus(CrashedAt(e, t, text).executionStatus)
    ensures KnownStatus(TerminatedAt(e, t, text).executionStatus)
  {
  }

  /** The tracking table; rows are keyed by an auto-incremented primary key. */
  class PipelineExecutionTracking {
    var rows: map<int, Execution>
    var nextPk: int

    /** Every key was handed out before `nextPk`, and every status is known. */
    predicate Valid()
      reads this
    {
      (forall pk :: pk in rows ==> pk < nextPk)
      && (forall pk :: pk in rows ==> KnownStatus(rows[pk].executionStatus))
    }

    constructor ()
      ensures rows == map[] && Valid()
    {
      rows := map[];
      nextPk := 1;
    }

    /** pipeline_scheduled: the researcher must exist (DoesNotExist) and the study must be
        one of theirs (DoesNotExist); a new "queued" row is created and its key returned. */
    method PipelineScheduled(researcherStudies: map<string, set<int>>, researcherName: string, studyId: int,
                             submissionTimestamp: int, emailAddressList: Option<string>,
                             queryStartDatetime: Option<string>, queryEndDatetime: Option<string>,
                             participants: Option<string>)
      returns (r: Result<int, string>)
      requires Valid()
      modifies this
      ensures Valid()
      ensures r.Ok? <==> researcherName in researcherStudies && studyId in researcherStudies[researcherName]
      ensures r.Err? ==> rows == old(rows)
      ensures r.Ok? ==> (r.value !in old(rows) && rows == old(rows)[r.value := Execution(researcherName, studyId,
        submissionTimestamp, emailAddressList, queryStartDatetime, queryEndDatetime, participants,
        None, Queued, None, None, None, None)])
    {
      if researcherName !in researcherStudies || studyId !in researcherStudies[researcherName] {
        r := Err("DoesNotExist");
        return;
      }
      var pk := nextPk;
      rows := rows[pk := Execution(researcherName, studyId, submissionTimestamp, emailAddressList,
                                   queryStartDatetime, queryEndDatetime, participants,
                                   None, Queued, None, None, None, None)];
      nextPk := nextPk + 1;
      r := Ok(pk);
    }

    /** pipeline_started; a missing key raises. */
    method PipelineStarted(pk: int, startTimestamp: int) returns (r: Result<(), string>)
      requires Valid()
      modifies this
      ensures Valid()
      ensures r.Ok? <==> pk in old(rows)
      ensures r.Err? ==> rows == old(rows)
      ensures r.Ok? ==> rows == old(rows)[pk := StartedAt(old(rows)[pk], startTimestamp)]
    {
      if pk !in rows {
        r := Err("DoesNotExist");
        return;
      }
      rows := rows[pk := rows[pk].(executionStatus := Running, executionStart := Some(startTimestamp))];
      r := Ok(());
    }

    /** pipeline_completed; a missing key or a run never started raises. */
    method PipelineCompleted(pk: int, endTimestamp: int) returns (r: Result<(), string>)
      requires Valid()
      modifies this
      ensures Valid()
      ensures r.Ok? <==> pk in old(rows) && CompletedAt(old(rows)[pk], endTimestamp).Ok?
      ensures r.Err? ==> rows == old(rows)
      ensures r.Ok? ==> rows == old(rows)[pk := CompletedAt(old(rows)[pk], endTimestamp).value]
    {
      if pk !in rows {
        r := Err("DoesNotExist");
        return;
      }
      var e := rows[pk];
      if e.executionStart.None? {
        r := Err("TypeError");
        return;
      }
      rows := rows[pk := e.(executionStatus := Completed, executionEnd := Some(endTimestamp),
                            executionSeconds := Some(DeltaSecondsAsWritten(e.executionStart.value, endTimestamp)))];
      r := Ok(());
    }

    /** pipeline_crashed; a missing key raises. */
    method PipelineCrashed(pk: int, errorTimestamp: int, errorMessage: string) returns (r: Result<(), string>)
      requires Valid()
      modifies this
      ensures Valid()
      ensures r.Ok? <==> pk in old(rows)
      ensures r.Err? ==> rows == old(rows)
      ensures r.Ok? ==> rows == old(rows)[pk := CrashedAt(old(rows)[pk], errorTimestamp, errorMessage)]
    {
      if pk !in rows {
        r := Err("DoesNotExist");
        return;
      }
      var e := rows[pk];
      if !Contains(e.executionStatus, Completed) {
        var seconds := 0;
        if e.executionStart.Some? {
          seconds := DeltaSecondsAsWritten(e.executionStart.value, errorTimestamp);
        }
        rows := rows[pk := e.(executionStatus := Failed, executionEnd := Some(errorTimestamp),
                              executionSeconds := Some(seconds), executionErrorText := Some(errorMessage))];
      }
      r := Ok(());
    }

    /** pipeline_set_batch_job_id; a missing key raises. */
    method PipelineSetBatchJobId(pk: int, batchJobId: string) returns (r: Result<(), string>)
      requires Valid()
      modifies this
      ensures Valid()
      ensures r.Ok? <==> pk in old(rows)
      ensures r.Err? ==> rows == old(rows)
      ensures r.Ok? ==> rows == old(rows)[pk := old(rows)[pk].(batchJobId := Some(batchJobId))]
    {
      if pk !in rows {
        r := Err("DoesNotExist");
        return;
      }
      rows := rows[pk := rows[pk].(batchJobId := Some(batchJobId))];
      r := Ok(());
    }

    /** terminate_job; a missing key raises. */
    method TerminateJob(pk: int, terminateTimestamp: int, reason: string) returns (r: Result<(), string>)
      requires Valid()
      modifies this
      ensures Valid()
      ensures r.Ok? <==> pk in old(rows)
      ensures r.Err? ==> rows == old(rows)
      ensures r.Ok? ==> rows == old(rows)[pk := TerminatedAt(old(rows)[pk], terminateTimestamp, reason)]
    {
      if pk !in rows {
        r := Err("DoesNotExist");
        return;
      }
      var e := rows[pk];
      var seconds := 0;
      if e.executionStart.Some? {
        seconds := DeltaSecondsAsWritten(e.executionStart.value, terminateTimestamp);
      }
      rows := rows[pk := e.(executionStatus := Terminated, executionEnd := Some(terminateTimestamp),
                            executionSeconds := Some(seconds), executionErrorText := Some(reason))];
      r := Ok(());
    }
  }
}
