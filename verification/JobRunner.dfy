// runJob and fail of the scheduler (scheduler.go): one claimed job from its start to its
// finalising write, rung by rung, with throttled progress reports.
module JobRunner {
  import opened Basics
  import J = Jobs
  import opened Progress

  type Time = int

  /** How one fallible call ends; `Stopped` is an error with the job's context cancelled. */
  datatype Call = Ok | Error | Stopped

  datatype Engine = Encoded | EngineError(stage: J.ErrorClass) | OtherError | Interrupted

  /** One rung: the context check before it, the staging directory, the timed samples, the engine, the upload. */
  datatype RungRun = RungRun(cancelled: bool, staging: bool, samples: seq<Timed>, engine: Engine, put: Call)

  datatype Timed = Timed(sample: Sample, at: Time)

  /** Everything the world answers while the job runs; `mark` is the finalising write's outcome. */
  datatype Script = Script(
    preset: bool, source: bool, present: bool, scratch: bool, download: Call,
    rungs: seq<RungRun>, duration: real, mark: Outcome)

  datatype Kind = JobStarted | JobCompleted | JobFailed

  datatype Report = Report(pct: real, at: Time)

  datatype RungState = Pending | Running | Done | Failed

  datatype Output = Output(state: RungState, pct: real)

  // ---- the reference: which call decides how the job ends ----

  function RungFailure(r: RungRun): (c: Option<J.ErrorClass>)
  {
    if r.cancelled || !r.staging then Some(J.Internal)
    else match r.engine
      case Interrupted => Some(J.Internal)
      case EngineError(stage) => Some(stage)
      case OtherError => Some(J.Internal)
      case Encoded => if r.put == Ok then None else Some(J.Internal)
  }

  /** The class of the first rung that fails, scanning from rung i. */
  function LadderFailure(rungs: seq<RungRun>, i: nat): Option<J.ErrorClass>
    requires i <= |rungs|
    decreases |rungs| - i
  {
    if i == |rungs| then None
    else if RungFailure(rungs[i]).Some? then RungFailure(rungs[i])
    else LadderFailure(rungs, i + 1)
  }

  /** The class the job fails with, or None when every call succeeds. */
  function Failure(s: Script): Option<J.ErrorClass>
  {
    if !s.preset then Some(J.Internal)
    else if !s.source || !s.present then Some(J.Asset)
    else if !s.scratch then Some(J.Internal)
    else if s.download == Stopped then Some(J.Internal)
    else if s.download == Error then Some(J.Asset)
    else LadderFailure(s.rungs, 0)
  }

  /** The first rung that is cancelled, unstaged, not encoded or not uploaded decides, with the stage its engine names. */
  lemma {:induction false} LadderFailureIs(rungs: seq<RungRun>, i: nat) returns (k: nat)
    requires i <= |rungs|
    ensures i <= k <= |rungs|
    ensures forall j :: i <= j < k ==>
      !rungs[j].cancelled && rungs[j].staging && rungs[j].engine == Encoded && rungs[j].put == Ok
    ensures k < |rungs| ==>
      !(!rungs[k].cancelled && rungs[k].staging && rungs[k].engine == Encoded && rungs[k].put == Ok)
    ensures LadderFailure(rungs, i) ==
      if k == |rungs| then None
      else if !rungs[k].cancelled && rungs[k].staging && rungs[k].engine.EngineError? then Some(rungs[k].engine.stage)
      else Some(J.Internal)
    decreases |rungs| - i
  {
    k := i;
    if i < |rungs| && RungFailure(rungs[i]).None? {
      k := LadderFailureIs(rungs, i + 1);
    }
  }

  /**
   * How a job ends, call by call: a lost preset or scratch directory or a cancelled download is internal, a missing
   * source, object or download is the asset's fault, and then the first rung that does not succeed decides.
   */
  lemma FailureIs(s: Script) returns (k: nat)
    ensures k <= |s.rungs|
    ensures forall j :: 0 <= j < k ==>
      !s.rungs[j].cancelled && s.rungs[j].staging && s.rungs[j].engine == Encoded && s.rungs[j].put == Ok
    ensures k < |s.rungs| ==>
      var r := s.rungs[k]; !(!r.cancelled && r.staging && r.engine == Encoded && r.put == Ok)
    ensures Failure(s) ==
      if !s.preset then Some(J.Internal)
      else if !(s.source && s.present) then Some(J.Asset)
      else if !s.scratch then Some(J.Internal)
      else if s.download == Error then Some(J.Asset)
      else if s.download == Stopped then Some(J.Internal)
      else if k == |s.rungs| then None
      else
        var r := s.rungs[k];
        if !r.cancelled && r.staging && r.engine.EngineError? then Some(r.engine.stage) else Some(J.Internal)
  {
    k := LadderFailureIs(s.rungs, 0);
  }

  function SamplesIn(r: RungRun): seq<Sample>
  {
    seq(|r.samples|, i requires 0 <= i < |r.samples| => r.samples[i].sample)
  }

  /** Percent never falls inside a rung; RungMonotoneIff says which sample streams these are. */
  ghost predicate Smooth(s: Script)
  {
    forall r :: r in s.rungs ==> PercentsNeverDecrease(SamplesIn(r), s.duration)
  }

  // ---- the reports ----

  ghost predicate Rising(reports: seq<Report>)
  {
    forall i, j :: 0 <= i < j < |reports| ==> reports[i].pct <= reports[j].pct
  }

  ghost predicate Bounded(reports: seq<Report>, top: real)
  {
    forall i :: 0 <= i < |reports| ==> 0.0 <= reports[i].pct <= top
  }

  /** Neighbouring reports are at least the throttle apart. */
  ghost predicate Spaced(reports: seq<Report>, every: int)
  {
    forall i :: 0 <= i < |reports| - 1 ==> reports[i + 1].at - reports[i].at >= every
  }

  /** The row differs from what it was in its percent alone. */
  ghost predicate OnlyProgress(before: J.Table, after: J.Table, id: J.JobId)
    requires id in before
  {
    && id in after && after == before[id := after[id]]
    && after[id] == before[id].(progressPct := after[id].progressPct)
  }

  /** The finalising write: nothing if it fails before it takes effect. */
  function Finalised(t: J.Table, op: J.Op, o: Outcome): J.Table
  {
    if o == FailsBefore then t else J.Apply(t, op)
  }

  class Runner {
    const table: J.JobTable
    const every: int
    var emitted: seq<Kind>
    var reports: seq<Report>
    var outputs: seq<Output>

    constructor (table: J.JobTable, every: int)
      ensures this.table == table && this.every == every && emitted == [] && reports == [] && outputs == []
    {
      this.table, this.every := table, every;
      emitted, reports, outputs := [], [], [];
    }

    ghost predicate ReportsOk(top: real, smooth: bool)
      reads this
    {
      Spaced(reports, every) && Bounded(reports, 100.0) && (smooth ==> Rising(reports) && Bounded(reports, top))
    }

    /** onProgress: note the rung's percent, and report the job's unless the last report is too recent. */
    method OnProgress(id: J.JobId, rung: nat, total: nat, t: Timed, duration: real, ghost smooth: bool)
      requires id in table.rows && table.rows[id].state == J.Running
      requires rung < total && |outputs| == total && ReportsOk(JobPercent(rung, Percent(t.sample, duration), total), smooth)
      modifies this`reports, this`outputs, table
      ensures OnlyProgress(old(table.rows), table.rows, id)
      ensures ReportsOk(JobPercent(rung, Percent(t.sample, duration), total), smooth)
      ensures outputs == old(outputs)[rung := old(outputs[rung]).(pct := Percent(t.sample, duration))]
      ensures var n := |old(reports)|;
        if n > 0 && t.at - old(reports)[n - 1].at < every then reports == old(reports) && table.rows == old(table.rows)
        else
          var pct := JobPercent(rung, Percent(t.sample, duration), total);
          && reports == old(reports) + [Report(pct, t.at)]
          && table.rows == old(table.rows)[id := old(table.rows)[id].(progressPct := pct)]
    {
      var pct := Percent(t.sample, duration);
      outputs := outputs[rung := outputs[rung].(pct := pct)];
      var jobPct := JobPercent(rung, pct, total);
      JobPercentBounds(rung, pct, total);
      if |reports| > 0 && t.at - reports[|reports| - 1].at < every {
        return;
      }
      table.UpdateProgress(id, jobPct);
      reports := reports + [Report(jobPct, t.at)];
    }

    /** The samples of one rung. */
    method Encode(id: J.JobId, rung: nat, total: nat, r: RungRun, duration: real, ghost smooth: bool)
      requires id in table.rows && table.rows[id].state == J.Running
      requires rung < total && |outputs| == total && ReportsOk(JobPercent(rung, 0.0, total), smooth)
      requires smooth ==> PercentsNeverDecrease(SamplesIn(r), duration)
      modifies this`reports, this`outputs, table
      ensures OnlyProgress(old(table.rows), table.rows, id)
      ensures ReportsOk(JobPercent(rung, 100.0, total), smooth)
      ensures |outputs| == total && forall k :: 0 <= k < total && k != rung ==> outputs[k] == old(outputs[k])
      ensures outputs[rung].state == old(outputs[rung].state)
    {
      ghost var top := 0.0;
      ghost var samples := SamplesIn(r);
      for i := 0 to |r.samples|
        invariant OnlyProgress(old(table.rows), table.rows, id)
        invariant 0.0 <= top <= 100.0 && (0 < i ==> top == Percent(samples[i - 1], duration))
        invariant i == 0 ==> top == 0.0
        invariant ReportsOk(JobPercent(rung, top, total), smooth)
        invariant |outputs| == total && forall k :: 0 <= k < total && k != rung ==> outputs[k] == old(outputs[k])
        invariant outputs[rung].state == old(outputs[rung].state)
      {
        ghost var next := Percent(r.samples[i].sample, duration);
        assert samples[i] == r.samples[i].sample;
        if smooth {
          assert top <= next;
          JobPercentMonotone(rung, top, rung, next, total);
        }
        OnProgress(id, rung, total, r.samples[i], duration, smooth);
        top := next;
      }
      JobPercentMonotone(rung, top, rung, 100.0, total);
    }

    /** fail: the row, then the event whatever became of the row. */
    method Fail(id: J.JobId, c: J.ErrorClass, now: Time, o: Outcome)
      modifies this`emitted, table
      ensures table.rows == Finalised(old(table.rows), J.Fail(id, c, now), o)
      ensures emitted == old(emitted) + [JobFailed]
    {
      if o != FailsBefore {
        var _ := table.MarkFailed(id, c, now);
      }
      emitted := emitted + [JobFailed];
    }

    /** One rung: staging, encode, upload. */
    method RunRung(id: J.JobId, rung: nat, total: nat, r: RungRun, duration: real, ghost smooth: bool)
      returns (failed: Option<J.ErrorClass>)
      requires id in table.rows && table.rows[id].state == J.Running
      requires rung < total && |outputs| == total && ReportsOk(JobPercent(rung, 0.0, total), smooth)
      requires smooth ==> PercentsNeverDecrease(SamplesIn(r), duration)
      requires outputs[rung].state == Pending
      modifies this`reports, this`outputs, table
      ensures failed == RungFailure(r)
      ensures OnlyProgress(old(table.rows), table.rows, id)
      ensures ReportsOk(JobPercent(rung, 100.0, total), smooth)
      ensures |outputs| == total && forall k :: 0 <= k < total && k != rung ==> outputs[k] == old(outputs[k])
      ensures if failed.None? then outputs[rung] == Output(Done, 100.0) else outputs[rung].state != Done
    {
      JobPercentMonotone(rung, 0.0, rung, 100.0, total);
      if r.cancelled || !r.staging {
        return Some(J.Internal);
      }
      outputs := outputs[rung := outputs[rung].(state := Running)];
      Encode(id, rung, total, r, duration, smooth);
      if r.engine == Interrupted {
        return Some(J.Internal);
      }
      if r.engine != Encoded {
        outputs := outputs[rung := outputs[rung].(state := Failed)];
        return Some(if r.engine.EngineError? then r.engine.stage else J.Internal);
      }
      if r.put != Ok {
        return Some(J.Internal);
      }
      outputs := outputs[rung := Output(Done, 100.0)];
      return None;
    }

    /** The rungs in order; returns the class of the first failure, if any. */
    method RunLadder(id: J.JobId, s: Script) returns (failed: Option<J.ErrorClass>)
      requires id in table.rows && table.rows[id].state == J.Running && reports == []
      modifies this`reports, this`outputs, table
      ensures failed == LadderFailure(s.rungs, 0)
      ensures OnlyProgress(old(table.rows), table.rows, id)
      ensures Spaced(reports, every) && Bounded(reports, 100.0) && (Smooth(s) ==> Rising(reports))
      ensures |outputs| == |s.rungs|
      ensures failed.None? ==> forall k :: 0 <= k < |outputs| ==> outputs[k] == Output(Done, 100.0)
      ensures failed.Some? ==> exists k :: FailedAt(outputs, s.rungs, k)
    {
      hide JobPercent, RungFailure, Spaced, Bounded, Rising, PercentsNeverDecrease, SamplesIn;
      var total := |s.rungs|;
      outputs := seq(total, _ => Output(Pending, 0.0));
      ghost var smooth := Smooth(s);
      NoReports(every);
      for i := 0 to total
        invariant OnlyProgress(old(table.rows), table.rows, id)
        invariant |outputs| == total
        invariant forall k :: 0 <= k < i ==> outputs[k] == Output(Done, 100.0) && RungFailure(s.rungs[k]).None?
        invariant forall k :: i <= k < total ==> outputs[k] == Output(Pending, 0.0)
        invariant LadderFailure(s.rungs, 0) == LadderFailure(s.rungs, i)
        invariant ReportsOk(if i == 0 then 0.0 else JobPercent(i - 1, 100.0, total), smooth)
      {
        NextRung(i, total);
        failed := RunRung(id, i, total, s.rungs[i], s.duration, smooth);
        if failed.Some? {
          assert FailedAt(outputs, s.rungs, i);
          return;
        }
      }
      return None;
    }

    /**
     * runJob. The job ends completed exactly when every call succeeded, and otherwise failed with the
     * class of the first call that did not, as far as the finalising write takes effect. A failure is always
     * announced, even when its write is lost; a completion only when its write answered.
     */
    method RunJob(id: J.JobId, s: Script, now: Time)
      requires id in table.rows && table.rows[id].state == J.Running && reports == []
      modifies this, table
      ensures emitted == old(emitted) + [JobStarted]
                + (if Failure(s).Some? then [JobFailed] else if s.mark == Succeeds then [JobCompleted] else [])
      ensures exists mid :: OnlyProgress(old(table.rows), mid, id) && table.rows ==
                Finalised(mid, if Failure(s).Some? then J.Fail(id, Failure(s).value, now) else J.Complete(id, now), s.mark)
      ensures Spaced(reports, every) && Bounded(reports, 100.0) && (Smooth(s) ==> Rising(reports))
    {
      emitted := emitted + [JobStarted];
      ghost var mid := table.rows;
      assert OnlyProgress(old(table.rows), mid, id);
      if !s.preset {
        Fail(id, J.Internal, now, s.mark);
        return;
      }
      if !s.source || !s.present {
        Fail(id, J.Asset, now, s.mark);
        return;
      }
      if !s.scratch {
        Fail(id, J.Internal, now, s.mark);
        return;
      }
      if s.download != Ok {
        Fail(id, if s.download == Stopped then J.Internal else J.Asset, now, s.mark);
        return;
      }
      var failed := RunLadder(id, s);
      mid := table.rows;
      if failed.Some? {
        Fail(id, failed.value, now, s.mark);
        return;
      }
      if s.mark == FailsBefore {
        return;
      }
      var done := table.MarkCompleted(id, now);
      assert done.Ok?;
      if s.mark == Succeeds {
        emitted := emitted + [JobCompleted];
      }
    }
  }

  /** The rungs before k are done, k is the first to fail, and the ones after it were never started. */
  ghost predicate FailedAt(outputs: seq<Output>, rungs: seq<RungRun>, k: nat)
  {
    && k < |outputs| == |rungs| && RungFailure(rungs[k]).Some? && outputs[k].state != Done
    && (forall i :: 0 <= i < k ==> outputs[i] == Output(Done, 100.0) && RungFailure(rungs[i]).None?)
    && (forall i :: k < i < |outputs| ==> outputs[i] == Output(Pending, 0.0))
  }

  lemma NoReports(every: int)
    ensures Spaced([], every) && Rising([]) && forall top :: Bounded([], top)
  {
  }

  /** A finished rung's percent is where the next one starts. */
  lemma NextRung(i: nat, total: nat)
    requires i < total
    ensures i == 0 ==> JobPercent(0, 0.0, total) == 0.0
    ensures i > 0 ==> JobPercent(i - 1, 100.0, total) == JobPercent(i, 0.0, total)
  {
    if i == 0 {
      assert 0.0 / total as real == 0.0;
    }
  }
}
