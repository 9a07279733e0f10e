// The job table (store.go) and the lifecycle it has to refine (job.go).
// Every UPDATE of the store is guarded by the row's current state; the table is
// a map from job id to row, and one statement is one atomic step.
module Jobs {
  import opened Basics

  type JobId = nat
  type Workspace = nat
  type Time = int

  datatype State = Queued | Running | Completed | Failed

  /** The taxonomy, and anything else an engine might report. */
  datatype ErrorClass = Validation | Asset | Decode | Encode | Internal | Unknown(text: string)

  predicate ValidErrorClass(c: ErrorClass)
  {
    !c.Unknown?
  }

  /** job.go: the legal moves. */
  predicate CanTransition(s: State, t: State)
  {
    match s
    case Queued => t == Running || t == Failed
    case Running => t == Completed || t == Failed
    case Failed => t == Queued
    case Completed => false
  }

  predicate CanRetry(s: State) { s == Failed }

  predicate CanCancel(s: State) { s == Queued || s == Running }

  /** Retry and cancel are offered exactly where a move to queued or to failed is legal. */
  lemma OfferedIffLegal(s: State)
    ensures (CanRetry(s) <==> CanTransition(s, Queued)) && (CanCancel(s) <==> CanTransition(s, Failed))
  {
  }

  datatype Job = Job(
    workspace: Workspace, source: string, preset: nat, state: State, errorClass: Option<ErrorClass>,
    attempts: nat, progressPct: real, queuedAt: Time, startedAt: Option<Time>, finishedAt: Option<Time>)

  type Table = map<JobId, Job>

  datatype StoreError = NotFound | Conflict | InvalidClass | Transport

  datatype Result<+T> = Ok(value: T) | Err(error: StoreError)

  // ---- the statements, as functions on the table ----

  function NewJob(ws: Workspace, source: string, preset: nat, now: Time): Job
  {
    Job(ws, source, preset, Queued, None, 0, 0.0, now, None, None)
  }

  function Claimed(j: Job, now: Time): Job
  {
    j.(state := Running, startedAt := Some(now), errorClass := None, attempts := j.attempts + 1)
  }

  function Finished(j: Job, now: Time): Job
  {
    j.(state := Completed, progressPct := 100.0, finishedAt := Some(now))
  }

  function FailedWith(j: Job, c: ErrorClass, now: Time): Job
  {
    j.(state := Failed, errorClass := Some(c), finishedAt := Some(now))
  }

  function Requeued(j: Job, now: Time): Job
  {
    j.(state := Queued, errorClass := None, progressPct := 0.0, queuedAt := now, startedAt := None, finishedAt := None)
  }

  /** A row ClaimNextQueued may take: queued, not locked by another claimer, and the oldest of those. */
  ghost predicate Oldest(t: Table, locked: set<JobId>, id: JobId)
  {
    && Claimable(t, locked, id)
    && forall o :: Claimable(t, locked, o) ==> t[id].queuedAt <= t[o].queuedAt
  }

  ghost predicate OldestAmong(t: Table, seen: set<JobId>, locked: set<JobId>, id: JobId)
    requires id in t
  {
    forall o :: o in seen && Claimable(t, locked, o) ==> t[id].queuedAt <= t[o].queuedAt
  }

  predicate Claimable(t: Table, locked: set<JobId>, id: JobId)
  {
    id in t && t[id].state == Queued && id !in locked
  }

  /** One store statement. `Claim` names the row the ORDER BY picked. */
  datatype Op =
    | Create(id: JobId, ws: Workspace, source: string, preset: nat, now: Time)
    | Claim(id: JobId, locked: set<JobId>, now: Time)
    | Progress(id: JobId, pct: real)
    | Complete(id: JobId, now: Time)
    | Fail(id: JobId, reason: ErrorClass, now: Time)
    | Retry(id: JobId, ws: Workspace, now: Time)
    | CancelQueued(id: JobId, ws: Workspace, now: Time)

  /** Whether the statement's WHERE clause matches the row. */
  predicate Guard(t: Table, op: Op)
  {
    match op
    case Create(id, _, _, _, _) => id !in t
    case Claim(id, locked, _) => Claimable(t, locked, id)
    case Progress(id, _) => id in t && t[id].state == Running
    case Complete(id, _) => id in t && t[id].state == Running
    case Fail(id, c, _) => ValidErrorClass(c) && id in t && (t[id].state == Queued || t[id].state == Running)
    case Retry(id, ws, _) => id in t && t[id].workspace == ws && t[id].state == Failed
    case CancelQueued(id, ws, _) => id in t && t[id].workspace == ws && t[id].state == Queued
  }

  function Updated(t: Table, op: Op): Job
    requires Guard(t, op)
  {
    match op
    case Create(_, ws, source, preset, now) => NewJob(ws, source, preset, now)
    case Claim(id, _, now) => Claimed(t[id], now)
    case Progress(id, pct) => t[id].(progressPct := pct)
    case Complete(id, now) => Finished(t[id], now)
    case Fail(id, c, now) => FailedWith(t[id], c, now)
    case Retry(id, _, now) => Requeued(t[id], now)
    case CancelQueued(id, _, now) => FailedWith(t[id], Internal, now)
  }

  function Apply(t: Table, op: Op): Table
  {
    if Guard(t, op) then t[op.id := Updated(t, op)] else t
  }

  // ---- the lifecycle over whole runs ----

  /** The table after a sequence of statements, from the empty table. */
  function Run(ops: seq<Op>): Table
  {
    if ops == [] then map[] else Apply(Run(ops[..|ops| - 1]), ops[|ops| - 1])
  }

  /** How many of the statements claimed the job, counted on the statements and the rows they found. */
  function Claims(ops: seq<Op>, id: JobId): nat
  {
    if ops == [] then 0
    else
      var front, op := ops[..|ops| - 1], ops[|ops| - 1];
      Claims(front, id) + if op.Claim? && op.id == id && Guard(Run(front), op) then 1 else 0
  }

  /** What every row satisfies. */
  predicate RowOk(j: Job)
  {
    && (j.errorClass.Some? <==> j.state == Failed)
    && (j.errorClass.Some? ==> ValidErrorClass(j.errorClass.value))
    && (j.finishedAt.Some? <==> j.state == Completed || j.state == Failed)
    && (j.state == Queued ==> j.startedAt.None?)
    && (j.state == Running || j.state == Completed ==> j.startedAt.Some? && j.attempts >= 1)
  }

  /** One statement moves a row along CanTransition or leaves its state alone, and never removes a row. */
  lemma StepRefinesLifecycle(t: Table, op: Op, id: JobId)
    requires id in t
    ensures id in Apply(t, op)
    ensures Apply(t, op)[id].state == t[id].state || CanTransition(t[id].state, Apply(t, op)[id].state)
    ensures t[id].state == Completed ==> Apply(t, op)[id] == t[id]
    ensures Apply(t, op)[id].workspace == t[id].workspace && Apply(t, op)[id].source == t[id].source
    ensures Apply(t, op)[id].preset == t[id].preset
  {
  }

  /** Conversely, every legal move is made by some statement: the store implements exactly the lifecycle. */
  lemma EveryTransitionIsAStatement(t: Table, id: JobId, to: State, now: Time)
    requires id in t && to != t[id].state
    ensures CanTransition(t[id].state, to) <==> exists op: Op :: Apply(t, op)[id].state == to
  {
    if CanTransition(t[id].state, to) {
      var op :=
        if to == Running then Claim(id, {}, now)
        else if to == Completed then Complete(id, now)
        else if to == Failed then Fail(id, Internal, now)
        else Retry(id, t[id].workspace, now);
      assert Apply(t, op)[id].state == to;
    }
    if op: Op :| Apply(t, op)[id].state == to {
      StepRefinesLifecycle(t, op, id);
    }
  }

  /** In every run: error class iff failed, finished_at iff completed or failed, attempts is the number of claims. */
  lemma {:induction false} RowsInEveryRun(ops: seq<Op>, id: JobId)
    ensures id in Run(ops) ==> RowOk(Run(ops)[id]) && Run(ops)[id].attempts == Claims(ops, id)
    ensures id !in Run(ops) ==> Claims(ops, id) == 0
  {
    if ops != [] {
      RowsInEveryRun(ops[..|ops| - 1], id);
    }
  }

  /** Reachability along legal moves. */
  ghost predicate Path(states: seq<State>)
  {
    forall i :: 0 <= i < |states| - 1 ==> states[i] == states[i + 1] || CanTransition(states[i], states[i + 1])
  }

  /** The states a row passes through while the statements run. */
  function Trail(t: Table, id: JobId, ops: seq<Op>): (r: seq<State>)
    requires id in t
    ensures |r| == |ops| + 1 && r[0] == t[id].state
    decreases |ops|
  {
    if ops == [] then [t[id].state]
    else StepRefinesLifecycle(t, ops[0], id); [t[id].state] + Trail(Apply(t, ops[0]), id, ops[1..])
  }

  function After(t: Table, ops: seq<Op>): Table
    decreases |ops|
  {
    if ops == [] then t else After(Apply(t, ops[0]), ops[1..])
  }

  /** Over any run a row's states form a path of the lifecycle. */
  lemma {:induction false} RunRefinesLifecycle(t: Table, id: JobId, ops: seq<Op>)
    requires id in t
    ensures Path(Trail(t, id, ops))
    decreases |ops|
  {
    if ops != [] {
      StepRefinesLifecycle(t, ops[0], id);
      RunRefinesLifecycle(Apply(t, ops[0]), id, ops[1..]);
      var rest := Trail(Apply(t, ops[0]), id, ops[1..]);
      forall i | 0 <= i < |Trail(t, id, ops)| - 1
        ensures Trail(t, id, ops)[i] == Trail(t, id, ops)[i + 1]
                || CanTransition(Trail(t, id, ops)[i], Trail(t, id, ops)[i + 1])
      {
        if i > 0 {
          assert Trail(t, id, ops)[i] == rest[i - 1] && Trail(t, id, ops)[i + 1] == rest[i];
        }
      }
    }
  }

  /** A completed row is never touched again, by any statements whatever. */
  lemma {:induction false} CompletedIsFrozen(t: Table, id: JobId, ops: seq<Op>)
    requires id in t && t[id].state == Completed
    ensures id in After(t, ops) && After(t, ops)[id] == t[id]
    decreases |ops|
  {
    if ops != [] {
      StepRefinesLifecycle(t, ops[0], id);
      CompletedIsFrozen(Apply(t, ops[0]), id, ops[1..]);
    }
  }

  /** While two claimers hold each other's rows locked they never take the same row. */
  lemma ConcurrentClaimsDiffer(t: Table, a: JobId, b: JobId, locked: set<JobId>, now: Time)
    requires Oldest(t, locked, a) && Oldest(t, locked + {a}, b)
    ensures a != b && t[a].queuedAt <= t[b].queuedAt
    ensures Apply(Apply(t, Claim(a, locked, now)), Claim(b, locked + {a}, now))
         == Apply(Apply(t, Claim(b, locked + {a}, now)), Claim(a, locked, now))
  {
    assert Claimable(t, locked, b);
    var claimA, claimB := Claim(a, locked, now), Claim(b, locked + {a}, now);
    assert Apply(Apply(t, claimA), claimB) == t[a := Claimed(t[a], now)][b := Claimed(t[b], now)];
    assert Apply(Apply(t, claimB), claimA) == t[b := Claimed(t[b], now)][a := Claimed(t[a], now)];
  }

  // ---- the store itself ----

  /** The jobs table of the service. */
  class JobTable {
    var rows: Table

    constructor ()
      ensures rows == map[]
    {
      rows := map[];
    }

    /** INSERT ... 'queued' with a fresh id. */
    method CreateJob(id: JobId, ws: Workspace, source: string, preset: nat, now: Time) returns (j: Job)
      requires id !in rows
      modifies this
      ensures rows == Apply(old(rows), Create(id, ws, source, preset, now))
      ensures rows == old(rows)[id := j]
      ensures j == Job(ws, source, preset, Queued, None, 0, 0.0, now, None, None)
    {
      j := NewJob(ws, source, preset, now);
      rows := rows[id := j];
    }

    /** The oldest queued row nobody else has locked, moved to running. */
    method ClaimNextQueued(locked: set<JobId>, now: Time) returns (r: Result<JobId>)
      modifies this
      ensures r.Ok? ==> Oldest(old(rows), locked, r.value) && rows == Apply(old(rows), Claim(r.value, locked, now))
      ensures r.Ok? ==>
        && r.value in old(rows) && old(rows)[r.value].state == Queued && r.value !in locked
        && (forall o :: o in old(rows) && old(rows)[o].state == Queued && o !in locked ==>
              old(rows)[r.value].queuedAt <= old(rows)[o].queuedAt)
      ensures r.Ok? ==>
        var j := old(rows)[r.value];
        rows == old(rows)[r.value := j.(state := Running, startedAt := Some(now), errorClass := None,
                                        attempts := j.attempts + 1)]
      ensures r.Err? ==> r.error == NotFound && rows == old(rows)
      ensures r.Err? <==> forall id :: id in old(rows) && old(rows)[id].state == Queued ==> id in locked
    {
      var left := rows.Keys;
      var best: Option<JobId> := None;
      while left != {}
        invariant left <= rows.Keys
        invariant best.None? ==> forall id :: id in rows.Keys - left && rows[id].state == Queued ==> id in locked
        invariant best.Some? ==> Claimable(rows, locked, best.value)
        invariant best.Some? ==> OldestAmong(rows, rows.Keys - left, locked, best.value)
        decreases |left|
      {
        var id :| id in left;
        left := left - {id};
        if Claimable(rows, locked, id) && (best.None? || rows[id].queuedAt < rows[best.value].queuedAt) {
          best := Some(id);
        }
      }
      if best.None? {
        return Err(NotFound);
      }
      rows := rows[best.value := Claimed(rows[best.value], now)];
      return Ok(best.value);
    }

    /** Live progress; silently ignored unless the row is running. */
    method UpdateProgress(id: JobId, pct: real)
      modifies this
      ensures rows == Apply(old(rows), Progress(id, pct))
      ensures rows == if id in old(rows) && old(rows)[id].state == Running
                      then old(rows)[id := old(rows)[id].(progressPct := pct)] else old(rows)
    {
      if id in rows && rows[id].state == Running {
        rows := rows[id := rows[id].(progressPct := pct)];
      }
    }

    method MarkCompleted(id: JobId, now: Time) returns (r: Result<Job>)
      modifies this
      ensures rows == Apply(old(rows), Complete(id, now))
      ensures r.Ok? <==> id in old(rows) && old(rows)[id].state == Running
      ensures r.Ok? ==>
        rows == old(rows)[id := old(rows)[id].(state := Completed, progressPct := 100.0, finishedAt := Some(now))]
      ensures r.Err? ==> rows == old(rows)
      ensures r.Ok? ==> id in rows && r.value == rows[id]
      ensures r.Err? ==> r.error == Conflict
    {
      if id !in rows || rows[id].state != Running {
        return Err(Conflict);
      }
      rows := rows[id := Finished(rows[id], now)];
      return Ok(rows[id]);
    }

    method MarkFailed(id: JobId, c: ErrorClass, now: Time) returns (r: Result<Job>)
      modifies this
      ensures rows == Apply(old(rows), Fail(id, c, now))
      ensures r.Ok? <==> !c.Unknown? && id in old(rows) && (old(rows)[id].state == Queued || old(rows)[id].state == Running)
      ensures r.Ok? ==> id in rows && r.value == rows[id]
      ensures r.Ok? ==>
        rows == old(rows)[id := old(rows)[id].(state := Failed, errorClass := Some(c), finishedAt := Some(now))]
      ensures r.Err? ==> rows == old(rows) && r.error == if c.Unknown? then InvalidClass else Conflict
    {
      if !ValidErrorClass(c) {
        return Err(InvalidClass);
      }
      if id !in rows || !(rows[id].state == Queued || rows[id].state == Running) {
        return Err(Conflict);
      }
      rows := rows[id := FailedWith(rows[id], c, now)];
      return Ok(rows[id]);
    }

    method RetryJob(ws: Workspace, id: JobId, now: Time) returns (r: Result<Job>)
      modifies this
      ensures rows == Apply(old(rows), Retry(id, ws, now))
      ensures r.Ok? <==> id in old(rows) && old(rows)[id].workspace == ws && old(rows)[id].state == Failed
      ensures r.Ok? ==> CanRetry(old(rows)[id].state)
      ensures r.Ok? ==>
        rows == old(rows)[id := old(rows)[id].(state := Queued, errorClass := None, progressPct := 0.0, queuedAt := now,
                                               startedAt := None, finishedAt := None)]
      ensures r.Err? ==> rows == old(rows)
      ensures r.Ok? ==> id in rows && r.value == rows[id]
      ensures r.Err? ==> (r.error == NotFound <==> id !in old(rows) || old(rows)[id].workspace != ws)
      ensures r.Err? ==> r.error == NotFound || r.error == Conflict
    {
      if id !in rows || rows[id].workspace != ws {
        return Err(NotFound);
      }
      if rows[id].state != Failed {
        return Err(Conflict);
      }
      rows := rows[id := Requeued(rows[id], now)];
      return Ok(rows[id]);
    }

    method CancelQueuedJob(ws: Workspace, id: JobId, now: Time) returns (r: Result<Job>)
      modifies this
      ensures rows == Apply(old(rows), CancelQueued(id, ws, now))
      ensures r.Ok? <==> id in old(rows) && old(rows)[id].workspace == ws && old(rows)[id].state == Queued
      ensures r.Ok? ==>
        rows == old(rows)[id := old(rows)[id].(state := Failed, errorClass := Some(Internal), finishedAt := Some(now))]
      ensures r.Err? ==> rows == old(rows)
      ensures r.Ok? ==> id in rows && r.value == rows[id] && CanCancel(old(rows)[id].state)
      ensures r.Err? ==> (r.error == NotFound <==> id !in old(rows) || old(rows)[id].workspace != ws)
      ensures r.Err? ==> r.error == NotFound || r.error == Conflict
    {
      if id !in rows || rows[id].workspace != ws {
        return Err(NotFound);
      }
      if rows[id].state != Queued {
        return Err(Conflict);
      }
      rows := rows[id := FailedWith(rows[id], Internal, now)];
      return Ok(rows[id]);
    }
  }
}
