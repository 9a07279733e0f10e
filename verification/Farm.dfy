// The slot scheduler (scheduler.go) and the job handlers (httpapi/jobs.go,
// consumer/landed.go) over one job table, with the metering events they owe.
// A thread is a goroutine between its store step and its emit step, or inside
// runJob. Any call may fail before or after it takes effect, and any thread may die.
module Farm {
  import opened Basics
  import opened Jobs

  type Tid = nat

  /** The metering events that open and close a job's queued-plus-running interval. */
  datatype Kind = JobQueued | JobCompleted | JobFailed

  datatype Thread =
    | Runs(job: JobId)                                 // runJob, before its finalising write
    | Owes(ws: Workspace, kind: Kind, slot: bool)      // store step done, emit still to come

  /** What has gone wrong so far, per workspace. */
  datatype Fault =
    | LostQueued       // a row entered queued and its job_queued was never emitted
    | LostFinal        // a row left queued or running and its closing event was never emitted
    | SpuriousFailed   // job_failed owed although the row did not move
    | StrandedRow      // a row left running with no thread behind it

  /** `claiming`: the Run loop holds a slot and is about to claim. `orphans`: running rows no thread will finalise. */
  datatype Farm = Farm(
    slots: nat, rows: Table, threads: map<Tid, Thread>, claiming: bool,
    emitted: multiset<(Workspace, Kind)>, faults: multiset<(Workspace, Fault)>, orphans: set<JobId>)

  datatype Act =
    | Acquire
    | ClaimStep(tid: Tid, id: JobId, locked: set<JobId>, now: Time, o: Outcome)
    | ProgressStep(tid: Tid, pct: real)
    | CompleteStep(tid: Tid, now: Time, o: Outcome)
    | FailStep(tid: Tid, reason: ErrorClass, now: Time, o: Outcome)
    | CreateStep(tid: Tid, id: JobId, ws: Workspace, source: string, preset: nat, now: Time, o: Outcome)
    | RetryStep(tid: Tid, id: JobId, ws: Workspace, now: Time, o: Outcome)
    | CancelStep(tid: Tid, id: JobId, ws: Workspace, now: Time, o: Outcome)
    | Emit(tid: Tid, published: bool)
    | Die(tid: Tid)

  predicate IsActive(j: Job, ws: Workspace)
  {
    j.workspace == ws && (j.state == Queued || j.state == Running)
  }

  /** CountActiveJobs is the size of this set. */
  function Active(rows: Table, ws: Workspace): set<JobId>
  {
    set id | id in rows && IsActive(rows[id], ws)
  }

  function RunningRows(rows: Table): set<JobId>
  {
    set id | id in rows && rows[id].state == Running
  }

  /** What a thread can be counted for. */
  datatype Tag = OwesQueued(ws: Workspace) | OwesFinal(ws: Workspace) | OwesCompleted(ws: Workspace) | HoldsSlot

  predicate Has(t: Thread, tag: Tag)
  {
    match tag
    case OwesQueued(ws) => t.Owes? && t.ws == ws && t.kind == JobQueued
    case OwesFinal(ws) => t.Owes? && t.ws == ws && t.kind != JobQueued
    case OwesCompleted(ws) => t.Owes? && t.ws == ws && t.kind == JobCompleted
    case HoldsSlot => t.Runs? || t.slot
  }

  function Tagged(threads: map<Tid, Thread>, tag: Tag): set<Tid>
  {
    set t | t in threads && Has(threads[t], tag)
  }

  /** Occupied slots: len(s.sem). */
  function Held(f: Farm): int
  {
    Bit(f.claiming) + |Tagged(f.threads, HoldsSlot)|
  }

  // ---- the steps ----

  /** Nothing is left to claim: ClaimNextQueued answers ErrNotFound. */
  ghost predicate QueueEmpty(rows: Table, locked: set<JobId>)
  {
    forall id :: !Claimable(rows, locked, id)
  }

  function Record(f: Farm, ws: Workspace, fault: Fault): Farm
  {
    f.(faults := f.faults + multiset{(ws, fault)})
  }

  function Strand(f: Farm, id: JobId, ws: Workspace, fault: Fault): Farm
  {
    Record(f, ws, fault).(orphans := f.orphans + {id})
  }

  function Drop(f: Farm, tid: Tid): Farm
  {
    f.(threads := f.threads - {tid})
  }

  function Put(f: Farm, tid: Tid, t: Thread): Farm
  {
    f.(threads := f.threads[tid := t])
  }

  /** A handler's store statement: on success it owes an event, on an error after commit nobody will emit it. */
  function HandlerStep(f: Farm, tid: Tid, op: Op, ws: Workspace, kind: Kind, o: Outcome): Farm
  {
    if tid in f.threads || !Guard(f.rows, op) || o == FailsBefore then f
    else
      var g := f.(rows := Apply(f.rows, op));
      if o == Succeeds then Put(g, tid, Owes(ws, kind, false))
      else Record(g, ws, if kind == JobQueued then LostQueued else LostFinal)
  }

  ghost function Claims(f: Farm, tid: Tid, id: JobId, locked: set<JobId>, now: Time, o: Outcome): Farm
  {
    if !f.claiming || tid in f.threads then f
    else if o == FailsBefore || QueueEmpty(f.rows, locked) then f.(claiming := false)
    else if !Oldest(f.rows, locked, id) then f
    else
      var g := f.(claiming := false, rows := Apply(f.rows, Claim(id, locked, now)));
      if o == Succeeds then Put(g, tid, Runs(id)) else Strand(g, id, f.rows[id].workspace, StrandedRow)
  }

  /** MarkCompleted, then the emit only if it reported success. */
  function Completes(f: Farm, tid: Tid, now: Time, o: Outcome): Farm
    requires tid in f.threads && f.threads[tid].Runs? && f.threads[tid].job in f.rows
  {
    var id := f.threads[tid].job;
    var ws := f.rows[id].workspace;
    if o == FailsBefore then Strand(Drop(f, tid), id, ws, StrandedRow)
    else if !Guard(f.rows, Complete(id, now)) then Drop(f, tid)
    else
      var g := f.(rows := Apply(f.rows, Complete(id, now)));
      if o == Succeeds then Put(g, tid, Owes(ws, JobCompleted, true)) else Record(Drop(g, tid), ws, LostFinal)
  }

  /** fail(): whatever MarkFailed answers, job_failed is emitted. */
  function Fails(f: Farm, tid: Tid, c: ErrorClass, now: Time, o: Outcome): Farm
    requires tid in f.threads && f.threads[tid].Runs? && f.threads[tid].job in f.rows
  {
    var id := f.threads[tid].job;
    var ws := f.rows[id].workspace;
    if o != FailsBefore && Guard(f.rows, Fail(id, c, now))
    then Put(f.(rows := Apply(f.rows, Fail(id, c, now))), tid, Owes(ws, JobFailed, true))
    else Put(Strand(f, id, ws, SpuriousFailed), tid, Owes(ws, JobFailed, true))
  }

  function Emits(f: Farm, tid: Tid, published: bool): Farm
    requires tid in f.threads && f.threads[tid].Owes?
  {
    var t := f.threads[tid];
    if published then Drop(f, tid).(emitted := f.emitted + multiset{(t.ws, t.kind)})
    else Record(Drop(f, tid), t.ws, if t.kind == JobQueued then LostQueued else LostFinal)
  }

  function Dies(f: Farm, tid: Tid): Farm
    requires tid in f.threads && (f.threads[tid].Runs? ==> f.threads[tid].job in f.rows)
  {
    match f.threads[tid]
    case Owes(_, _, _) => Emits(f, tid, false)
    case Runs(id) => Strand(Drop(f, tid), id, f.rows[id].workspace, StrandedRow)
  }

  predicate IsWorker(f: Farm, tid: Tid)
  {
    tid in f.threads && f.threads[tid].Runs? && f.threads[tid].job in f.rows
  }

  ghost function Step(f: Farm, a: Act): Farm
  {
    match a
    case Acquire => if !f.claiming && Held(f) < f.slots then f.(claiming := true) else f
    case ClaimStep(tid, id, locked, now, o) => Claims(f, tid, id, locked, now, o)
    case ProgressStep(tid, pct) =>
      if IsWorker(f, tid) then f.(rows := Apply(f.rows, Progress(f.threads[tid].job, pct))) else f
    case CompleteStep(tid, now, o) => if IsWorker(f, tid) then Completes(f, tid, now, o) else f
    case FailStep(tid, c, now, o) => if IsWorker(f, tid) then Fails(f, tid, c, now, o) else f
    case CreateStep(tid, id, ws, source, preset, now, o) =>
      HandlerStep(f, tid, Create(id, ws, source, preset, now), ws, JobQueued, o)
    case RetryStep(tid, id, ws, now, o) => HandlerStep(f, tid, Retry(id, ws, now), ws, JobQueued, o)
    case CancelStep(tid, id, ws, now, o) => HandlerStep(f, tid, CancelQueued(id, ws, now), ws, JobFailed, o)
    case Emit(tid, published) => if tid in f.threads && f.threads[tid].Owes? then Emits(f, tid, published) else f
    case Die(tid) =>
      if tid in f.threads && (f.threads[tid].Runs? ==> f.threads[tid].job in f.rows) then Dies(f, tid) else f
  }

  function Start(slots: nat): Farm
  {
    Farm(slots, map[], map[], false, multiset{}, multiset{}, {})
  }

  ghost function Exec(slots: nat, acts: seq<Act>): Farm
  {
    if acts == [] then Start(slots) else Step(Exec(slots, acts[..|acts| - 1]), acts[|acts| - 1])
  }

  // ---- the ledger ----

  function Emitted(f: Farm, ws: Workspace, kind: Kind): int { f.emitted[(ws, kind)] }

  function Faults(f: Farm, ws: Workspace, fault: Fault): int { f.faults[(ws, fault)] }

  /** job_queued emitted, less job_completed and job_failed. */
  function Balance(f: Farm, ws: Workspace): int
  {
    Emitted(f, ws, JobQueued) - Emitted(f, ws, JobCompleted) - Emitted(f, ws, JobFailed)
  }

  /** Events owed by threads between their store step and their emit step. */
  function InFlight(f: Farm, ws: Workspace): int
  {
    |Tagged(f.threads, OwesFinal(ws))| - |Tagged(f.threads, OwesQueued(ws))|
  }

  /** What the faults so far have cost, with its sign. */
  function Drift(f: Farm, ws: Workspace): int
  {
    Faults(f, ws, LostFinal) - Faults(f, ws, LostQueued) - Faults(f, ws, SpuriousFailed)
  }

  ghost predicate Conserved(f: Farm, ws: Workspace)
  {
    Balance(f, ws) == |Active(f.rows, ws)| + InFlight(f, ws) + Drift(f, ws)
  }

  // ---- who holds which row ----

  ghost predicate WorkersRun(f: Farm)
  {
    forall t :: t in f.threads && f.threads[t].Runs? ==>
      f.threads[t].job in f.rows && f.rows[f.threads[t].job].state == Running && f.threads[t].job !in f.orphans
  }

  ghost predicate OneWorkerEach(f: Farm)
  {
    forall t, u :: t in f.threads && u in f.threads && t != u && f.threads[t].Runs? && f.threads[u].Runs? ==>
      f.threads[t].job != f.threads[u].job
  }

  ghost predicate HasWorker(f: Farm, id: JobId)
  {
    exists t :: t in f.threads && f.threads[t] == Runs(id)
  }

  ghost predicate RunningRowsAreHeld(f: Farm)
  {
    forall id :: id in RunningRows(f.rows) ==> id in f.orphans || HasWorker(f, id)
  }

  ghost predicate OrphansRun(f: Farm)
  {
    f.orphans <= RunningRows(f.rows) && (f.orphans != {} ==> f.faults != multiset{})
  }

  ghost predicate RowsHeld(f: Farm)
  {
    WorkersRun(f) && OneWorkerEach(f) && RunningRowsAreHeld(f) && OrphansRun(f)
  }

  ghost predicate Inv(f: Farm)
  {
    RowsHeld(f) && Held(f) <= f.slots && forall ws :: Conserved(f, ws)
  }

  // ---- counting lemmas ----

  lemma ActiveAfter(rows: Table, id: JobId, j: Job, ws: Workspace)
    ensures |Active(rows[id := j], ws)|
         == |Active(rows, ws)| + Bit(IsActive(j, ws)) - Bit(id in rows && IsActive(rows[id], ws))
  {
    hide IsActive;
    var before, after := Active(rows, ws), Active(rows[id := j], ws);
    var others := before - {id};
    assert after == if IsActive(j, ws) then others + {id} else others;
    assert before == if id in before then others + {id} else others;
  }

  lemma TaggedPut(threads: map<Tid, Thread>, tid: Tid, t: Thread, tag: Tag)
    ensures |Tagged(threads[tid := t], tag)|
         == |Tagged(threads, tag)| + Bit(Has(t, tag)) - Bit(tid in threads && Has(threads[tid], tag))
  {
    hide Has;
    var before, after := Tagged(threads, tag), Tagged(threads[tid := t], tag);
    var others := before - {tid};
    assert after == if Has(t, tag) then others + {tid} else others;
    assert before == if tid in before then others + {tid} else others;
  }

  lemma TaggedDrop(threads: map<Tid, Thread>, tid: Tid, tag: Tag)
    ensures |Tagged(threads - {tid}, tag)|
         == |Tagged(threads, tag)| - Bit(tid in threads && Has(threads[tid], tag))
  {
    hide Has;
    var before, after := Tagged(threads, tag), Tagged(threads - {tid}, tag);
    var others := before - {tid};
    assert after == others;
    assert before == if tid in before then others + {tid} else others;
  }

  // ---- the ledger is kept by every step ----

  lemma HandlerConserves(f: Farm, tid: Tid, op: Op, owner: Workspace, kind: Kind, o: Outcome, ws: Workspace)
    requires Conserved(f, ws)
    requires (op.Create? && op.ws == owner && kind == JobQueued) || (op.Retry? && op.ws == owner && kind == JobQueued)
          || (op.CancelQueued? && op.ws == owner && kind == JobFailed)
    ensures Conserved(HandlerStep(f, tid, op, owner, kind, o), ws)
  {
    hide Active, Tagged;
    if tid !in f.threads && Guard(f.rows, op) && o != FailsBefore {
      ActiveAfter(f.rows, op.id, Updated(f.rows, op), ws);
      TaggedPut(f.threads, tid, Owes(owner, kind, false), OwesQueued(ws));
      TaggedPut(f.threads, tid, Owes(owner, kind, false), OwesFinal(ws));
    }
  }

  lemma ClaimsConserves(f: Farm, tid: Tid, id: JobId, locked: set<JobId>, now: Time, o: Outcome, ws: Workspace)
    requires Conserved(f, ws)
    ensures Conserved(Claims(f, tid, id, locked, now, o), ws)
  {
    hide Active, Tagged;
    if Claimable(f.rows, locked, id) {
      ActiveAfter(f.rows, id, Claimed(f.rows[id], now), ws);
    }
    TaggedPut(f.threads, tid, Runs(id), OwesQueued(ws));
    TaggedPut(f.threads, tid, Runs(id), OwesFinal(ws));
  }

  /** A worker owes nothing until its finalising write. */
  lemma WorkerOwesNothing(f: Farm, tid: Tid, ws: Workspace)
    requires IsWorker(f, tid)
    ensures |Tagged(f.threads - {tid}, OwesQueued(ws))| == |Tagged(f.threads, OwesQueued(ws))|
    ensures |Tagged(f.threads - {tid}, OwesFinal(ws))| == |Tagged(f.threads, OwesFinal(ws))|
  {
    hide Tagged;
    TaggedDrop(f.threads, tid, OwesQueued(ws));
    TaggedDrop(f.threads, tid, OwesFinal(ws));
  }

  lemma RecordCounts(f: Farm, owner: Workspace, fault: Fault, ws: Workspace, kind: Fault)
    ensures Faults(Record(f, owner, fault), ws, kind) == Faults(f, ws, kind) + Bit(owner == ws && fault == kind)
  {
  }

  lemma LostAnswerConserves(f: Farm, tid: Tid, now: Time, ws: Workspace)
    requires IsWorker(f, tid) && WorkersRun(f) && Conserved(f, ws)
    ensures Conserved(Completes(f, tid, now, FailsAfter), ws)
  {
    var id := f.threads[tid].job;
    var g := Drop(f.(rows := Apply(f.rows, Complete(id, now))), tid);
    var owner := f.rows[id].workspace;
    assert Completes(f, tid, now, FailsAfter) == Record(g, owner, LostFinal);
    ActiveAfter(f.rows, id, Finished(f.rows[id], now), ws);
    assert |Active(g.rows, ws)| == |Active(f.rows, ws)| - Bit(owner == ws);
    WorkerOwesNothing(f, tid, ws);
    RecordCounts(g, owner, LostFinal, ws, LostFinal);
    RecordCounts(g, owner, LostFinal, ws, LostQueued);
    RecordCounts(g, owner, LostFinal, ws, SpuriousFailed);
    hide Active, Tagged, Apply, Faults;
  }

  lemma LostWriteConserves(f: Farm, tid: Tid, now: Time, ws: Workspace)
    requires IsWorker(f, tid) && WorkersRun(f) && Conserved(f, ws)
    ensures Conserved(Completes(f, tid, now, FailsBefore), ws)
  {
    var owner := f.rows[f.threads[tid].job].workspace;
    WorkerOwesNothing(f, tid, ws);
    RecordCounts(Drop(f, tid), owner, StrandedRow, ws, LostFinal);
    RecordCounts(Drop(f, tid), owner, StrandedRow, ws, LostQueued);
    RecordCounts(Drop(f, tid), owner, StrandedRow, ws, SpuriousFailed);
    hide Active, Tagged, Faults;
  }

  lemma CompletesConserves(f: Farm, tid: Tid, now: Time, o: Outcome, ws: Workspace)
    requires IsWorker(f, tid) && WorkersRun(f) && Conserved(f, ws)
    ensures Conserved(Completes(f, tid, now, o), ws)
  {
    hide Conserved, WorkersRun, Completes;
    match o
    case Succeeds => CompletionConserves(f, tid, now, ws);
    case FailsAfter => LostAnswerConserves(f, tid, now, ws);
    case FailsBefore => LostWriteConserves(f, tid, now, ws);
  }

  lemma CompletionConserves(f: Farm, tid: Tid, now: Time, ws: Workspace)
    requires IsWorker(f, tid) && WorkersRun(f) && Conserved(f, ws)
    ensures Conserved(Completes(f, tid, now, Succeeds), ws)
  {
    hide Active, Tagged;
    var id := f.threads[tid].job;
    var owed := Owes(f.rows[id].workspace, JobCompleted, true);
    ActiveAfter(f.rows, id, Finished(f.rows[id], now), ws);
    TaggedPut(f.threads, tid, owed, OwesQueued(ws));
    TaggedPut(f.threads, tid, owed, OwesFinal(ws));
  }

  lemma FailsConserves(f: Farm, tid: Tid, c: ErrorClass, now: Time, o: Outcome, ws: Workspace)
    requires IsWorker(f, tid) && WorkersRun(f) && Conserved(f, ws)
    ensures Conserved(Fails(f, tid, c, now, o), ws)
  {
    hide Active, Tagged;
    var id := f.threads[tid].job;
    assert f.rows[id].state == Running;
    hide WorkersRun;
    var owed := Owes(f.rows[id].workspace, JobFailed, true);
    ActiveAfter(f.rows, id, FailedWith(f.rows[id], c, now), ws);
    TaggedPut(f.threads, tid, owed, OwesQueued(ws));
    TaggedPut(f.threads, tid, owed, OwesFinal(ws));
  }

  lemma EmitConserves(f: Farm, tid: Tid, published: bool, ws: Workspace)
    requires tid in f.threads && f.threads[tid].Owes? && Conserved(f, ws)
    ensures Conserved(Emits(f, tid, published), ws)
  {
    hide Active, Tagged;
    TaggedDrop(f.threads, tid, OwesQueued(ws));
    TaggedDrop(f.threads, tid, OwesFinal(ws));
  }

  lemma DeathConserves(f: Farm, tid: Tid, ws: Workspace)
    requires IsWorker(f, tid) && Conserved(f, ws)
    ensures Conserved(Dies(f, tid), ws)
  {
    hide Active, Tagged;
    TaggedDrop(f.threads, tid, OwesQueued(ws));
    TaggedDrop(f.threads, tid, OwesFinal(ws));
  }

  lemma ProgressConserves(f: Farm, id: JobId, pct: real, ws: Workspace)
    requires Conserved(f, ws)
    ensures Conserved(f.(rows := Apply(f.rows, Progress(id, pct))), ws)
  {
    if id in f.rows {
      ActiveAfter(f.rows, id, f.rows[id].(progressPct := pct), ws);
    }
  }

  lemma StepConserves(f: Farm, a: Act, ws: Workspace)
    requires WorkersRun(f) && Conserved(f, ws)
    ensures Conserved(Step(f, a), ws)
  {
    hide Conserved;
    match a
    case Acquire => AcquireConserves(f, ws);
    case ClaimStep(tid, id, locked, now, o) => ClaimsConserves(f, tid, id, locked, now, o, ws);
    case ProgressStep(tid, pct) => if IsWorker(f, tid) { ProgressConserves(f, f.threads[tid].job, pct, ws); }
    case CompleteStep(tid, now, o) => if IsWorker(f, tid) { CompletesConserves(f, tid, now, o, ws); }
    case FailStep(tid, c, now, o) => if IsWorker(f, tid) { FailsConserves(f, tid, c, now, o, ws); }
    case CreateStep(tid, id, owner, source, preset, now, o) =>
      HandlerConserves(f, tid, Create(id, owner, source, preset, now), owner, JobQueued, o, ws);
    case RetryStep(tid, id, owner, now, o) =>
      HandlerConserves(f, tid, Retry(id, owner, now), owner, JobQueued, o, ws);
    case CancelStep(tid, id, owner, now, o) =>
      HandlerConserves(f, tid, CancelQueued(id, owner, now), owner, JobFailed, o, ws);
    case Emit(tid, published) =>
      if tid in f.threads && f.threads[tid].Owes? { EmitConserves(f, tid, published, ws); }
    case Die(tid) =>
      if tid in f.threads && f.threads[tid].Owes? {
        EmitConserves(f, tid, false, ws);
      } else if IsWorker(f, tid) {
        DeathConserves(f, tid, ws);
      }
  }

  lemma AcquireConserves(f: Farm, ws: Workspace)
    requires Conserved(f, ws)
    ensures Conserved(f.(claiming := true), ws)
  {
  }

  // ---- slots ----

  lemma StepKeepsSlots(f: Farm, a: Act)
    requires Held(f) <= f.slots
    ensures Step(f, a).slots == f.slots && Held(Step(f, a)) <= f.slots
  {
    hide Held;
    match a
    case Acquire => if !f.claiming && Held(f) < f.slots { AcquireKeepsSlots(f); }
    case ClaimStep(tid, id, locked, now, o) => ClaimsKeepsSlots(f, tid, id, locked, now, o);
    case ProgressStep(tid, pct) =>
      if IsWorker(f, tid) { SameSlots(f, f.(rows := Apply(f.rows, Progress(f.threads[tid].job, pct)))); }
    case CompleteStep(tid, now, o) => if IsWorker(f, tid) { CompletesKeepsSlots(f, tid, now, o); }
    case FailStep(tid, c, now, o) => if IsWorker(f, tid) { FailsKeepsSlots(f, tid, c, now, o); }
    case CreateStep(tid, id, ws, source, preset, now, o) =>
      HandlerKeepsSlots(f, tid, Create(id, ws, source, preset, now), ws, JobQueued, o);
    case RetryStep(tid, id, ws, now, o) => HandlerKeepsSlots(f, tid, Retry(id, ws, now), ws, JobQueued, o);
    case CancelStep(tid, id, ws, now, o) => HandlerKeepsSlots(f, tid, CancelQueued(id, ws, now), ws, JobFailed, o);
    case Emit(tid, published) =>
      if tid in f.threads && f.threads[tid].Owes? { LeavingKeepsSlots(f, tid, Emits(f, tid, published)); }
    case Die(tid) =>
      if tid in f.threads && (f.threads[tid].Runs? ==> f.threads[tid].job in f.rows) {
        LeavingKeepsSlots(f, tid, Dies(f, tid));
      }
  }

  lemma AcquireKeepsSlots(f: Farm)
    requires !f.claiming && Held(f) < f.slots
    ensures Held(f.(claiming := true)) <= f.slots
  {
  }

  lemma SameSlots(f: Farm, g: Farm)
    requires f.threads == g.threads && f.claiming == g.claiming
    ensures Held(f) == Held(g)
  {
  }

  /** The loop's slot becomes the worker's. */
  lemma ClaimsKeepsSlots(f: Farm, tid: Tid, id: JobId, locked: set<JobId>, now: Time, o: Outcome)
    ensures Held(Claims(f, tid, id, locked, now, o)) <= Held(f)
  {
    TaggedPut(f.threads, tid, Runs(id), HoldsSlot);
  }

  lemma HandlerKeepsSlots(f: Farm, tid: Tid, op: Op, ws: Workspace, kind: Kind, o: Outcome)
    ensures Held(HandlerStep(f, tid, op, ws, kind, o)) <= Held(f)
  {
    TaggedPut(f.threads, tid, Owes(ws, kind, false), HoldsSlot);
  }

  lemma CompletesKeepsSlots(f: Farm, tid: Tid, now: Time, o: Outcome)
    requires IsWorker(f, tid)
    ensures Held(Completes(f, tid, now, o)) <= Held(f)
  {
    LeavingKeepsSlots(f, tid, Completes(f, tid, now, o));
  }

  lemma FailsKeepsSlots(f: Farm, tid: Tid, c: ErrorClass, now: Time, o: Outcome)
    requires IsWorker(f, tid)
    ensures Held(Fails(f, tid, c, now, o)) <= Held(f)
  {
    LeavingKeepsSlots(f, tid, Fails(f, tid, c, now, o));
  }

  /** A thread that finishes, or still owes its event, takes no slot it did not hold. */
  lemma LeavingKeepsSlots(f: Farm, tid: Tid, g: Farm)
    requires tid in f.threads && g.claiming == f.claiming
    requires forall t :: t in g.threads && Has(g.threads[t], HoldsSlot) ==> t in f.threads && Has(f.threads[t], HoldsSlot)
    ensures Held(g) <= Held(f)
  {
    SubsetSize(Tagged(g.threads, HoldsSlot), Tagged(f.threads, HoldsSlot));
  }

  // ---- rows and workers ----

  lemma HandlerKeepsHeld(f: Farm, tid: Tid, op: Op, owner: Workspace, kind: Kind, o: Outcome)
    requires RowsHeld(f)
    requires op.Create? || op.Retry? || op.CancelQueued?
    ensures RowsHeld(HandlerStep(f, tid, op, owner, kind, o))
  {
    var g := HandlerStep(f, tid, op, owner, kind, o);
    HandlerLeavesRunningRows(f.rows, op);
    assert f.faults <= g.faults;
    WorkersSurvive(f, g);
  }

  /** Create, retry and cancel never touch a running row. */
  lemma HandlerLeavesRunningRows(t: Table, op: Op)
    requires op.Create? || op.Retry? || op.CancelQueued?
    ensures RunningRows(Apply(t, op)) == RunningRows(t)
  {
  }

  /** Rows stay held when the workers, the orphans and the running rows are the same as before. */
  lemma WorkersSurvive(f: Farm, g: Farm)
    requires RowsHeld(f)
    requires forall t :: t in g.threads && g.threads[t].Runs? ==> t in f.threads && f.threads[t] == g.threads[t]
    requires forall t :: t in f.threads && f.threads[t].Runs? ==> t in g.threads && f.threads[t] == g.threads[t]
    requires RunningRows(g.rows) == RunningRows(f.rows) && g.orphans == f.orphans && f.faults <= g.faults
    ensures RowsHeld(g)
  {
    forall t | t in g.threads && g.threads[t].Runs?
      ensures g.threads[t].job in g.rows && g.rows[g.threads[t].job].state == Running {
      assert g.threads[t].job in RunningRows(f.rows);
    }
    forall id | id in RunningRows(g.rows) && id !in g.orphans ensures HasWorker(g, id) {
      var t :| t in f.threads && f.threads[t] == Runs(id);
      assert t in g.threads && g.threads[t] == Runs(id);
    }
  }

  lemma ClaimRuns(rows: Table, id: JobId, locked: set<JobId>, now: Time)
    requires Oldest(rows, locked, id)
    ensures id !in RunningRows(rows) && RunningRows(Apply(rows, Claim(id, locked, now))) == RunningRows(rows) + {id}
  {
  }

  lemma ClaimsKeepsHeld(f: Farm, tid: Tid, id: JobId, locked: set<JobId>, now: Time, o: Outcome)
    requires RowsHeld(f)
    ensures RowsHeld(Claims(f, tid, id, locked, now, o))
  {
    var g := Claims(f, tid, id, locked, now, o);
    if g.rows != f.rows {
      ClaimRuns(f.rows, id, locked, now);
    }
    hide QueueEmpty, Oldest, Apply;
    forall t | t in g.threads && g.threads[t].Runs? ensures g.threads[t].job in RunningRows(g.rows) {
      assert t == tid || f.threads[t].job in RunningRows(f.rows);
    }
    forall r | r in RunningRows(g.rows) && r !in g.orphans ensures HasWorker(g, r) {
      if r in RunningRows(f.rows) {
        var t :| t in f.threads && f.threads[t] == Runs(r);
        assert t in g.threads && g.threads[t] == Runs(r);
      } else {
        assert tid in g.threads && g.threads[tid] == Runs(r);
      }
    }
  }

  /** A worker that leaves runJob takes its row out of running or leaves it an orphan. */
  lemma LeavingKeepsHeld(f: Farm, tid: Tid, g: Farm)
    requires RowsHeld(f) && IsWorker(f, tid)
    requires forall t :: t != tid ==> (t in g.threads <==> t in f.threads) && (t in f.threads ==> g.threads[t] == f.threads[t])
    requires tid in g.threads ==> g.threads[tid].Owes?
    requires var id := f.threads[tid].job;
      && (forall r :: r != id ==> (r in g.rows <==> r in f.rows) && (r in f.rows ==> g.rows[r] == f.rows[r]))
      && id in g.rows
      && if g.rows[id].state == Running then g.orphans == f.orphans + {id} && g.faults != multiset{}
         else g.orphans == f.orphans && f.faults <= g.faults
    ensures RowsHeld(g)
  {
    var id := f.threads[tid].job;
    forall r | r in RunningRows(g.rows) && r !in g.orphans ensures HasWorker(g, r) {
      assert r in RunningRows(f.rows);
      var t :| t in f.threads && f.threads[t] == Runs(r);
      assert t in g.threads && g.threads[t] == Runs(r);
    }
    assert g.orphans <= RunningRows(g.rows);
  }

  lemma CompletesKeepsHeld(f: Farm, tid: Tid, now: Time, o: Outcome)
    requires RowsHeld(f) && IsWorker(f, tid)
    ensures RowsHeld(Completes(f, tid, now, o))
  {
    hide OneWorkerEach, RunningRowsAreHeld, OrphansRun, HasWorker;
    LeavingKeepsHeld(f, tid, Completes(f, tid, now, o));
  }

  lemma FailsKeepsHeld(f: Farm, tid: Tid, c: ErrorClass, now: Time, o: Outcome)
    requires RowsHeld(f) && IsWorker(f, tid)
    ensures RowsHeld(Fails(f, tid, c, now, o))
  {
    hide OneWorkerEach, RunningRowsAreHeld, OrphansRun, HasWorker;
    LeavingKeepsHeld(f, tid, Fails(f, tid, c, now, o));
  }

  lemma DeathKeepsHeld(f: Farm, tid: Tid)
    requires RowsHeld(f) && IsWorker(f, tid)
    ensures RowsHeld(Dies(f, tid))
  {
    LeavingKeepsHeld(f, tid, Dies(f, tid));
  }

  lemma EmitKeepsHeld(f: Farm, tid: Tid, published: bool)
    requires RowsHeld(f) && tid in f.threads && f.threads[tid].Owes?
    ensures RowsHeld(Emits(f, tid, published))
  {
    WorkersSurvive(f, Emits(f, tid, published));
  }

  lemma ProgressKeepsHeld(f: Farm, id: JobId, pct: real)
    requires RowsHeld(f)
    ensures RowsHeld(f.(rows := Apply(f.rows, Progress(id, pct))))
  {
    var g := f.(rows := Apply(f.rows, Progress(id, pct)));
    assert RunningRows(g.rows) == RunningRows(f.rows);
    WorkersSurvive(f, g);
  }

  lemma StepKeepsHeld(f: Farm, a: Act)
    requires RowsHeld(f)
    ensures RowsHeld(Step(f, a))
  {
    hide RowsHeld;
    match a
    case Acquire => AcquireKeepsHeld(f);
    case ClaimStep(tid, id, locked, now, o) => ClaimsKeepsHeld(f, tid, id, locked, now, o);
    case ProgressStep(tid, pct) => if IsWorker(f, tid) { ProgressKeepsHeld(f, f.threads[tid].job, pct); }
    case CompleteStep(tid, now, o) => if IsWorker(f, tid) { CompletesKeepsHeld(f, tid, now, o); }
    case FailStep(tid, c, now, o) => if IsWorker(f, tid) { FailsKeepsHeld(f, tid, c, now, o); }
    case CreateStep(tid, id, ws, source, preset, now, o) =>
      HandlerKeepsHeld(f, tid, Create(id, ws, source, preset, now), ws, JobQueued, o);
    case RetryStep(tid, id, ws, now, o) => HandlerKeepsHeld(f, tid, Retry(id, ws, now), ws, JobQueued, o);
    case CancelStep(tid, id, ws, now, o) => HandlerKeepsHeld(f, tid, CancelQueued(id, ws, now), ws, JobFailed, o);
    case Emit(tid, published) =>
      if tid in f.threads && f.threads[tid].Owes? { EmitKeepsHeld(f, tid, published); }
    case Die(tid) =>
      if tid in f.threads && f.threads[tid].Owes? {
        EmitKeepsHeld(f, tid, false);
      } else if IsWorker(f, tid) {
        DeathKeepsHeld(f, tid);
      }
  }

  lemma AcquireKeepsHeld(f: Farm)
    requires RowsHeld(f)
    ensures RowsHeld(f.(claiming := true))
  {
    WorkersSurvive(f, f.(claiming := true));
  }

  // ---- main results ----

  lemma {:induction false} ReachableInv(slots: nat, acts: seq<Act>)
    ensures Inv(Exec(slots, acts)) && Exec(slots, acts).slots == slots
  {
    hide Conserved, RowsHeld, Step;
    if acts == [] {
      StartInv(slots);
    } else {
      var f, a := Exec(slots, acts[..|acts| - 1]), acts[|acts| - 1];
      ReachableInv(slots, acts[..|acts| - 1]);
      StepKeepsHeld(f, a);
      StepKeepsSlots(f, a);
      HeldHasWorkers(f);
      forall ws ensures Conserved(Step(f, a), ws) {
        StepConserves(f, a, ws);
      }
    }
  }

  lemma HeldHasWorkers(f: Farm)
    requires RowsHeld(f)
    ensures WorkersRun(f)
  {
  }

  lemma StartInv(slots: nat)
    ensures Inv(Start(slots))
  {
    var f := Start(slots);
    assert Tagged(f.threads, HoldsSlot) == {};
    forall ws ensures Conserved(f, ws) {
      assert Tagged(f.threads, OwesQueued(ws)) == {} && Tagged(f.threads, OwesFinal(ws)) == {};
      assert Active(f.rows, ws) == {};
    }
  }

  /**
   * Metering conservation: in every run, the emitted balance is the number of
   * queued plus running jobs, corrected by the events still owed and by the faults.
   */
  lemma MeteringConservation(slots: nat, acts: seq<Act>, ws: Workspace)
    ensures var f := Exec(slots, acts);
      var active := set id | id in f.rows && f.rows[id].workspace == ws && f.rows[id].state in {Queued, Running};
      var owesFinal := set t | t in f.threads && f.threads[t].Owes? && f.threads[t].ws == ws && f.threads[t].kind != JobQueued;
      var owesQueued := set t | t in f.threads && f.threads[t].Owes? && f.threads[t].ws == ws && f.threads[t].kind == JobQueued;
      f.emitted[(ws, JobQueued)] + |owesQueued| + f.faults[(ws, LostQueued)] + f.faults[(ws, SpuriousFailed)]
        == |active| + |owesFinal| + f.faults[(ws, LostFinal)]
           + f.emitted[(ws, JobCompleted)] + f.emitted[(ws, JobFailed)]
  {
    ReachableInv(slots, acts);
    var f := Exec(slots, acts);
    assert Conserved(f, ws);
    hide Exec;
    assert (set id | id in f.rows && f.rows[id].workspace == ws && f.rows[id].state in {Queued, Running})
        == Active(f.rows, ws);
    assert (set t | t in f.threads && f.threads[t].Owes? && f.threads[t].ws == ws && f.threads[t].kind != JobQueued)
        == Tagged(f.threads, OwesFinal(ws));
    assert (set t | t in f.threads && f.threads[t].Owes? && f.threads[t].ws == ws && f.threads[t].kind == JobQueued)
        == Tagged(f.threads, OwesQueued(ws));
  }

  /** Without faults and with no thread owing an event, the balance is exactly CountActiveJobs. */
  lemma QuiescentBalance(slots: nat, acts: seq<Act>, ws: Workspace)
    requires Exec(slots, acts).faults == multiset{}
    requires forall t :: t in Exec(slots, acts).threads ==> Exec(slots, acts).threads[t].Runs?
    ensures var f := Exec(slots, acts);
      var active := set id | id in f.rows && f.rows[id].workspace == ws && f.rows[id].state in {Queued, Running};
      f.emitted[(ws, JobQueued)] == |active| + f.emitted[(ws, JobCompleted)] + f.emitted[(ws, JobFailed)]
  {
    ReachableInv(slots, acts);
    var f := Exec(slots, acts);
    assert Conserved(f, ws);
    hide Exec;
    assert (set id | id in f.rows && f.rows[id].workspace == ws && f.rows[id].state in {Queued, Running})
        == Active(f.rows, ws);
    assert Tagged(f.threads, OwesQueued(ws)) == {} && Tagged(f.threads, OwesFinal(ws)) == {};
  }

  /** Running rows never exceed the slots by more than the orphans, and there are none without a fault. */
  lemma RunningWithinSlots(slots: nat, acts: seq<Act>)
    ensures var f := Exec(slots, acts);
            |RunningRows(f.rows)| <= slots + |f.orphans| && (f.faults == multiset{} ==> |RunningRows(f.rows)| <= slots)
  {
    ReachableInv(slots, acts);
    var f := Exec(slots, acts);
    var held := RunningRows(f.rows) - f.orphans;
    HeldByDistinctThreads(f, held);
    assert RunningRows(f.rows) == held + f.orphans;
  }

  /** Distinct unorphaned running rows are held by distinct slot-holding threads. */
  lemma {:induction false} HeldByDistinctThreads(f: Farm, held: set<JobId>)
    requires RowsHeld(f) && held <= RunningRows(f.rows) - f.orphans
    ensures |held| <= |Tagged(f.threads, HoldsSlot)|
  {
    var holders := set t | t in f.threads && f.threads[t].Runs? && f.threads[t].job in held;
    HoldersCount(f, held, holders);
    assert holders <= Tagged(f.threads, HoldsSlot);
    SubsetSize(holders, Tagged(f.threads, HoldsSlot));
  }

  lemma {:induction false} HoldersCount(f: Farm, held: set<JobId>, holders: set<Tid>)
    requires forall id :: id in held ==> HasWorker(f, id)
    requires holders == set t | t in f.threads && f.threads[t].Runs? && f.threads[t].job in held
    ensures |held| <= |holders|
    decreases |held|
  {
    if held != {} {
      var id :| id in held;
      var t :| t in f.threads && f.threads[t] == Runs(id);
      var fewer := set u | u in f.threads && f.threads[u].Runs? && f.threads[u].job in held - {id};
      HoldersCount(f, held - {id}, fewer);
      assert fewer <= holders - {t};
      SubsetSize(fewer, holders - {t});
    }
  }

  lemma {:induction false} SubsetSize(a: set<nat>, b: set<nat>)
    requires a <= b
    ensures |a| <= |b|
    decreases a
  {
    if a != {} {
      var x :| x in a;
      SubsetSize(a - {x}, b - {x});
    }
  }

  /** In every run, a worker's finalising write finds its row running: MarkCompleted and MarkFailed never conflict. */
  lemma FinalisingNeverConflicts(slots: nat, acts: seq<Act>, tid: Tid, c: ErrorClass, now: Time)
    requires IsWorker(Exec(slots, acts), tid) && ValidErrorClass(c)
    ensures var f := Exec(slots, acts);
            Guard(f.rows, Complete(f.threads[tid].job, now)) && Guard(f.rows, Fail(f.threads[tid].job, c, now))
  {
    ReachableInv(slots, acts);
  }

  ghost function Continue(f: Farm, acts: seq<Act>): Farm
  {
    if acts == [] then f else Step(Continue(f, acts[..|acts| - 1]), acts[|acts| - 1])
  }

  /** A row orphaned by a fault stays running for ever: no later step of any thread can move it. */
  lemma {:induction false} OrphansAreForever(f: Farm, acts: seq<Act>, id: JobId)
    requires RowsHeld(f) && id in f.orphans
    ensures RowsHeld(Continue(f, acts)) && id in Continue(f, acts).orphans
    ensures id in Continue(f, acts).rows && Continue(f, acts).rows[id].state == Running
  {
    if acts == [] {
      assert id in RunningRows(f.rows);
    } else {
      var g, a := Continue(f, acts[..|acts| - 1]), acts[|acts| - 1];
      OrphansAreForever(f, acts[..|acts| - 1], id);
      StepKeepsHeld(g, a);
      StepKeepsOrphans(g, a);
      assert id in RunningRows(Step(g, a).rows);
    }
  }

  ghost predicate StaysRunning(f: Farm, id: JobId)
  {
    forall acts :: id in RunningRows(Continue(f, acts).rows)
  }

  /**
   * Which running rows are stuck. A running row stays running in every continuation if and only if no worker
   * holds it: whatever the rest of the service does, nobody else can finalise it.
   */
  lemma StuckForeverIff(f: Farm, id: JobId)
    requires RowsHeld(f) && id in RunningRows(f.rows)
    ensures StaysRunning(f, id) <==> !HasWorker(f, id)
  {
    if HasWorker(f, id) {
      var tid :| tid in f.threads && f.threads[tid] == Runs(id);
      var done := CompleteStep(tid, 0, Succeeds);
      assert [done][..0] == [];
      assert Continue(f, []) == f && Continue(f, [done]) == Step(f, done);
      assert Guard(f.rows, Complete(id, 0));
      assert Step(f, done).rows[id].state == Completed;
      assert id !in RunningRows(Continue(f, [done]).rows);
    } else {
      forall acts ensures id in RunningRows(Continue(f, acts).rows) {
        OrphansAreForever(f, acts, id);
      }
    }
  }

  /**
   * In every run, the rows that are stuck are exactly the running rows without a worker, and a fault left each of them.
   */
  lemma StuckRowsOfARun(slots: nat, acts: seq<Act>, id: JobId)
    requires id in RunningRows(Exec(slots, acts).rows)
    ensures StaysRunning(Exec(slots, acts), id) <==> !HasWorker(Exec(slots, acts), id)
    ensures !HasWorker(Exec(slots, acts), id) ==> Exec(slots, acts).faults != multiset{}
  {
    ReachableInv(slots, acts);
    StuckForeverIff(Exec(slots, acts), id);
  }

  lemma StepKeepsOrphans(f: Farm, a: Act)
    ensures f.orphans <= Step(f, a).orphans
  {
  }

  // ---- completions and their events ----

  predicate IsCompleted(j: Job, ws: Workspace)
  {
    j.workspace == ws && j.state == Completed
  }

  function CompletedRows(rows: Table, ws: Workspace): set<JobId>
  {
    set id | id in rows && IsCompleted(rows[id], ws)
  }

  lemma CompletedAfter(rows: Table, id: JobId, j: Job, ws: Workspace)
    ensures |CompletedRows(rows[id := j], ws)|
         == |CompletedRows(rows, ws)| + Bit(IsCompleted(j, ws)) - Bit(id in rows && IsCompleted(rows[id], ws))
  {
    hide IsCompleted;
    var before, after := CompletedRows(rows, ws), CompletedRows(rows[id := j], ws);
    var others := before - {id};
    assert after == if IsCompleted(j, ws) then others + {id} else others;
    assert before == if id in before then others + {id} else others;
  }

  /** Completed rows have their event out or owed, except for as many as final events were lost. */
  ghost predicate CompletionsCounted(f: Farm, ws: Workspace)
  {
    var told := f.emitted[(ws, JobCompleted)] + |Tagged(f.threads, OwesCompleted(ws))|;
    told <= |CompletedRows(f.rows, ws)| <= told + f.faults[(ws, LostFinal)]
  }

  lemma HandlerCounts(f: Farm, tid: Tid, op: Op, owner: Workspace, kind: Kind, o: Outcome, ws: Workspace)
    requires CompletionsCounted(f, ws) && kind != JobCompleted && (op.Create? || op.Retry? || op.CancelQueued?)
    ensures CompletionsCounted(HandlerStep(f, tid, op, owner, kind, o), ws)
  {
    hide CompletedRows, Tagged;
    if tid !in f.threads && Guard(f.rows, op) && o != FailsBefore {
      CompletedAfter(f.rows, op.id, Updated(f.rows, op), ws);
      TaggedPut(f.threads, tid, Owes(owner, kind, false), OwesCompleted(ws));
    }
  }

  lemma ClaimsCounts(f: Farm, tid: Tid, id: JobId, locked: set<JobId>, now: Time, o: Outcome, ws: Workspace)
    requires CompletionsCounted(f, ws)
    ensures CompletionsCounted(Claims(f, tid, id, locked, now, o), ws)
  {
    hide CompletedRows, Tagged;
    if Claimable(f.rows, locked, id) {
      CompletedAfter(f.rows, id, Claimed(f.rows[id], now), ws);
    }
    TaggedPut(f.threads, tid, Runs(id), OwesCompleted(ws));
  }

  lemma CompletesCounts(f: Farm, tid: Tid, now: Time, o: Outcome, ws: Workspace)
    requires IsWorker(f, tid) && WorkersRun(f) && CompletionsCounted(f, ws)
    ensures CompletionsCounted(Completes(f, tid, now, o), ws)
  {
    hide CompletedRows, Tagged;
    var id := f.threads[tid].job;
    CompletedAfter(f.rows, id, Finished(f.rows[id], now), ws);
    TaggedDrop(f.threads, tid, OwesCompleted(ws));
    TaggedPut(f.threads, tid, Owes(f.rows[id].workspace, JobCompleted, true), OwesCompleted(ws));
  }

  lemma FailsCounts(f: Farm, tid: Tid, c: ErrorClass, now: Time, o: Outcome, ws: Workspace)
    requires IsWorker(f, tid) && WorkersRun(f) && CompletionsCounted(f, ws)
    ensures CompletionsCounted(Fails(f, tid, c, now, o), ws)
  {
    hide CompletedRows, Tagged;
    var id := f.threads[tid].job;
    CompletedAfter(f.rows, id, FailedWith(f.rows[id], c, now), ws);
    TaggedPut(f.threads, tid, Owes(f.rows[id].workspace, JobFailed, true), OwesCompleted(ws));
  }

  lemma LeavesCounts(f: Farm, tid: Tid, published: bool, ws: Workspace)
    requires tid in f.threads && CompletionsCounted(f, ws)
    ensures f.threads[tid].Owes? ==> CompletionsCounted(Emits(f, tid, published), ws)
    ensures (f.threads[tid].Runs? ==> f.threads[tid].job in f.rows) ==> CompletionsCounted(Dies(f, tid), ws)
  {
    hide CompletedRows, Tagged;
    TaggedDrop(f.threads, tid, OwesCompleted(ws));
  }

  lemma ProgressCounts(f: Farm, id: JobId, pct: real, ws: Workspace)
    requires CompletionsCounted(f, ws)
    ensures CompletionsCounted(f.(rows := Apply(f.rows, Progress(id, pct))), ws)
  {
    hide CompletedRows, Tagged;
    if id in f.rows {
      CompletedAfter(f.rows, id, f.rows[id].(progressPct := pct), ws);
    }
  }

  lemma AcquireCounts(f: Farm, ws: Workspace)
    requires CompletionsCounted(f, ws)
    ensures CompletionsCounted(Step(f, Acquire), ws)
  {
  }

  lemma StepCounts(f: Farm, a: Act, ws: Workspace)
    requires WorkersRun(f) && CompletionsCounted(f, ws)
    ensures CompletionsCounted(Step(f, a), ws)
  {
    hide CompletionsCounted, HandlerStep, Claims, Completes, Fails, Emits, Dies, Apply;
    match a
    case Acquire => AcquireCounts(f, ws);
    case ClaimStep(tid, id, locked, now, o) => ClaimsCounts(f, tid, id, locked, now, o, ws);
    case ProgressStep(tid, pct) => if IsWorker(f, tid) { ProgressCounts(f, f.threads[tid].job, pct, ws); }
    case CompleteStep(tid, now, o) => if IsWorker(f, tid) { CompletesCounts(f, tid, now, o, ws); }
    case FailStep(tid, c, now, o) => if IsWorker(f, tid) { FailsCounts(f, tid, c, now, o, ws); }
    case CreateStep(tid, id, owner, source, preset, now, o) =>
      HandlerCounts(f, tid, Create(id, owner, source, preset, now), owner, JobQueued, o, ws);
    case RetryStep(tid, id, owner, now, o) => HandlerCounts(f, tid, Retry(id, owner, now), owner, JobQueued, o, ws);
    case CancelStep(tid, id, owner, now, o) =>
      HandlerCounts(f, tid, CancelQueued(id, owner, now), owner, JobFailed, o, ws);
    case Emit(tid, published) => if tid in f.threads { LeavesCounts(f, tid, published, ws); }
    case Die(tid) => if tid in f.threads { LeavesCounts(f, tid, false, ws); }
  }

  /**
   * Completions and their events. In every run, the job_completed events emitted or still owed for a workspace are
   * never more than its completed rows, and fewer by at most the final events that were lost; without faults they are
   * exactly as many.
   */
  lemma {:induction false} CompletedEventsAreCompletedRows(slots: nat, acts: seq<Act>, ws: Workspace)
    ensures var f := Exec(slots, acts);
      var done := set id | id in f.rows && f.rows[id].workspace == ws && f.rows[id].state == Completed;
      var owed := set t | t in f.threads && f.threads[t].Owes? && f.threads[t].ws == ws && f.threads[t].kind == JobCompleted;
      && f.emitted[(ws, JobCompleted)] + |owed| <= |done|
      && |done| <= f.emitted[(ws, JobCompleted)] + |owed| + f.faults[(ws, LostFinal)]
  {
    CompletionsInEveryRun(slots, acts, ws);
    var f := Exec(slots, acts);
    hide Exec;
    var done := set id | id in f.rows && f.rows[id].workspace == ws && f.rows[id].state == Completed;
    var owed := set t | t in f.threads && f.threads[t].Owes? && f.threads[t].ws == ws && f.threads[t].kind == JobCompleted;
    assert done == CompletedRows(f.rows, ws) && owed == Tagged(f.threads, OwesCompleted(ws));
  }

  lemma {:induction false} CompletionsInEveryRun(slots: nat, acts: seq<Act>, ws: Workspace)
    ensures CompletionsCounted(Exec(slots, acts), ws)
  {
    if acts == [] {
      assert CompletedRows(map[], ws) == {} && Tagged(map[], OwesCompleted(ws)) == {};
    } else {
      CompletionsInEveryRun(slots, acts[..|acts| - 1], ws);
      ReachableInv(slots, acts[..|acts| - 1]);
      hide CompletionsCounted, Step;
      StepCounts(Exec(slots, acts[..|acts| - 1]), acts[|acts| - 1], ws);
    }
  }

  // ---- what each step does when its call succeeds ----

  /** A free slot takes the oldest unlocked queued row and runs it. */
  lemma FreeSlotClaims(f: Farm, tid: Tid, id: JobId, locked: set<JobId>, now: Time)
    requires !f.claiming && Held(f) < f.slots && tid !in f.threads
    requires id in f.rows && f.rows[id].state == Queued && id !in locked
    requires forall o :: o in f.rows && f.rows[o].state == Queued && o !in locked ==> f.rows[id].queuedAt <= f.rows[o].queuedAt
    ensures var j := f.rows[id];
      Step(Step(f, Acquire), ClaimStep(tid, id, locked, now, Succeeds))
        == f.(rows := f.rows[id := j.(state := Running, startedAt := Some(now), errorClass := None, attempts := j.attempts + 1)],
              threads := f.threads[tid := Runs(id)])
  {
    assert Claimable(f.rows, locked, id);
  }

  /** An owed event that is published leaves once, and its thread with it. */
  lemma OwedIsEmitted(f: Farm, tid: Tid, owed: Thread)
    requires owed.Owes?
    ensures Step(f.(threads := f.threads[tid := owed]), Emit(tid, true))
         == f.(threads := f.threads - {tid}, emitted := f.emitted + multiset{(owed.ws, owed.kind)})
  {
    assert f.threads[tid := owed] - {tid} == f.threads - {tid};
  }

  /** A worker whose row is running completes it, owes exactly job_completed, emits it once and frees its slot. */
  lemma WorkerCompletes(f: Farm, tid: Tid, now: Time)
    requires tid in f.threads && f.threads[tid].Runs? && f.threads[tid].job in f.rows
    requires f.rows[f.threads[tid].job].state == Running
    ensures var id := f.threads[tid].job; var j := f.rows[id];
      Step(Step(f, CompleteStep(tid, now, Succeeds)), Emit(tid, true))
        == f.(rows := f.rows[id := j.(state := Completed, progressPct := 100.0, finishedAt := Some(now))],
              threads := f.threads - {tid}, emitted := f.emitted + multiset{(j.workspace, JobCompleted)})
  {
    var id := f.threads[tid].job;
    var j := f.rows[id];
    var g := f.(rows := f.rows[id := j.(state := Completed, progressPct := 100.0, finishedAt := Some(now))]);
    var owed := Owes(j.workspace, JobCompleted, true);
    assert Step(f, CompleteStep(tid, now, Succeeds)) == g.(threads := g.threads[tid := owed]);
    hide Step;
    OwedIsEmitted(g, tid, owed);
  }

  /** ... or fails it with the class it was given, and announces job_failed. */
  lemma WorkerFails(f: Farm, tid: Tid, now: Time, c: ErrorClass)
    requires tid in f.threads && f.threads[tid].Runs? && f.threads[tid].job in f.rows
    requires f.rows[f.threads[tid].job].state == Running && !c.Unknown?
    ensures var id := f.threads[tid].job; var j := f.rows[id];
      Step(Step(f, FailStep(tid, c, now, Succeeds)), Emit(tid, true))
        == f.(rows := f.rows[id := j.(state := Failed, errorClass := Some(c), finishedAt := Some(now))],
              threads := f.threads - {tid}, emitted := f.emitted + multiset{(j.workspace, JobFailed)})
  {
    var id := f.threads[tid].job;
    var j := f.rows[id];
    var g := f.(rows := f.rows[id := j.(state := Failed, errorClass := Some(c), finishedAt := Some(now))]);
    var owed := Owes(j.workspace, JobFailed, true);
    assert Step(f, FailStep(tid, c, now, Succeeds)) == g.(threads := g.threads[tid := owed]);
    hide Step;
    OwedIsEmitted(g, tid, owed);
  }

  /** An inserted job announces job_queued. */
  lemma CreateAnnounces(f: Farm, tid: Tid, id: JobId, ws: Workspace, source: string, preset: nat, now: Time)
    requires tid !in f.threads && id !in f.rows
    ensures Step(Step(f, CreateStep(tid, id, ws, source, preset, now, Succeeds)), Emit(tid, true))
        == f.(rows := f.rows[id := Job(ws, source, preset, Queued, None, 0, 0.0, now, None, None)],
              emitted := f.emitted + multiset{(ws, JobQueued)})
  {
    var g := f.(rows := f.rows[id := Job(ws, source, preset, Queued, None, 0, 0.0, now, None, None)]);
    var owed := Owes(ws, JobQueued, false);
    assert Step(f, CreateStep(tid, id, ws, source, preset, now, Succeeds)) == g.(threads := g.threads[tid := owed]);
    hide Step;
    OwedIsEmitted(g, tid, owed);
    assert g.threads - {tid} == f.threads;
  }

  /** A retried job is queued afresh and announces job_queued again. */
  lemma RetryAnnounces(f: Farm, tid: Tid, id: JobId, ws: Workspace, now: Time)
    requires tid !in f.threads && id in f.rows && f.rows[id].workspace == ws && f.rows[id].state == Failed
    ensures Step(Step(f, RetryStep(tid, id, ws, now, Succeeds)), Emit(tid, true))
        == f.(rows := f.rows[id := f.rows[id].(state := Queued, errorClass := None, progressPct := 0.0, queuedAt := now,
                                               startedAt := None, finishedAt := None)],
              emitted := f.emitted + multiset{(ws, JobQueued)})
  {
    var g := f.(rows := f.rows[id := f.rows[id].(
      state := Queued, errorClass := None, progressPct := 0.0, queuedAt := now, startedAt := None, finishedAt := None)]);
    var owed := Owes(ws, JobQueued, false);
    assert Step(f, RetryStep(tid, id, ws, now, Succeeds)) == g.(threads := g.threads[tid := owed]);
    hide Step;
    OwedIsEmitted(g, tid, owed);
    assert g.threads - {tid} == f.threads;
  }

  /** A cancelled queued job fails as internal and announces job_failed. */
  lemma CancelAnnounces(f: Farm, tid: Tid, id: JobId, ws: Workspace, now: Time)
    requires tid !in f.threads && id in f.rows && f.rows[id].workspace == ws && f.rows[id].state == Queued
    ensures Step(Step(f, CancelStep(tid, id, ws, now, Succeeds)), Emit(tid, true))
        == f.(rows := f.rows[id := f.rows[id].(state := Failed, errorClass := Some(Internal), finishedAt := Some(now))],
              emitted := f.emitted + multiset{(ws, JobFailed)})
  {
    var g := f.(rows := f.rows[id := f.rows[id].(
      state := Failed, errorClass := Some(Internal), finishedAt := Some(now))]);
    var owed := Owes(ws, JobFailed, false);
    assert Step(f, CancelStep(tid, id, ws, now, Succeeds)) == g.(threads := g.threads[tid := owed]);
    hide Step;
    OwedIsEmitted(g, tid, owed);
    assert g.threads - {tid} == f.threads;
  }

  // ---- and when it fails ----

  /** A claim that finds nothing or fails gives its slot back; one that fails after its commit leaves a running orphan. */
  lemma ClaimThatFails(f: Farm, tid: Tid, id: JobId, locked: set<JobId>, now: Time)
    requires f.claiming && tid !in f.threads
    ensures Step(f, ClaimStep(tid, id, locked, now, FailsBefore)) == f.(claiming := false)
    ensures (forall o :: o in f.rows && f.rows[o].state == Queued ==> o in locked) ==>
      forall o :: Step(f, ClaimStep(tid, id, locked, now, o)) == f.(claiming := false)
    ensures Oldest(f.rows, locked, id) ==>
      var j := f.rows[id];
      Step(f, ClaimStep(tid, id, locked, now, FailsAfter))
        == f.(claiming := false, orphans := f.orphans + {id}, faults := f.faults + multiset{(j.workspace, StrandedRow)},
              rows := f.rows[id := j.(state := Running, startedAt := Some(now), errorClass := None,
                                      attempts := j.attempts + 1)])
  {
    if Oldest(f.rows, locked, id) {
      assert Claimable(f.rows, locked, id);
    }
  }

  /**
   * A final write that fails. Completing: before the commit the row stays running with nobody on it, after it the event
   * is lost. Failing: job_failed is owed whichever it was, and before the commit the row stays running.
   */
  lemma FinalWriteThatFails(f: Farm, tid: Tid, now: Time, c: ErrorClass)
    requires tid in f.threads && f.threads[tid].Runs? && f.threads[tid].job in f.rows
    requires f.rows[f.threads[tid].job].state == Running && !c.Unknown?
    ensures var id := f.threads[tid].job; var (j, rest) := (f.rows[id], f.threads - {tid});
      var owes := f.threads[tid := Owes(j.workspace, JobFailed, true)];
      && Step(f, CompleteStep(tid, now, FailsBefore))
           == f.(threads := rest, orphans := f.orphans + {id}, faults := f.faults + multiset{(j.workspace, StrandedRow)})
      && Step(f, CompleteStep(tid, now, FailsAfter))
           == f.(threads := rest, faults := f.faults + multiset{(j.workspace, LostFinal)},
                 rows := f.rows[id := j.(state := Completed, progressPct := 100.0, finishedAt := Some(now))])
      && Step(f, FailStep(tid, c, now, FailsBefore))
           == f.(threads := owes, orphans := f.orphans + {id}, faults := f.faults + multiset{(j.workspace, SpuriousFailed)})
      && Step(f, FailStep(tid, c, now, FailsAfter))
           == f.(threads := owes,
                 rows := f.rows[id := j.(state := Failed, errorClass := Some(c), finishedAt := Some(now))])
  {
  }
}
