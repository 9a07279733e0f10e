// When a session recorded ACTIVE has an open multipart, and the three ways it
// can lose it without its row saying so.
module UploadLive {
  import opened Basics
  import opened GoInt
  import opened ObjectStorage
  import opened UploadWorld
  import opened UploadHandlers
  import opened UploadInvariant
  import opened UploadRequests
  import opened UploadSystem

  // ---- the calls that end a multipart ----

  predicate Calls(s: Sys, a: Action, pc: Pc)
  {
    a.Call? && a.tid in s.handlers && s.handlers[a.tid] == pc && !a.e.o.FailsBefore?
  }

  /** Create's abort after an insert that committed but was reported as failed. */
  predicate AbortsLostInsert(s: Sys, a: Action, sid: Sid)
  {
    sid in s.w.sessions && Calls(s, a, InCreate(AbortUnsaved(sid)))
  }

  /** A cancel's abort. */
  predicate CancelAborts(s: Sys, a: Action, sid: Sid)
  {
    sid in s.w.sessions && (Calls(s, a, InCancel(CancelAbort(sid))) || Calls(s, a, InCancel(ReAbort(sid))))
  }

  /** A complete's join. */
  predicate CompleteJoins(s: Sys, a: Action, sid: Sid)
  {
    && sid in s.w.sessions && a.Call? && a.tid in s.handlers && !a.e.o.FailsBefore?
    && s.handlers[a.tid].InComplete? && s.handlers[a.tid].complete.FinishMultipart?
    && s.handlers[a.tid].complete.sid == sid && CompletionAccepted(s.w, sid, s.handlers[a.tid].complete.parts)
  }

  predicate EndsMultipart(s: Sys, a: Action, sid: Sid)
  {
    AbortsLostInsert(s, a, sid) || CancelAborts(s, a, sid) || CompleteJoins(s, a, sid)
  }

  /** Some call of the run, one of the three, took the session's multipart away. */
  predicate LosesMultipart(s: Sys, run: seq<Action>, sid: Sid)
    decreases |run|
  {
    run != [] && (EndsMultipart(s, run[0], sid) || LosesMultipart(Next(s, run[0]), run[1..], sid))
  }

  predicate IsActive(w: World, sid: Sid)
  {
    sid in w.sessions && w.sessions[sid].state.Active?
  }

  predicate IsOpen(w: World, sid: Sid)
  {
    OfSession(sid) in w.s3.uploads
  }

  // ---- what one call does to the open multiparts ----

  lemma CreateOpens(w: World, tid: nat, pc: CreatePc, e: Env, sid: Sid)
    requires WorldInv(w) && LocalCreate(w, tid, pc)
    ensures sid in w.sessions && IsOpen(CreateStep(w, tid, pc, e).0, sid) ==> IsOpen(w, sid)
    ensures IsActive(w, sid) && IsOpen(w, sid) && !(pc == AbortUnsaved(sid) && !e.o.FailsBefore?) ==>
              IsOpen(CreateStep(w, tid, pc, e).0, sid)
    ensures sid !in w.sessions && sid in CreateStep(w, tid, pc, e).0.sessions ==> IsOpen(CreateStep(w, tid, pc, e).0, sid)
  {
    hide ChunksOk, VerifiedOk, UploadsOk, AssembledOk, ObjectsOk, HashesOk, LandedOk, CompletedOk, PartsStored, SessionOk;
  }

  lemma PutOpens(w: World, pc: PutPc, e: Env, sid: Sid)
    ensures IsOpen(PutStep(w, pc, e).0, sid) <==> IsOpen(w, sid)
    ensures PutStep(w, pc, e).0.sessions == w.sessions
  {
  }

  lemma CompleteOpens(w: World, pc: CompletePc, e: Env, sid: Sid)
    ensures IsOpen(CompleteStep(w, pc, e).0, sid) ==> IsOpen(w, sid)
    ensures IsOpen(w, sid)
            && !(pc.FinishMultipart? && pc.sid == sid && CompletionAccepted(w, sid, pc.parts) && !e.o.FailsBefore?) ==>
              IsOpen(CompleteStep(w, pc, e).0, sid)
    ensures CompleteStep(w, pc, e).0.sessions.Keys == w.sessions.Keys
  {
  }

  lemma CancelOpens(w: World, pc: CancelPc, e: Env, sid: Sid)
    ensures IsOpen(CancelStep(w, pc, e).0, sid) ==> IsOpen(w, sid)
    ensures IsOpen(w, sid) && !((pc == CancelAbort(sid) || pc == ReAbort(sid)) && !e.o.FailsBefore?) ==>
              IsOpen(CancelStep(w, pc, e).0, sid)
    ensures CancelStep(w, pc, e).0.sessions.Keys == w.sessions.Keys
  {
  }

  /**
   * The call opens no multipart of an existing session, ends only the multiparts it is said to end, and a new session
   * has one.
   */
  ghost predicate OpensWell(s: Sys, a: Action, sid: Sid)
  {
    && (sid in s.w.sessions && IsOpen(Next(s, a).w, sid) ==> IsOpen(s.w, sid))
    && (IsActive(s.w, sid) && IsOpen(s.w, sid) && !EndsMultipart(s, a, sid) ==> IsOpen(Next(s, a).w, sid))
    && (sid !in s.w.sessions && sid in Next(s, a).w.sessions ==> IsOpen(Next(s, a).w, sid))
  }

  lemma CreateCallOpens(s: Sys, tid: nat, e: Env, sid: Sid)
    requires WorldInv(s.w) && tid in s.handlers && s.handlers[tid].InCreate? && LocalCreate(s.w, tid, s.handlers[tid].create)
    ensures OpensWell(s, Call(tid, e), sid)
  {
    CreateOpens(s.w, tid, s.handlers[tid].create, e, sid);
    hide WorldInv, LocalCreate, IsOpen, CreateStep;
  }

  lemma PutCallOpens(s: Sys, tid: nat, e: Env, sid: Sid)
    requires tid in s.handlers && s.handlers[tid].InPut?
    ensures OpensWell(s, Call(tid, e), sid)
  {
    PutOpens(s.w, s.handlers[tid].put, e, sid);
    hide IsOpen, PutStep;
  }

  lemma CompleteCallOpens(s: Sys, tid: nat, e: Env, sid: Sid)
    requires tid in s.handlers && s.handlers[tid].InComplete?
    ensures OpensWell(s, Call(tid, e), sid)
  {
    CompleteOpens(s.w, s.handlers[tid].complete, e, sid);
    hide IsOpen, CompleteStep, CompletionAccepted;
  }

  lemma CancelCallOpens(s: Sys, tid: nat, e: Env, sid: Sid)
    requires tid in s.handlers && s.handlers[tid].InCancel?
    ensures OpensWell(s, Call(tid, e), sid)
  {
    CancelOpens(s.w, s.handlers[tid].cancel, e, sid);
    hide IsOpen, CancelStep;
  }

  lemma NextOpens(s: Sys, a: Action, sid: Sid)
    requires SysInv(s)
    ensures OpensWell(s, a, sid)
    ensures EndsMultipart(s, a, sid) ==> !IsOpen(Next(s, a).w, sid)
  {
    CallEnds(s, a, sid);
    if a.Call? && a.tid in s.handlers {
      hide WorldInv, OpensWell, LocalPut, LocalComplete, LocalCancel, EndsMultipart, Next, IsOpen;
      match s.handlers[a.tid]
      case InCreate(_) => CreateCallOpens(s, a.tid, a.e, sid);
      case InPut(_) => PutCallOpens(s, a.tid, a.e, sid);
      case InComplete(_) => CompleteCallOpens(s, a.tid, a.e, sid);
      case InCancel(_) => CancelCallOpens(s, a.tid, a.e, sid);
    }
  }

  lemma CallEnds(s: Sys, a: Action, sid: Sid)
    ensures EndsMultipart(s, a, sid) ==> !IsOpen(Next(s, a).w, sid)
  {
    hide AssembleStep;
    if CompleteJoins(s, a, sid) {
      JoinEnds(s.w, s.handlers[a.tid].complete, a.e);
    }
  }

  lemma JoinEnds(w: World, pc: CompletePc, e: Env)
    requires pc.FinishMultipart? && CompletionAccepted(w, pc.sid, pc.parts) && !e.o.FailsBefore?
    ensures !IsOpen(CompleteStep(w, pc, e).0, pc.sid)
  {
  }

  // ---- over whole runs ----

  lemma {:induction false} ClosedStays(s: Sys, run: seq<Action>, sid: Sid)
    requires SysInv(s) && sid in s.w.sessions && !IsOpen(s.w, sid)
    ensures !IsOpen(Exec(s, run).w, sid)
    decreases |run|
  {
    if run != [] {
      NextOpens(s, run[0], sid);
      NextKeeps(s, run[0]);
      ClosedStays(Next(s, run[0]), run[1..], sid);
    }
  }

  lemma {:induction false} LosingCloses(s: Sys, run: seq<Action>, sid: Sid)
    requires SysInv(s) && LosesMultipart(s, run, sid)
    ensures !IsOpen(Exec(s, run).w, sid)
    decreases |run|
  {
    NextKeeps(s, run[0]);
    if EndsMultipart(s, run[0], sid) {
      NextOpens(s, run[0], sid);
      ClosedStays(Next(s, run[0]), run[1..], sid);
    } else {
      LosingCloses(Next(s, run[0]), run[1..], sid);
    }
  }

  lemma {:induction false} KeepingKeepsOpen(s: Sys, run: seq<Action>, sid: Sid)
    requires SysInv(s) && !LosesMultipart(s, run, sid)
    requires IsActive(s.w, sid) ==> IsOpen(s.w, sid)
    ensures IsActive(Exec(s, run).w, sid) ==> IsOpen(Exec(s, run).w, sid)
    decreases |run|
  {
    if run != [] {
      NextOpens(s, run[0], sid);
      NextKeeps(s, run[0]);
      KeepingKeepsOpen(Next(s, run[0]), run[1..], sid);
    }
  }

  /**
   * The rollback comment in handleCreate says a session recorded ACTIVE always has a live multipart.
   * Exactly when it does not, in every run: an abort after a lost insert, a cancel's abort, or a complete's
   * join took effect, and the row never came to say so.
   */
  lemma ActiveSessionsAreLiveIff(chunkSize: int, maxObjectBytes: int, run: seq<Action>, sid: Sid)
    requires 0 < chunkSize <= MAX_INT64 && maxObjectBytes <= MAX_INT64
    requires IsActive(Exec(Boot(chunkSize, maxObjectBytes), run).w, sid)
    ensures !IsOpen(Exec(Boot(chunkSize, maxObjectBytes), run).w, sid)
       <==> LosesMultipart(Boot(chunkSize, maxObjectBytes), run, sid)
  {
    var s := Boot(chunkSize, maxObjectBytes);
    ReachableInv(chunkSize, maxObjectBytes, []);
    if LosesMultipart(s, run, sid) {
      LosingCloses(s, run, sid);
    } else {
      KeepingKeepsOpen(s, run, sid);
    }
  }

  /**
   * How create leaves an ACTIVE session without a multipart: the insert committed unreported, and the abort took
   * effect.
   */
  lemma CreateLeavesDeadSessionIff(w: World, tid: nat, sid: Sid, req: Session, insert: Env, abort: Env)
    requires WorldInv(w) && LocalCreate(w, tid, InsertSession(sid, req))
    requires !(insert.o.Succeeds? && Insertable(req))
    ensures var r1 := CreateStep(w, tid, InsertSession(sid, req), insert);
      var w2 := CreateStep(r1.0, tid, r1.1, abort).0;
      (sid in w2.sessions && w2.sessions[sid].state.Active? && OfSession(sid) !in w2.s3.uploads)
      <==> (insert.o.FailsAfter? && Insertable(req) && !abort.o.FailsBefore?)
  {
  }

  /**
   * Whether the record of a cancel that ran from its abort took effect: the abort, and a delete if it was due,
   * succeeded.
   */
  predicate CancelRecorded(w: World, sid: Sid, script: seq<Env>)
  {
    && |script| > 2 && script[0].o.Succeeds?
    && if script[1].o.Succeeds? && Staging(sid) in w.s3.objects
       then |script| > 3 && script[2].o.Succeeds? && !script[3].o.FailsBefore?
       else !script[2].o.FailsBefore?
  }

  /**
   * How cancel leaves an ACTIVE session without a multipart, wherever it is cut and however its calls end:
   * it aborts first and records last, so exactly when the abort took effect and the record did not.
   */
  lemma CancelLeavesDeadSessionIff(w: World, sid: Sid, script: seq<Env>)
    requires IsActive(w, sid) && IsOpen(w, sid)
    ensures var w' := CancelRun(w, CancelAbort(sid), script).0;
      (IsActive(w', sid) && !IsOpen(w', sid))
      <==> (script != [] && !script[0].o.FailsBefore? && !CancelRecorded(w, sid, script))
  {
    if script != [] {
      var w1 := AbortSession(w, sid, script[0].o);
      AfterAbort(w, w1, sid, script);
    }
  }

  /** After the abort: the head, the delete when the staging object is there, and the record. */
  lemma AfterAbort(w: World, w1: World, sid: Sid, script: seq<Env>)
    requires IsActive(w, sid) && IsOpen(w, sid) && script != [] && w1 == AbortSession(w, sid, script[0].o)
    ensures var w' := CancelRun(w, CancelAbort(sid), script).0;
      && IsOpen(w', sid) == script[0].o.FailsBefore?
      && sid in w'.sessions && (w'.sessions[sid].state.Active? <==> !CancelRecorded(w, sid, script))
  {
    if script[0].o.Succeeds? {
      AfterHead(w1, sid, script[1..]);
      assert CancelRun(w, CancelAbort(sid), script) == CancelRun(w1, CancelHead(sid), script[1..]);
    } else {
      assert CancelRun(w, CancelAbort(sid), script) == CancelRun(w1, CancelEnd(StorageError), script[1..]);
    }
  }

  lemma AfterHead(w: World, sid: Sid, script: seq<Env>)
    requires IsActive(w, sid) && !IsOpen(w, sid)
    ensures var w' := CancelRun(w, CancelHead(sid), script).0;
      && !IsOpen(w', sid) && sid in w'.sessions
      && (w'.sessions[sid].state.Active? <==>
            !(|script| > 1 && if script[0].o.Succeeds? && Staging(sid) in w.s3.objects
                              then |script| > 2 && script[1].o.Succeeds? && !script[2].o.FailsBefore?
                              else !script[1].o.FailsBefore?))
  {
    if script != [] {
      if script[0].o.Succeeds? && Staging(sid) in w.s3.objects {
        assert CancelRun(w, CancelHead(sid), script) == CancelRun(w, CancelDelete(sid), script[1..]);
        if |script| > 1 {
          var w1 := After(w, RemoveStaging(w, sid), script[1].o);
          assert script[1..][1..] == script[2..];
          if script[1].o.Succeeds? {
            assert CancelRun(w, CancelDelete(sid), script[1..]) == CancelRun(w1, PersistCancelled(sid), script[2..]);
            AtRecord(w1, sid, script[2..]);
          } else {
            assert CancelRun(w, CancelDelete(sid), script[1..]) == CancelRun(w1, CancelEnd(StorageError), script[2..]);
          }
        }
      } else {
        assert CancelRun(w, CancelHead(sid), script) == CancelRun(w, PersistCancelled(sid), script[1..]);
        AtRecord(w, sid, script[1..]);
      }
    }
  }

  lemma AtRecord(w: World, sid: Sid, script: seq<Env>)
    requires IsActive(w, sid)
    ensures var w' := CancelRun(w, PersistCancelled(sid), script).0;
      && IsOpen(w', sid) == IsOpen(w, sid) && sid in w'.sessions
      && (w'.sessions[sid].state.Active? <==> script == [] || script[0].o.FailsBefore?)
  {
    if script != [] {
      var w1 := After(w, SetState(w, sid, Cancelled), script[0].o);
      assert CancelRun(w, PersistCancelled(sid), script).0 == CancelRun(w1, CancelEnd(NoContent), script[1..]).0;
    }
  }
}
