// Restartability of complete: attempts that run one after another, each cut or
// failing wherever the environment likes, and what a clean attempt then does.
module UploadRestart {
  import opened Basics
  import opened Tiling
  import opened ObjectStorage
  import opened UploadWorld
  import opened UploadHandlers
  import opened UploadInvariant
  import opened UploadSafety

  /** One attempt from pc: it ends by itself, or is cut when the environment stops supplying calls. */
  function Attempt(w: World, pc: CompletePc, script: seq<Env>): (World, CompletePc)
    decreases |script|
  {
    if pc.CompleteEnd? || script == [] then (w, pc)
    else
      var r := CompleteStep(w, pc, script[0]);
      Attempt(r.0, r.1, script[1..])
  }

  const CLEAN := Env(Succeeds, [], false)

  function Rank(pc: CompletePc): nat
  {
    match pc
    case CompleteStart(_, _) => 11
    case LoadChunks(_, _) => 10
    case FinishMultipart(_, _, _) => 9
    case HeadStaging(_, _) => 8
    case HashStaging(_, _) => 7
    case CopyToAsset(_, _, _, _) => 6
    case DeleteStaging(_, _, _) => 5
    case PersistAssembled(_, _, _) => 4
    case EmitLanded(_, _, _) => 3
    case EmitMetering(_, _, _) => 2
    case PersistCompleted(_, _) => 1
    case CompleteEnd(_) => 0
  }

  function LeftToCopy(pc: CompletePc): nat
  {
    if pc.CopyToAsset? && pc.sess.size > |pc.copied| then pc.sess.size - |pc.copied| else 0
  }

  /** An attempt in which no call fails and nothing is cut, run to its end. */
  function Finish(w: World, pc: CompletePc): (World, CompletePc)
    decreases Rank(pc), LeftToCopy(pc)
  {
    if pc.CompleteEnd? then (w, pc)
    else
      var r := CompleteStep(w, pc, CLEAN);
      Finish(r.0, r.1)
  }

  lemma CleanStepDecreases(w: World, pc: CompletePc)
    requires !pc.CompleteEnd?
    ensures var r := CompleteStep(w, pc, CLEAN);
      Rank(r.1) < Rank(pc) || (Rank(r.1) == Rank(pc) && LeftToCopy(r.1) < LeftToCopy(pc))
    ensures Finish(w, pc) == Finish(CompleteStep(w, pc, CLEAN).0, CompleteStep(w, pc, CLEAN).1)
  {
  }

  // ---- when a clean attempt succeeds ----

  predicate LiveAndMatching(w: World, sid: Sid)
    requires sid in w.chunks && AllDone(w.chunks[sid])
  {
    CompletionAccepted(w, sid, PartList(w.chunks[sid]))
  }

  /** Everything a clean attempt needs is still somewhere: recorded, in staging, or in the open multipart. */
  predicate Completable(w: World, sid: Sid)
  {
    && sid in w.sessions && sid in w.chunks
    && !w.sessions[sid].state.Cancelled?
    && (w.sessions[sid].state.Completed?
        || (AllDone(w.chunks[sid])
            && (w.sessions[sid].state.Assembled? || Staging(sid) in w.s3.objects || LiveAndMatching(w, sid))))
  }

  /** The staging object is gone, the multipart is consumed, and nothing was recorded. */
  predicate Stranded(w: World, sid: Sid)
  {
    sid in w.sessions && w.sessions[sid].state.Active?
    && Staging(sid) !in w.s3.objects && OfSession(sid) !in w.s3.uploads
  }

  /** From here on a clean attempt cannot fail any more. */
  ghost predicate OnTrack(w: World, pc: CompletePc)
  {
    && WorldInv(w) && LocalComplete(w, pc)
    && match pc
       case HashStaging(sid, _) => Staging(sid) in w.s3.objects
       case CopyToAsset(sid, _, _, _) => Staging(sid) in w.s3.objects
       case DeleteStaging(_, _, _) => true
       case PersistAssembled(_, _, _) => true
       case EmitLanded(_, sess, _) => sess.sha.Some?
       case EmitMetering(_, _, _) => true
       case PersistCompleted(_, _) => true
       case _ => false
  }

  /** Still on track for the same session, or already answered with the session recorded COMPLETED. */
  ghost predicate OnTrackAfter(r: (World, CompletePc), sid: Sid)
  {
    (OnTrack(r.0, r.1) && r.1.sid == sid)
    || (r.1 == CompleteEnd(Landed200) && sid in r.0.sessions && r.0.sessions[sid].state.Completed?)
  }

  lemma OnTrackHash(w: World, pc: CompletePc)
    requires OnTrack(w, pc) && pc.HashStaging?
    ensures OnTrackAfter(CompleteStep(w, pc, CLEAN), pc.sid)
  {
    HashStagingGood(w, 0, pc.sid, pc.sess, CLEAN);
    StagingHasDeclaredSize(w, pc.sid);
  }

  lemma OnTrackCopy(w: World, pc: CompletePc)
    requires OnTrack(w, pc) && pc.CopyToAsset?
    ensures OnTrackAfter(CompleteStep(w, pc, CLEAN), pc.sid)
  {
    hide WorldInv, Evolves;
    CopyToAssetGood(w, 0, pc.sid, pc.sess, pc.sha, pc.copied, CLEAN);
    StagingHasDeclaredSize(w, pc.sid);
  }

  lemma OnTrackPersist(w: World, pc: CompletePc)
    requires OnTrack(w, pc) && (pc.DeleteStaging? || pc.PersistAssembled?)
    ensures OnTrackAfter(CompleteStep(w, pc, CLEAN), pc.sid)
  {
    hide WorldInv, Evolves;
    if pc.DeleteStaging? {
      DeleteStagingGood(w, 0, pc.sid, pc.sess, pc.sha, CLEAN);
    } else {
      PersistAssembledGood(w, 0, pc.sid, pc.sess, pc.sha, CLEAN);
    }
  }

  lemma OnTrackPublish(w: World, pc: CompletePc)
    requires OnTrack(w, pc) && (pc.EmitLanded? || pc.EmitMetering?)
    ensures OnTrackAfter(CompleteStep(w, pc, CLEAN), pc.sid)
  {
    hide WorldInv, Evolves;
    if pc.EmitLanded? {
      EmitLandedGood(w, 0, pc.sid, pc.sess, pc.attempt, CLEAN);
    } else {
      EmitMeteringGood(w, 0, pc.sid, pc.sess, pc.attempt, CLEAN);
    }
  }

  lemma OnTrackStep(w: World, pc: CompletePc)
    requires OnTrack(w, pc)
    ensures OnTrackAfter(CompleteStep(w, pc, CLEAN), pc.sid)
  {
    hide WorldInv;
    match pc
    case HashStaging(_, _) => OnTrackHash(w, pc);
    case CopyToAsset(_, _, _, _) => OnTrackCopy(w, pc);
    case DeleteStaging(_, _, _) => OnTrackPersist(w, pc);
    case PersistAssembled(_, _, _) => OnTrackPersist(w, pc);
    case EmitLanded(_, _, _) => OnTrackPublish(w, pc);
    case EmitMetering(_, _, _) => OnTrackPublish(w, pc);
    case PersistCompleted(_, _) =>
  }

  lemma {:induction false} OnTrackFinishes(w: World, pc: CompletePc)
    requires OnTrack(w, pc)
    ensures Finish(w, pc).1 == CompleteEnd(Landed200)
    ensures pc.sid in Finish(w, pc).0.sessions && Finish(w, pc).0.sessions[pc.sid].state.Completed?
    decreases Rank(pc), LeftToCopy(pc)
  {
    hide WorldInv, LocalComplete;
    var r := CompleteStep(w, pc, CLEAN);
    OnTrackStep(w, pc);
    CleanStepDecreases(w, pc);
    if !r.1.CompleteEnd? {
      OnTrackFinishes(r.0, r.1);
    }
  }

  /** A clean attempt by the owning workspace reaches COMPLETED exactly when the session is completable. */
  lemma CleanAttemptCompletesIff(w: World, sid: Sid)
    requires WorldInv(w) && sid in w.sessions
    ensures var r := Finish(w, CompleteStart(sid, w.sessions[sid].ws));
      (sid in r.0.sessions && r.0.sessions[sid].state.Completed?) <==> Completable(w, sid)
  {
    var s := w.sessions[sid];
    SnapshotOnLoad(w, sid);
    if s.state.Active? || s.state.Assembled? {
      FinishFromLoad(w, sid);
    }
  }

  lemma FinishFromLoad(w: World, sid: Sid)
    requires WorldInv(w) && sid in w.sessions && (w.sessions[sid].state.Active? || w.sessions[sid].state.Assembled?)
    ensures var r := Finish(w, LoadChunks(sid, w.sessions[sid]));
      (sid in r.0.sessions && r.0.sessions[sid].state.Completed?) <==> Completable(w, sid)
  {
    var s := w.sessions[sid];
    SnapshotOnLoad(w, sid);
    var r := CompleteStep(w, LoadChunks(sid, s), CLEAN);
    LoadChunksGood(w, 0, sid, s, CLEAN);
    if AllDone(w.chunks[sid]) {
      if s.state.Active? {
        FinishFromMultipart(w, sid);
      } else {
        OnTrackFinishes(w, EmitLanded(sid, s, 0));
      }
    }
  }

  lemma ReadyToJoin(w: World, sid: Sid)
    requires WorldInv(w) && sid in w.sessions && w.sessions[sid].state.Active? && AllDone(w.chunks[sid])
    ensures sid in w.chunks && LocalComplete(w, FinishMultipart(sid, w.sessions[sid], PartList(w.chunks[sid])))
  {
    SnapshotOnLoad(w, sid);
  }

  lemma OnTrackAtHash(w: World, sid: Sid, s: Session)
    requires WorldInv(w) && Snapshot(w, sid, s) && Staging(sid) in w.s3.objects
    ensures OnTrack(w, HashStaging(sid, s))
  {
    hide WorldInv;
  }

  lemma FinishByCompleting(w: World, sid: Sid)
    requires WorldInv(w) && sid in w.sessions && w.sessions[sid].state.Active? && AllDone(w.chunks[sid])
    requires LiveAndMatching(w, sid)
    ensures var r := Finish(w, FinishMultipart(sid, w.sessions[sid], PartList(w.chunks[sid])));
      sid in r.0.sessions && r.0.sessions[sid].state.Completed?
  {
    ReadyToJoin(w, sid);
    hide WorldInv, Evolves, LocalComplete;
    var s, parts := w.sessions[sid], PartList(w.chunks[sid]);
    CompleteCallGood(w, 0, sid, s, parts, Succeeds);
    StagingAfterCompletion(w, sid, parts);
    OnTrackAtHash(CompleteMultipart(w, sid, parts), sid, s);
    OnTrackFinishes(CompleteMultipart(w, sid, parts), HashStaging(sid, s));
  }

  lemma FinishFromStaging(w: World, sid: Sid)
    requires WorldInv(w) && sid in w.sessions && Staging(sid) in w.s3.objects
    ensures var r := Finish(w, HeadStaging(sid, w.sessions[sid]));
      sid in r.0.sessions && r.0.sessions[sid].state.Completed?
  {
    SnapshotOnLoad(w, sid);
    StagingHasDeclaredSize(w, sid);
    OnTrackFinishes(w, HashStaging(sid, w.sessions[sid]));
  }

  lemma FinishWithoutStaging(w: World, sid: Sid, s: Session)
    requires Staging(sid) !in w.s3.objects
    ensures Finish(w, HeadStaging(sid, s)) == (w, CompleteEnd(AssemblyFailed))
  {
    assert CompleteStep(w, HeadStaging(sid, s), CLEAN) == (w, CompleteEnd(AssemblyFailed));
  }

  lemma FinishFromMultipart(w: World, sid: Sid)
    requires WorldInv(w) && sid in w.sessions && w.sessions[sid].state.Active? && AllDone(w.chunks[sid])
    ensures var r := Finish(w, FinishMultipart(sid, w.sessions[sid], PartList(w.chunks[sid])));
      (sid in r.0.sessions && r.0.sessions[sid].state.Completed?) <==> Completable(w, sid)
  {
    if LiveAndMatching(w, sid) {
      FinishByCompleting(w, sid);
    } else {
      var s := w.sessions[sid];
      var r := CompleteStep(w, FinishMultipart(sid, s, PartList(w.chunks[sid])), CLEAN);
      assert r == (w, HeadStaging(sid, s));
      if Staging(sid) in w.s3.objects {
        FinishFromStaging(w, sid);
      } else {
        FinishWithoutStaging(w, sid, s);
      }
    }
  }

  lemma StagingAfterCompletion(w: World, sid: Sid, parts: seq<Part>)
    requires WorldInv(w) && CompletionAccepted(w, sid, parts)
    ensures Staging(sid) in CompleteMultipart(w, sid, parts).s3.objects
  {
    assert UploadOk(w.s3.uploads[OfSession(sid)], sid, w.verified);
  }

  // ---- what failing and cut attempts leave behind ----

  /** The bytes the session stands for: what was joined, or else what the chunk map records. */
  function Content(w: World, sid: Sid): Bytes
    requires sid in w.assembled || (sid in w.chunks && AllDone(w.chunks[sid]))
  {
    if sid in w.assembled then Concat(w.assembled[sid]) else Concat(RecordedBodies(w.chunks[sid]))
  }

  /** The point after the staging delete and before the ASSEMBLED record. */
  predicate InWindow(pc: CompletePc)
  {
    pc.PersistAssembled? || pc == CompleteEnd(PersistAssembledFailed)
  }

  predicate InAssembly(pc: CompletePc)
  {
    pc.FinishMultipart? || pc.HeadStaging? || pc.HashStaging? || pc.CopyToAsset? || pc.DeleteStaging?
    || pc.PersistAssembled?
  }

  /** What holds at pc of an attempt that runs alone on a session that was completable when it started. */
  predicate Alone(w: World, pc: CompletePc, sid: Sid, content: Bytes)
  {
    && sid in w.sessions && sid in w.chunks && AllDone(w.chunks[sid]) && Content(w, sid) == content
    && (pc.CompleteEnd? || pc.sid == sid)
    && (Completable(w, sid) || (InWindow(pc) && Stranded(w, sid)))
    && (pc.LoadChunks? ==> pc.sess == w.sessions[sid])
    && (pc.FinishMultipart? ==> pc.parts == PartList(w.chunks[sid]))
    && (InAssembly(pc) ==> w.sessions[sid].state.Active?)
  }

  /** An accepted completion joins exactly the bodies the chunk map records. */
  lemma JoinedAsRecorded(w: World, sid: Sid)
    requires sid in w.chunks && AllDone(w.chunks[sid]) && LiveAndMatching(w, sid)
    ensures PartBodies(w.s3.uploads[OfSession(sid)], SortParts(PartList(w.chunks[sid])))
         == RecordedBodies(w.chunks[sid])
  {
    var parts := PartList(w.chunks[sid]);
    SortPartsOfAscending(parts);
    var up := w.s3.uploads[OfSession(sid)];
    forall i | 0 <= i < |parts| ensures PartBodies(up, parts)[i] == RecordedBodies(w.chunks[sid])[i] {
      assert parts[i] in parts;
    }
  }

  lemma AloneFinishMultipart(w: World, sid: Sid, sess: Session, parts: seq<Part>, content: Bytes, e: Env)
    requires WorldInv(w) && Alone(w, FinishMultipart(sid, sess, parts), sid, content)
    ensures var r := CompleteStep(w, FinishMultipart(sid, sess, parts), e); Alone(r.0, r.1, sid, content)
  {
    if CompletionAccepted(w, sid, parts) {
      StagingAfterCompletion(w, sid, parts);
      JoinedAsRecorded(w, sid);
      NotYetAssembled(w, sid);
    }
  }

  lemma NotYetAssembled(w: World, sid: Sid)
    requires WorldInv(w)
    ensures OfSession(sid) in w.s3.uploads ==> sid !in w.assembled
  {
  }

  lemma ContentOfAssembling(w: World, pc: CompletePc)
    requires WorldInv(w) && LocalComplete(w, pc) && (pc.CopyToAsset? || pc.DeleteStaging? || pc.PersistAssembled?)
    ensures pc.sid in w.assembled && pc.sid in w.sessions && OfSession(pc.sid) !in w.s3.uploads
  {
    NotYetAssembled(w, pc.sid);
  }

  lemma AloneAssembling(w: World, pc: CompletePc, content: Bytes, e: Env)
    requires pc.CopyToAsset? || pc.DeleteStaging? || pc.PersistAssembled?
    requires pc.sid in w.assembled && OfSession(pc.sid) !in w.s3.uploads
    requires Alone(w, pc, pc.sid, content)
    ensures var r := CompleteStep(w, pc, e); Alone(r.0, r.1, pc.sid, content)
  {
  }

  lemma AloneReading(w: World, pc: CompletePc, sid: Sid, content: Bytes, e: Env)
    requires pc.CompleteStart? || pc.LoadChunks? || pc.HeadStaging? || pc.HashStaging? || pc.CompleteEnd?
    requires Alone(w, pc, sid, content)
    requires pc.LoadChunks? ==> |w.chunks[sid]| == pc.sess.count
    ensures var r := CompleteStep(w, pc, e); Alone(r.0, r.1, sid, content)
  {
  }

  lemma AlonePublishing(w: World, pc: CompletePc, content: Bytes, e: Env)
    requires pc.EmitLanded? || pc.EmitMetering? || pc.PersistCompleted?
    requires Alone(w, pc, pc.sid, content)
    ensures var r := CompleteStep(w, pc, e); Alone(r.0, r.1, pc.sid, content)
  {
  }

  lemma AloneStep(w: World, pc: CompletePc, sid: Sid, content: Bytes, e: Env)
    requires WorldInv(w) && LocalComplete(w, pc) && Alone(w, pc, sid, content)
    ensures var r := CompleteStep(w, pc, e);
      WorldInv(r.0) && LocalComplete(r.0, r.1) && Alone(r.0, r.1, sid, content)
      && r.0.sessions[sid].ws == w.sessions[sid].ws
  {
    CompleteStepGood(w, 0, pc, e);
    if pc.FinishMultipart? {
      AloneFinishMultipart(w, sid, pc.sess, pc.parts, content, e);
    } else if pc.CopyToAsset? || pc.DeleteStaging? || pc.PersistAssembled? {
      ContentOfAssembling(w, pc);
      AloneAssembling(w, pc, content, e);
    } else if pc.EmitLanded? || pc.EmitMetering? || pc.PersistCompleted? {
      AlonePublishing(w, pc, content, e);
    } else {
      AloneReading(w, pc, sid, content, e);
    }
  }

  lemma {:induction false} AloneAttempt(w: World, pc: CompletePc, sid: Sid, content: Bytes, script: seq<Env>)
    requires WorldInv(w) && LocalComplete(w, pc) && Alone(w, pc, sid, content)
    ensures var r := Attempt(w, pc, script);
      WorldInv(r.0) && LocalComplete(r.0, r.1) && Alone(r.0, r.1, sid, content)
      && r.0.sessions[sid].ws == w.sessions[sid].ws
    decreases |script|
  {
    if !pc.CompleteEnd? && script != [] {
      AloneStep(w, pc, sid, content, script[0]);
      var r := CompleteStep(w, pc, script[0]);
      AloneAttempt(r.0, r.1, sid, content, script[1..]);
    }
  }

  lemma {:induction false} AloneFinish(w: World, pc: CompletePc, sid: Sid, content: Bytes)
    requires WorldInv(w) && LocalComplete(w, pc) && Alone(w, pc, sid, content)
    ensures var r := Finish(w, pc);
      WorldInv(r.0) && Alone(r.0, r.1, sid, content) && r.0.sessions[sid].ws == w.sessions[sid].ws
    decreases Rank(pc), LeftToCopy(pc)
  {
    if !pc.CompleteEnd? {
      AloneStep(w, pc, sid, content, CLEAN);
      CleanStepDecreases(w, pc);
      var r := CompleteStep(w, pc, CLEAN);
      AloneFinish(r.0, r.1, sid, content);
    }
  }

  // ---- once stranded, always stranded ----

  predicate StrandedAt(w: World, pc: CompletePc, sid: Sid)
  {
    Stranded(w, sid)
    && match pc
       case CompleteStart(k, _) => k == sid
       case LoadChunks(k, sess) => k == sid && sess.state.Active?
       case FinishMultipart(k, _, _) => k == sid
       case HeadStaging(k, _) => k == sid
       case CompleteEnd(_) => true
       case _ => false
  }

  lemma {:induction false} StrandedStays(w: World, pc: CompletePc, sid: Sid, script: seq<Env>)
    requires StrandedAt(w, pc, sid)
    ensures Stranded(Attempt(w, pc, script).0, sid)
    ensures Attempt(w, pc, script).0.sessions == w.sessions
    decreases |script|
  {
    if !pc.CompleteEnd? && script != [] {
      var r := CompleteStep(w, pc, script[0]);
      StrandedStays(r.0, r.1, sid, script[1..]);
    }
  }

  // ---- any number of attempts, one after another ----

  function Attempts(w: World, sid: Sid, ws: string, scripts: seq<seq<Env>>): World
    decreases |scripts|
  {
    if scripts == [] then w
    else Attempts(Attempt(w, CompleteStart(sid, ws), scripts[0]).0, sid, ws, scripts[1..])
  }

  /** The staging delete of this attempt takes effect and its ASSEMBLED record, failed or never reached, does not. */
  predicate StopsInWindow(w: World, pc: CompletePc, script: seq<Env>)
    decreases |script|
  {
    && !pc.CompleteEnd? && script != []
    && if pc.DeleteStaging? then !script[0].o.FailsBefore? && (|script| == 1 || script[1].o.FailsBefore?)
       else StopsInWindow(CompleteStep(w, pc, script[0]).0, CompleteStep(w, pc, script[0]).1, script[1..])
  }

  /** Some attempt stops there. */
  predicate StoppedInWindow(w: World, sid: Sid, ws: string, scripts: seq<seq<Env>>)
    decreases |scripts|
  {
    && scripts != []
    && (StopsInWindow(w, CompleteStart(sid, ws), scripts[0])
        || StoppedInWindow(Attempt(w, CompleteStart(sid, ws), scripts[0]).0, sid, ws, scripts[1..]))
  }

  /** What that script leaves: the answer or the cut is in the window, and the session is stranded. */
  lemma {:induction false} StopsInWindowIff(w: World, pc: CompletePc, sid: Sid, content: Bytes, script: seq<Env>)
    requires WorldInv(w) && LocalComplete(w, pc) && Alone(w, pc, sid, content) && !InWindow(pc)
    ensures var r := Attempt(w, pc, script);
      StopsInWindow(w, pc, script) <==> InWindow(r.1) && Stranded(r.0, sid)
    decreases |script|
  {
    if !pc.CompleteEnd? && script != [] {
      if pc.DeleteStaging? {
        DeleteThenRecord(w, pc, sid, script);
      } else {
        hide WorldInv, LocalComplete, Alone, Stranded;
        AloneStep(w, pc, sid, content, script[0]);
        var r := CompleteStep(w, pc, script[0]);
        WindowOpensAtDelete(w, pc, script[0]);
        StopsInWindowIff(r.0, r.1, sid, content, script[1..]);
      }
    }
  }

  lemma WindowOpensAtDelete(w: World, pc: CompletePc, e: Env)
    requires !InWindow(pc) && !pc.DeleteStaging?
    ensures !InWindow(CompleteStep(w, pc, e).1)
  {
  }

  /** The delete and the record that follows it. */
  lemma DeleteThenRecord(w: World, pc: CompletePc, sid: Sid, script: seq<Env>)
    requires WorldInv(w) && LocalComplete(w, pc) && pc.DeleteStaging? && pc.sid == sid && script != []
    requires sid in w.sessions && w.sessions[sid].state.Active? && Completable(w, sid)
    ensures var r := Attempt(w, pc, script);
      StopsInWindow(w, pc, script) <==> InWindow(r.1) && Stranded(r.0, sid)
  {
    ContentOfAssembling(w, pc);
    hide WorldInv;
    assert Staging(sid) in w.s3.objects;
    var w1 := After(w, RemoveStaging(w, sid), script[0].o);
    var record := PersistAssembled(sid, pc.sess, pc.sha);
    assert CompleteStep(w, pc, script[0]) == (w1, record);
    assert Stranded(w1, sid) <==> !script[0].o.FailsBefore?;
    if |script| > 1 {
      var r := CompleteStep(w1, record, script[1]);
      assert Attempt(w, pc, script) == Attempt(r.0, r.1, script[1..][1..]);
      if script[1].o.FailsBefore? {
        assert r == (w1, CompleteEnd(PersistAssembledFailed));
      } else {
        assert r.0.sessions[sid].state.Assembled?;
        RecordedIsNotStranded(r.0, r.1, sid, script[1..][1..]);
      }
    }
  }

  lemma {:induction false} RecordedIsNotStranded(w: World, pc: CompletePc, sid: Sid, script: seq<Env>)
    requires sid in w.sessions && !w.sessions[sid].state.Active?
    requires pc.EmitLanded? || pc.EmitMetering? || pc.PersistCompleted? || pc.CompleteEnd?
    ensures !Stranded(Attempt(w, pc, script).0, sid)
    decreases |script|
  {
    if !pc.CompleteEnd? && script != [] {
      var r := CompleteStep(w, pc, script[0]);
      RecordedIsNotStranded(r.0, r.1, sid, script[1..]);
    }
  }

  lemma {:induction false} StrandedForever(w: World, sid: Sid, ws: string, scripts: seq<seq<Env>>)
    requires Stranded(w, sid)
    ensures Stranded(Attempts(w, sid, ws, scripts), sid)
    decreases |scripts|
  {
    if scripts != [] {
      StrandedStays(w, CompleteStart(sid, ws), sid, scripts[0]);
      StrandedForever(Attempt(w, CompleteStart(sid, ws), scripts[0]).0, sid, ws, scripts[1..]);
    }
  }

  lemma {:induction false} AttemptsKeep(w: World, sid: Sid, ws: string, content: Bytes, scripts: seq<seq<Env>>)
    requires WorldInv(w) && Alone(w, CompleteStart(sid, ws), sid, content) && w.sessions[sid].ws == ws
    ensures var w' := Attempts(w, sid, ws, scripts);
      if StoppedInWindow(w, sid, ws, scripts) then Stranded(w', sid)
      else WorldInv(w') && Alone(w', CompleteStart(sid, ws), sid, content) && w'.sessions[sid].ws == ws
    decreases |scripts|
  {
    if scripts != [] {
      var r := Attempt(w, CompleteStart(sid, ws), scripts[0]);
      AloneAttempt(w, CompleteStart(sid, ws), sid, content, scripts[0]);
      StopsInWindowIff(w, CompleteStart(sid, ws), sid, content, scripts[0]);
      if StopsInWindow(w, CompleteStart(sid, ws), scripts[0]) {
        StrandedForever(r.0, sid, ws, scripts[1..]);
      } else {
        AttemptsKeep(r.0, sid, ws, content, scripts[1..]);
      }
    }
  }

  // ---- a session that cannot be completed is left as it is ----

  /** All chunks are DONE, and storage neither holds the staging object nor accepts the recorded parts. */
  predicate Blocked(w: World, sid: Sid)
  {
    && sid in w.sessions && w.sessions[sid].state.Active? && sid in w.chunks && AllDone(w.chunks[sid])
    && Staging(sid) !in w.s3.objects && !LiveAndMatching(w, sid)
  }

  predicate BlockedAt(w: World, pc: CompletePc, sid: Sid)
  {
    Blocked(w, sid)
    && match pc
       case CompleteStart(k, _) => k == sid
       case LoadChunks(k, sess) => k == sid && sess.state.Active?
       case FinishMultipart(k, _, parts) => k == sid && parts == PartList(w.chunks[sid])
       case HeadStaging(k, _) => k == sid
       case CompleteEnd(response) => response != Landed200
       case _ => false
  }

  lemma BlockedStep(w: World, pc: CompletePc, sid: Sid, e: Env)
    requires BlockedAt(w, pc, sid)
    ensures CompleteStep(w, pc, e).0 == w && BlockedAt(w, CompleteStep(w, pc, e).1, sid)
  {
  }

  lemma {:induction false} BlockedStays(w: World, pc: CompletePc, sid: Sid, script: seq<Env>)
    requires BlockedAt(w, pc, sid)
    ensures Attempt(w, pc, script).0 == w
    decreases |script|
  {
    hide BlockedAt, CompleteStep;
    if !pc.CompleteEnd? && script != [] {
      BlockedStep(w, pc, sid, script[0]);
      BlockedStays(w, CompleteStep(w, pc, script[0]).1, sid, script[1..]);
    }
  }

  /** Attempts on a blocked session change nothing, and a clean one changes nothing either. */
  lemma {:induction false} BlockedForever(w: World, sid: Sid, ws: string, scripts: seq<seq<Env>>)
    requires Blocked(w, sid)
    ensures Attempts(w, sid, ws, scripts) == w
    decreases |scripts|
  {
    if scripts != [] {
      BlockedStays(w, CompleteStart(sid, ws), sid, scripts[0]);
      BlockedForever(w, sid, ws, scripts[1..]);
    }
  }

  lemma {:induction false} FinishBlocked(w: World, pc: CompletePc, sid: Sid)
    requires BlockedAt(w, pc, sid)
    ensures Finish(w, pc).0 == w
    decreases Rank(pc), LeftToCopy(pc)
  {
    hide BlockedAt, CompleteStep;
    if !pc.CompleteEnd? {
      BlockedStep(w, pc, sid, CLEAN);
      CleanStepDecreases(w, pc);
      FinishBlocked(w, CompleteStep(w, pc, CLEAN).1, sid);
    }
  }

  /**
   * Restartable complete. For any session that is not cancelled and whose chunks are all DONE, after any number
   * of attempts cut or failing anywhere, one clean attempt reaches COMPLETED if and only if what it needs was
   * there to begin with and no earlier attempt stopped between its staging delete and its ASSEMBLED record; and
   * then the hash and key are the ones the session stood for before the first attempt.
   */
  lemma RestartableIff(w: World, sid: Sid, scripts: seq<seq<Env>>)
    requires WorldInv(w) && sid in w.sessions && !w.sessions[sid].state.Cancelled? && AllDone(w.chunks[sid])
    ensures var ws := w.sessions[sid].ws;
      var done := Finish(Attempts(w, sid, ws, scripts), CompleteStart(sid, ws)).0;
      var completes := Completable(w, sid) && !StoppedInWindow(w, sid, ws, scripts);
      && ((sid in done.sessions && done.sessions[sid].state.Completed?) <==> completes)
      && (completes ==>
            done.sessions[sid].sha == Some(Sha256(Content(w, sid)))
            && done.sessions[sid].key == Some(Asset(ws, Sha256(Content(w, sid)))))
  {
    var ws := w.sessions[sid].ws;
    if Completable(w, sid) {
      CompletableRestarts(w, sid, scripts);
    } else {
      NotCompletableIsBlocked(w, sid);
      BlockedForever(w, sid, ws, scripts);
      FinishBlocked(w, CompleteStart(sid, ws), sid);
    }
  }

  lemma NotCompletableIsBlocked(w: World, sid: Sid)
    requires WorldInv(w) && sid in w.sessions && !w.sessions[sid].state.Cancelled? && AllDone(w.chunks[sid])
    requires !Completable(w, sid)
    ensures Blocked(w, sid)
  {
  }

  lemma CompletableRestarts(w: World, sid: Sid, scripts: seq<seq<Env>>)
    requires WorldInv(w) && Completable(w, sid) && AllDone(w.chunks[sid])
    ensures var ws := w.sessions[sid].ws;
      var done := Finish(Attempts(w, sid, ws, scripts), CompleteStart(sid, ws)).0;
      && ((sid in done.sessions && done.sessions[sid].state.Completed?) <==> !StoppedInWindow(w, sid, ws, scripts))
      && (!StoppedInWindow(w, sid, ws, scripts) ==>
            done.sessions[sid].sha == Some(Sha256(Content(w, sid)))
            && done.sessions[sid].key == Some(Asset(ws, Sha256(Content(w, sid)))))
  {
    var ws, content := w.sessions[sid].ws, Content(w, sid);
    AttemptsKeep(w, sid, ws, content, scripts);
    var w' := Attempts(w, sid, ws, scripts);
    if StoppedInWindow(w, sid, ws, scripts) {
      FinishStranded(w', sid, ws);
    } else {
      CleanAttemptCompletesIff(w', sid);
      AloneFinish(w', CompleteStart(sid, ws), sid, content);
      CompletedHash(Finish(w', CompleteStart(sid, ws)).0, sid);
    }
  }

  lemma FinishStranded(w: World, sid: Sid, ws: string)
    requires Stranded(w, sid)
    ensures !(sid in Finish(w, CompleteStart(sid, ws)).0.sessions
              && Finish(w, CompleteStart(sid, ws)).0.sessions[sid].state.Completed?)
  {
    var r1 := CompleteStep(w, CompleteStart(sid, ws), CLEAN);
    CleanStepDecreases(w, CompleteStart(sid, ws));
    if r1.1.LoadChunks? {
      var r2 := CompleteStep(w, r1.1, CLEAN);
      CleanStepDecreases(w, r1.1);
      if r2.1.FinishMultipart? {
        CleanStepDecreases(w, r2.1);
        var r3 := CompleteStep(w, r2.1, CLEAN);
        assert r3 == (w, HeadStaging(sid, w.sessions[sid]));
        FinishWithoutStaging(w, sid, w.sessions[sid]);
      }
    }
  }

  lemma CompletedHash(w: World, sid: Sid)
    requires WorldInv(w) && sid in w.sessions && w.sessions[sid].state.Completed?
    ensures sid in w.assembled && w.sessions[sid].sha == Some(Sha256(Content(w, sid)))
    ensures w.sessions[sid].key == Some(Asset(w.sessions[sid].ws, Sha256(Content(w, sid))))
  {
    assert Recorded(sid, w.sessions[sid].ws, w.sessions[sid].sha.value, w.assembled, w.s3.objects);
  }

  // ---- attempts that enter at ASSEMBLED ----

  predicate PastAssembly(w: World, pc: CompletePc)
  {
    match pc
    case CompleteStart(sid, _) => sid in w.sessions ==> !w.sessions[sid].state.Active?
    case LoadChunks(_, sess) => !sess.state.Active?
    case _ => !InAssembly(pc)
  }

  /** An attempt that enters at ASSEMBLED (or later) makes no storage call at all, however it ends. */
  lemma {:induction false} AssembledNeverReassembles(w: World, pc: CompletePc, script: seq<Env>)
    requires PastAssembly(w, pc)
    ensures Attempt(w, pc, script).0.s3 == w.s3 && Attempt(w, pc, script).0.assembled == w.assembled
    ensures !InAssembly(Attempt(w, pc, script).1)
    decreases |script|
  {
    if !pc.CompleteEnd? && script != [] {
      var r := CompleteStep(w, pc, script[0]);
      AssembledNeverReassembles(r.0, r.1, script[1..]);
    }
  }
}
