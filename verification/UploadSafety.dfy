// Main safety results of the upload service: content addressing, reassembly,
// and the order of records and publishes, over every reachable state.
module UploadSafety {
  import opened Basics
  import GoInt
  import opened Tiling
  import opened ObjectStorage
  import opened UploadWorld
  import opened UploadHandlers
  import opened UploadInvariant
  import BlobStores

  // A step that keeps the invariant, stays within the rely, and establishes the handler's next knowledge.

  ghost predicate GoodCreate(w: World, tid: nat, r: (World, CreatePc))
  {
    WorldInv(r.0) && Evolves(w, r.0, tid) && LocalCreate(r.0, tid, r.1)
  }

  ghost predicate GoodPut(w: World, tid: nat, r: (World, PutPc))
  {
    WorldInv(r.0) && Evolves(w, r.0, tid) && LocalPut(r.0, r.1)
  }

  ghost predicate GoodComplete(w: World, tid: nat, r: (World, CompletePc))
  {
    WorldInv(r.0) && Evolves(w, r.0, tid) && LocalComplete(r.0, r.1)
  }

  ghost predicate GoodCancel(w: World, tid: nat, r: (World, CancelPc))
  {
    WorldInv(r.0) && Evolves(w, r.0, tid) && LocalCancel(r.0, r.1)
  }

  /** Whether or not the call took effect, the world stays good. */
  lemma EitherWay(w: World, done: World, tid: nat, o: Outcome)
    requires WorldInv(w) && WorldInv(done) && Evolves(w, done, tid)
    ensures WorldInv(After(w, done, o)) && Evolves(w, After(w, done, o), tid)
  {
  }

  lemma EvolvesNothing(w: World, tid: nat)
    ensures Evolves(w, w, tid)
  {
  }

  // One lemma per kind of call: whichever way it ends, the world stays good.

  lemma SetStateCall(w: World, tid: nat, sid: Sid, state: SessionState, o: Outcome)
    requires WorldInv(w) && sid in w.sessions
    requires state.Cancelled? || (state.Completed? && LandedPublished(sid, w.sessions[sid], w.landed)
                                  && MeterPublished(sid, w.sessions[sid], w.metered))
    ensures WorldInv(After(w, SetState(w, sid, state), o)) && Evolves(w, After(w, SetState(w, sid, state), o), tid)
  {
    SetStateKeeps(w, tid, sid, state);
    EitherWay(w, SetState(w, sid, state), tid, o);
  }

  lemma PublishMeteredCall(w: World, tid: nat, ev: Metered, o: Outcome)
    requires WorldInv(w)
    ensures WorldInv(After(w, PublishMetered(w, ev), o)) && Evolves(w, After(w, PublishMetered(w, ev), o), tid)
  {
    PublishMeteredKeeps(w, tid, ev);
    EitherWay(w, PublishMetered(w, ev), tid, o);
  }

  lemma SetChunkCall(w: World, tid: nat, sid: Sid, n: int, c: Chunk, o: Outcome)
    requires WorldInv(w) && DoneOk(c, sid, n, w.verified) && (c.state.Done? ==> PartStored(w.s3.uploads, sid, n))
    ensures WorldInv(After(w, SetChunk(w, sid, n, c), o)) && Evolves(w, After(w, SetChunk(w, sid, n, c), o), tid)
  {
    SetChunkKeeps(w, tid, sid, n, c);
    EitherWay(w, SetChunk(w, sid, n, c), tid, o);
  }

  lemma SetAssembledCall(w: World, tid: nat, sid: Sid, sess: Session, sha: Digest, o: Outcome)
    requires WorldInv(w) && Assembling(w, sid, sess, sha) && Recorded(sid, sess.ws, sha, w.assembled, w.s3.objects)
    ensures var w' := After(w, SetAssembled(w, sid, sha, Asset(sess.ws, sha)), o);
      WorldInv(w') && Evolves(w, w', tid)
  {
    SetAssembledKeeps(w, tid, sid, sha);
    EitherWay(w, SetAssembled(w, sid, sha, Asset(sess.ws, sha)), tid, o);
  }

  lemma InsertCall(w: World, tid: nat, sid: Sid, req: Session, o: Outcome)
    requires WorldInv(w) && LocalCreate(w, tid, InsertSession(sid, req))
    ensures var w' := After(w, CreateSession(w, sid, req), o);
      WorldInv(w') && Evolves(w, w', tid)
  {
    InsertKeeps(w, tid, sid, req);
    EitherWay(w, CreateSession(w, sid, req), tid, o);
  }

  // One lemma per program point.

  lemma CreateStartGood(w: World, tid: nat, pc: CreatePc, e: Env)
    requires WorldInv(w) && pc.CreateStart?
    ensures GoodCreate(w, tid, CreateStep(w, tid, pc, e))
  {
    if pc.body.Some? && ValidCreate(pc.body.value, w.maxObjectBytes) {
      MintGood(w, tid, pc.ws, pc.user, pc.body.value.size);
    }
    EvolvesNothing(w, tid);
    hide ValidCreate, WorldInv, Evolves, ChunkCount, NextSid;
  }

  lemma MintGood(w: World, tid: nat, ws: string, user: string, size: int)
    requires WorldInv(w) && 0 < size <= w.maxObjectBytes
    ensures var sid, count := NextSid(w), ChunkCount(size, w.chunkSize);
      GoodCreate(w, tid, (w.(owner := w.owner[sid := tid]),
                          OpenMultipart(sid, Session(ws, user, size, w.chunkSize, count, Active, None, None))))
  {
    MintKeeps(w, tid);
    MintRows(w.sessions, w.chunks, w.owner, tid);
    assert w.maxObjectBytes <= GoInt.MAX_INT64 && NextSid(w) !in w.sessions && OfSession(NextSid(w)) !in w.s3.uploads;
    hide WorldInv, Evolves, ChunkCount;
  }

  lemma OpenMultipartGood(w: World, tid: nat, sid: Sid, req: Session, e: Env)
    requires WorldInv(w) && LocalCreate(w, tid, OpenMultipart(sid, req))
    ensures GoodCreate(w, tid, CreateStep(w, tid, OpenMultipart(sid, req), e))
  {
    BeginKeeps(w, tid, sid);
    EitherWay(w, BeginMultipart(w, sid), tid, e.o);
  }

  lemma InsertSessionGood(w: World, tid: nat, sid: Sid, req: Session, e: Env)
    requires WorldInv(w) && LocalCreate(w, tid, InsertSession(sid, req))
    ensures GoodCreate(w, tid, CreateStep(w, tid, InsertSession(sid, req), e))
  {
    InsertCall(w, tid, sid, req, e.o);
  }

  lemma CreateAbortGood(w: World, tid: nat, sid: Sid, pc: CreatePc, e: Env)
    requires WorldInv(w) && LocalCreate(w, tid, pc) && (pc == AbortUnsaved(sid) || pc == RollbackAbort(sid))
    ensures GoodCreate(w, tid, CreateStep(w, tid, pc, e))
  {
    hide Evolves;
    OwnAbortKeeps(w, tid, sid);
    EitherWay(w, AbortMultipart(w, sid), tid, e.o);
  }

  lemma MeterCreatedGood(w: World, tid: nat, sid: Sid, req: Session, attempt: nat, e: Env)
    requires WorldInv(w) && LocalCreate(w, tid, MeterCreated(sid, req, attempt))
    ensures GoodCreate(w, tid, CreateStep(w, tid, MeterCreated(sid, req, attempt), e))
  {
    var ev := Metered(sid, UploadSessionCreated, req.ws, req.user, req.size);
    PublishMeteredCall(w, tid, ev, e.o);
    assert CreateStep(w, tid, MeterCreated(sid, req, attempt), e).0 == After(w, PublishMetered(w, ev), e.o);
  }

  lemma RollbackStateGood(w: World, tid: nat, sid: Sid, e: Env)
    requires WorldInv(w) && LocalCreate(w, tid, RollbackState(sid))
    ensures GoodCreate(w, tid, CreateStep(w, tid, RollbackState(sid), e))
  {
    hide WorldInv, Evolves;
    SetStateCall(w, tid, sid, Cancelled, e.o);
    assert CreateStep(w, tid, RollbackState(sid), e).0 == After(w, SetState(w, sid, Cancelled), e.o);
  }

  lemma CreateStepGood(w: World, tid: nat, pc: CreatePc, e: Env)
    requires WorldInv(w) && LocalCreate(w, tid, pc)
    ensures GoodCreate(w, tid, CreateStep(w, tid, pc, e))
  {
    match pc
    case CreateStart(_, _, _, _) => CreateStartGood(w, tid, pc, e);
    case OpenMultipart(sid, req) => OpenMultipartGood(w, tid, sid, req, e);
    case InsertSession(sid, req) => InsertSessionGood(w, tid, sid, req, e);
    case AbortUnsaved(sid) => CreateAbortGood(w, tid, sid, pc, e);
    case MeterCreated(sid, req, attempt) => MeterCreatedGood(w, tid, sid, req, attempt, e);
    case RollbackState(sid) => RollbackStateGood(w, tid, sid, e);
    case RollbackAbort(sid) => CreateAbortGood(w, tid, sid, pc, e);
    case CreateEnd(_) => EvolvesNothing(w, tid);
  }

  lemma ClaimGood(w: World, tid: nat, sid: Sid, sess: Session, n: int, want: Digest, e: Env)
    requires WorldInv(w) && LocalPut(w, Claim(sid, sess, n, want))
    ensures GoodPut(w, tid, PutStep(w, Claim(sid, sess, n, want), e))
  {
    if ChunkIsDone(w, sid, n) {
      EvolvesNothing(w, tid);
    } else {
      SetChunkCall(w, tid, sid, n, w.chunks[sid][n].(state := Inflight), e.o);
      assert PutStep(w, Claim(sid, sess, n, want), e).0 == After(w, ClaimChunk(w, sid, n), e.o);
    }
  }

  lemma RejectGood(w: World, tid: nat, sid: Sid, n: int, why: Response, e: Env)
    requires WorldInv(w) && LocalPut(w, Reject(sid, n, why))
    ensures GoodPut(w, tid, PutStep(w, Reject(sid, n, why), e))
  {
    hide WorldInv, Evolves;
    if ChunkIsDone(w, sid, n) {
      EvolvesNothing(w, tid);
    } else {
      SetChunkCall(w, tid, sid, n, w.chunks[sid][n].(state := Retry), e.o);
    }
    assert PutStep(w, Reject(sid, n, why), e).0 == After(w, MarkChunkRetry(w, sid, n), e.o);
  }

  lemma ReadBodyGood(w: World, tid: nat, sid: Sid, sess: Session, n: int, want: Digest, e: Env)
    requires WorldInv(w) && LocalPut(w, ReadBody(sid, sess, n, want))
    ensures GoodPut(w, tid, PutStep(w, ReadBody(sid, sess, n, want), e))
  {
    EvolvesNothing(w, tid);
    if |e.body| == Expected(sess, n) {
      VerifyKeeps(w, tid, sid, n, e.body);
    }
  }

  lemma StorePartGood(w: World, tid: nat, sid: Sid, n: int, body: Bytes, e: Env)
    requires WorldInv(w) && LocalPut(w, StorePart(sid, n, body))
    ensures GoodPut(w, tid, PutStep(w, StorePart(sid, n, body), e))
  {
    PutPartKeeps(w, tid, sid, n, body);
    EitherWay(w, PutChunkPart(w, sid, n, body), tid, e.o);
  }

  lemma RecordDoneGood(w: World, tid: nat, sid: Sid, n: int, body: Bytes, e: Env)
    requires WorldInv(w) && LocalPut(w, RecordDone(sid, n, body))
    ensures GoodPut(w, tid, PutStep(w, RecordDone(sid, n, body), e))
  {
    SetChunkCall(w, tid, sid, n, Chunk(Done, Some(Sha256(body)), Some(Md5(body)), |body|), e.o);
    assert PutStep(w, RecordDone(sid, n, body), e).0
        == After(w, MarkChunkDone(w, sid, n, Sha256(body), Md5(body), |body|), e.o);
  }

  lemma PutStartGood(w: World, tid: nat, pc: PutPc, e: Env)
    requires WorldInv(w) && pc.PutStart?
    ensures GoodPut(w, tid, PutStep(w, pc, e))
  {
    hide WorldInv, Evolves;
    EvolvesNothing(w, tid);
  }

  lemma PutStepGood(w: World, tid: nat, pc: PutPc, e: Env)
    requires WorldInv(w) && LocalPut(w, pc)
    ensures GoodPut(w, tid, PutStep(w, pc, e))
  {
    match pc
    case PutStart(_, _, _, _, _) => PutStartGood(w, tid, pc, e);
    case Claim(sid, sess, n, want) => ClaimGood(w, tid, sid, sess, n, want, e);
    case ReadBody(sid, sess, n, want) => ReadBodyGood(w, tid, sid, sess, n, want, e);
    case Reject(sid, n, why) => RejectGood(w, tid, sid, n, why, e);
    case StorePart(sid, n, body) => StorePartGood(w, tid, sid, n, body, e);
    case RecordDone(sid, n, body) => RecordDoneGood(w, tid, sid, n, body, e);
    case PutEnd(_) => EvolvesNothing(w, tid);
  }

  lemma CancelAbortGood(w: World, tid: nat, sid: Sid, pc: CancelPc, e: Env)
    requires WorldInv(w) && LocalCancel(w, pc) && (pc == ReAbort(sid) || pc == CancelAbort(sid))
    ensures GoodCancel(w, tid, CancelStep(w, pc, e))
  {
    AbortSessionKeeps(w, tid, sid, e.o);
  }

  lemma PersistCancelledGood(w: World, tid: nat, sid: Sid, e: Env)
    requires WorldInv(w) && LocalCancel(w, PersistCancelled(sid))
    ensures GoodCancel(w, tid, CancelStep(w, PersistCancelled(sid), e))
  {
    SetStateCall(w, tid, sid, Cancelled, e.o);
    assert CancelStep(w, PersistCancelled(sid), e).0 == After(w, SetState(w, sid, Cancelled), e.o);
  }

  lemma CancelDeleteGood(w: World, tid: nat, sid: Sid, e: Env)
    requires WorldInv(w) && LocalCancel(w, CancelDelete(sid))
    ensures GoodCancel(w, tid, CancelStep(w, CancelDelete(sid), e))
  {
    RemoveStagingKeeps(w, tid, sid);
    EitherWay(w, RemoveStaging(w, sid), tid, e.o);
  }

  lemma CancelReadGood(w: World, tid: nat, pc: CancelPc, e: Env)
    requires WorldInv(w) && LocalCancel(w, pc) && (pc.CancelStart? || pc.CancelHead? || pc.CancelEnd?)
    ensures GoodCancel(w, tid, CancelStep(w, pc, e))
  {
    EvolvesNothing(w, tid);
  }

  lemma CancelStepGood(w: World, tid: nat, pc: CancelPc, e: Env)
    requires WorldInv(w) && LocalCancel(w, pc)
    ensures GoodCancel(w, tid, CancelStep(w, pc, e))
  {
    match pc
    case CancelStart(_, _) => CancelReadGood(w, tid, pc, e);
    case ReAbort(sid) => CancelAbortGood(w, tid, sid, pc, e);
    case CancelAbort(sid) => CancelAbortGood(w, tid, sid, pc, e);
    case CancelHead(_) => CancelReadGood(w, tid, pc, e);
    case CancelDelete(sid) => CancelDeleteGood(w, tid, sid, e);
    case PersistCancelled(sid) => PersistCancelledGood(w, tid, sid, e);
    case CancelEnd(_) => CancelReadGood(w, tid, pc, e);
  }

  lemma AssembledSize(w: World, sid: Sid)
    requires WorldInv(w) && sid in w.assembled
    ensures |Concat(w.assembled[sid])| == w.sessions[sid].size
  {
    var s, bodies := w.sessions[sid], w.assembled[sid];
    forall i | 0 <= i < |bodies| ensures |bodies[i]| == ExpectedLen(s.size, s.chunkSize, s.count, i) {
      assert (sid, i, bodies[i]) in w.verified;
    }
    ReassembledSize(bodies, s.size, s.chunkSize, s.count);
  }

  /** The size tests on the staging object can never reject what a completed multipart left there. */
  lemma StagingHasDeclaredSize(w: World, sid: Sid)
    requires WorldInv(w) && Staging(sid) in w.s3.objects
    ensures sid in w.sessions && |w.s3.objects[Staging(sid)]| == w.sessions[sid].size
  {
    AssembledSize(w, sid);
  }

  lemma CopyMoreGood(w: World, sid: Sid, sess: Session, sha: Digest, copied: Bytes)
    requires WorldInv(w) && Assembling(w, sid, sess, sha)
    requires |copied| <= sess.size <= |Concat(w.assembled[sid])| && copied == Concat(w.assembled[sid])[..|copied|]
    ensures var more := CopyMore(w, sid, sess, copied);
      more.Some? ==>
        |more.value| <= sess.size && more.value == Concat(w.assembled[sid])[..|more.value|]
        && (sess.size <= BlobStores.SINGLE_COPY_LIMIT ==> more.value == Concat(w.assembled[sid]))
  {
    AssembledSize(w, sid);
  }

  lemma CompleteStartGood(w: World, tid: nat, sid: Sid, ws: string, e: Env)
    requires WorldInv(w)
    ensures GoodComplete(w, tid, CompleteStep(w, CompleteStart(sid, ws), e))
  {
    EvolvesNothing(w, tid);
    hide WorldInv, Evolves, Snapshot;
    if Owned(w, sid, ws) {
      SnapshotOnLoad(w, sid);
    }
  }

  lemma LoadChunksGood(w: World, tid: nat, sid: Sid, sess: Session, e: Env)
    requires WorldInv(w) && LocalComplete(w, LoadChunks(sid, sess))
    ensures GoodComplete(w, tid, CompleteStep(w, LoadChunks(sid, sess), e))
  {
    hide WorldInv, Evolves;
    EvolvesNothing(w, tid);
  }

  lemma HeadStagingGood(w: World, tid: nat, sid: Sid, sess: Session, e: Env)
    requires WorldInv(w) && LocalComplete(w, HeadStaging(sid, sess))
    ensures GoodComplete(w, tid, AssembleStep(w, HeadStaging(sid, sess), e))
  {
    EvolvesNothing(w, tid);
  }

  lemma SnapshotOnLoad(w: World, sid: Sid)
    requires WorldInv(w) && sid in w.sessions
    ensures Snapshot(w, sid, w.sessions[sid])
  {
  }

  lemma SnapshotCarries(w: World, w': World, tid: nat, sid: Sid, sess: Session)
    requires Evolves(w, w', tid) && Snapshot(w, sid, sess)
    ensures Snapshot(w', sid, sess)
  {
  }

  lemma CompleteCallGood(w: World, tid: nat, sid: Sid, sess: Session, parts: seq<Part>, o: Outcome)
    requires WorldInv(w) && LocalComplete(w, FinishMultipart(sid, sess, parts))
    ensures var w' := After(w, CompleteMultipart(w, sid, parts), o);
      WorldInv(w') && Evolves(w, w', tid) && Snapshot(w', sid, sess)
  {
    CompleteKeeps(w, tid, sid, parts);
    var done := CompleteMultipart(w, sid, parts);
    EitherWay(w, done, tid, o);
    SnapshotCarries(w, After(w, done, o), tid, sid, sess);
  }

  lemma FinishMultipartGood(w: World, tid: nat, sid: Sid, sess: Session, parts: seq<Part>, e: Env)
    requires WorldInv(w) && LocalComplete(w, FinishMultipart(sid, sess, parts))
    ensures GoodComplete(w, tid, AssembleStep(w, FinishMultipart(sid, sess, parts), e))
  {
    var done := After(w, CompleteMultipart(w, sid, parts), e.o);
    CompleteCallGood(w, tid, sid, sess, parts, e.o);
    var r := AssembleStep(w, FinishMultipart(sid, sess, parts), e);
    assert r.0 == done && (r.1 == HashStaging(sid, sess) || r.1 == HeadStaging(sid, sess));
  }

  lemma HashStagingGood(w: World, tid: nat, sid: Sid, sess: Session, e: Env)
    requires WorldInv(w) && LocalComplete(w, HashStaging(sid, sess))
    ensures GoodComplete(w, tid, AssembleStep(w, HashStaging(sid, sess), e))
  {
    if Staging(sid) in w.s3.objects {
      StagingHasDeclaredSize(w, sid);
    }
  }

  /** The copy is finished exactly when the bytes in hand are the whole assembled object. */
  lemma CopyDoneIsWhole(w: World, sid: Sid, sess: Session, sha: Digest, copied: Bytes)
    requires WorldInv(w) && LocalComplete(w, CopyToAsset(sid, sess, sha, copied))
    ensures var more := CopyMore(w, sid, sess, copied);
      more.Some? && (sess.size <= BlobStores.SINGLE_COPY_LIMIT || |more.value| >= sess.size) ==>
        more.value == Concat(w.assembled[sid]) && Sha256(more.value) == sha
  {
    CopyMoreGood(w, sid, sess, sha, copied);
    AssembledSize(w, sid);
  }

  lemma CopyToAssetGood(w: World, tid: nat, sid: Sid, sess: Session, sha: Digest, copied: Bytes, e: Env)
    requires WorldInv(w) && LocalComplete(w, CopyToAsset(sid, sess, sha, copied))
    ensures GoodComplete(w, tid, AssembleStep(w, CopyToAsset(sid, sess, sha, copied), e))
  {
    var more := CopyMore(w, sid, sess, copied);
    if more.Some? && (sess.size <= BlobStores.SINGLE_COPY_LIMIT || |more.value| >= sess.size) {
      LastCopyGood(w, tid, sid, sess, sha, copied, e);
    } else {
      hide WorldInv, Evolves;
      CopyMoreGood(w, sid, sess, sha, copied);
      EvolvesNothing(w, tid);
    }
  }

  lemma LastCopyGood(w: World, tid: nat, sid: Sid, sess: Session, sha: Digest, copied: Bytes, e: Env)
    requires WorldInv(w) && LocalComplete(w, CopyToAsset(sid, sess, sha, copied))
    requires CopyMore(w, sid, sess, copied).Some?
    requires sess.size <= BlobStores.SINGLE_COPY_LIMIT || |CopyMore(w, sid, sess, copied).value| >= sess.size
    ensures GoodComplete(w, tid, AssembleStep(w, CopyToAsset(sid, sess, sha, copied), e))
  {
    hide WorldInv, Evolves, CopyMore;
    CopyDoneIsWhole(w, sid, sess, sha, copied);
    var more := CopyMore(w, sid, sess, copied).value;
    var done := StoreAsset(w, sess.ws, sha, more);
    StoreAssetKeeps(w, tid, sess.ws, sha, more);
    EitherWay(w, done, tid, e.o);
    AssemblingCarries(w, After(w, done, e.o), tid, sid, sess, sha);
    assert AssembleStep(w, CopyToAsset(sid, sess, sha, copied), e).0 == After(w, done, e.o);
  }

  lemma AssemblingCarries(w: World, w': World, tid: nat, sid: Sid, sess: Session, sha: Digest)
    requires Evolves(w, w', tid) && Assembling(w, sid, sess, sha)
    ensures Assembling(w', sid, sess, sha)
  {
  }

  lemma DeleteStagingGood(w: World, tid: nat, sid: Sid, sess: Session, sha: Digest, e: Env)
    requires WorldInv(w) && LocalComplete(w, DeleteStaging(sid, sess, sha))
    ensures GoodComplete(w, tid, AssembleStep(w, DeleteStaging(sid, sess, sha), e))
  {
    RemoveStagingKeeps(w, tid, sid);
    EitherWay(w, RemoveStaging(w, sid), tid, e.o);
  }

  lemma PersistAssembledGood(w: World, tid: nat, sid: Sid, sess: Session, sha: Digest, e: Env)
    requires WorldInv(w) && LocalComplete(w, PersistAssembled(sid, sess, sha))
    ensures GoodComplete(w, tid, AssembleStep(w, PersistAssembled(sid, sess, sha), e))
  {
    hide WorldInv, Evolves;
    SetAssembledCall(w, tid, sid, sess, sha, e.o);
    assert AssembleStep(w, PersistAssembled(sid, sess, sha), e).0
        == After(w, SetAssembled(w, sid, sha, Asset(sess.ws, sha)), e.o);
  }

  lemma EmitLandedGood(w: World, tid: nat, sid: Sid, sess: Session, attempt: nat, e: Env)
    requires WorldInv(w) && LocalComplete(w, EmitLanded(sid, sess, attempt))
    ensures GoodComplete(w, tid, CompleteStep(w, EmitLanded(sid, sess, attempt), e))
  {
    hide WorldInv, Evolves;
    if sess.sha.Some? && sess.key.Some? {
      PublishLandedKeeps(w, tid, sid, sess);
      EitherWay(w, PublishLanded(w, LandedEvent(sid, sess)), tid, e.o);
    } else {
      EvolvesNothing(w, tid);
    }
  }

  lemma EmitMeteringGood(w: World, tid: nat, sid: Sid, sess: Session, attempt: nat, e: Env)
    requires WorldInv(w) && LocalComplete(w, EmitMetering(sid, sess, attempt))
    ensures GoodComplete(w, tid, CompleteStep(w, EmitMetering(sid, sess, attempt), e))
  {
    var ev := Metered(sid, UploadCompleted, sess.ws, sess.user, sess.size);
    PublishMeteredCall(w, tid, ev, e.o);
    assert CompleteStep(w, EmitMetering(sid, sess, attempt), e).0 == After(w, PublishMetered(w, ev), e.o);
  }

  lemma PersistCompletedGood(w: World, tid: nat, sid: Sid, sess: Session, e: Env)
    requires WorldInv(w) && LocalComplete(w, PersistCompleted(sid, sess))
    ensures GoodComplete(w, tid, CompleteStep(w, PersistCompleted(sid, sess), e))
  {
    hide WorldInv, Evolves;
    SetStateCall(w, tid, sid, Completed, e.o);
    assert CompleteStep(w, PersistCompleted(sid, sess), e).0 == After(w, SetState(w, sid, Completed), e.o);
  }

  lemma CompleteEndGood(w: World, tid: nat, response: Response, e: Env)
    requires WorldInv(w)
    ensures GoodComplete(w, tid, CompleteStep(w, CompleteEnd(response), e))
  {
    hide WorldInv, Evolves;
    EvolvesNothing(w, tid);
  }

  lemma CompleteStepGood(w: World, tid: nat, pc: CompletePc, e: Env)
    requires WorldInv(w) && LocalComplete(w, pc)
    ensures GoodComplete(w, tid, CompleteStep(w, pc, e))
  {
    hide WorldInv, Evolves, GoodComplete, LocalComplete, AssembleStep;
    match pc
    case CompleteStart(sid, ws) => CompleteStartGood(w, tid, sid, ws, e);
    case LoadChunks(sid, sess) => LoadChunksGood(w, tid, sid, sess, e);
    case FinishMultipart(sid, sess, parts) => FinishMultipartGood(w, tid, sid, sess, parts, e);
    case HeadStaging(sid, sess) => HeadStagingGood(w, tid, sid, sess, e);
    case HashStaging(sid, sess) => HashStagingGood(w, tid, sid, sess, e);
    case CopyToAsset(sid, sess, sha, copied) => CopyToAssetGood(w, tid, sid, sess, sha, copied, e);
    case DeleteStaging(sid, sess, sha) => DeleteStagingGood(w, tid, sid, sess, sha, e);
    case PersistAssembled(sid, sess, sha) => PersistAssembledGood(w, tid, sid, sess, sha, e);
    case EmitLanded(sid, sess, attempt) => EmitLandedGood(w, tid, sid, sess, attempt, e);
    case EmitMetering(sid, sess, attempt) => EmitMeteringGood(w, tid, sid, sess, attempt, e);
    case PersistCompleted(sid, sess) => PersistCompletedGood(w, tid, sid, sess, e);
    case CompleteEnd(response) => CompleteEndGood(w, tid, response, e);
  }

  /** Every step of every handler keeps the world good and the handler informed. */
  lemma StepGood(w: World, tid: nat, pc: Pc, e: Env)
    requires WorldInv(w) && Local(w, tid, pc)
    ensures var r := Step(w, tid, pc, e);
      WorldInv(r.0) && Evolves(w, r.0, tid) && Local(r.0, tid, r.1)
  {
    match pc
    case InCreate(c) => CreateStepGood(w, tid, c, e);
    case InPut(p) => PutStepGood(w, tid, p, e);
    case InComplete(k) => CompleteStepGood(w, tid, k, e);
    case InCancel(x) => CancelStepGood(w, tid, x, e);
  }

  // What a handler knows survives any step of any other handler.

  lemma CreateStable(w: World, w': World, tid: nat, other: nat, pc: CreatePc)
    requires LocalCreate(w, tid, pc) && Evolves(w, w', other) && tid != other
    ensures LocalCreate(w', tid, pc)
  {
  }

  lemma PutStable(w: World, w': World, other: nat, pc: PutPc)
    requires LocalPut(w, pc) && Evolves(w, w', other)
    ensures LocalPut(w', pc)
  {
  }

  lemma CompleteStable(w: World, w': World, other: nat, pc: CompletePc)
    requires LocalComplete(w, pc) && Evolves(w, w', other)
    ensures LocalComplete(w', pc)
  {
    match pc
    case CompleteStart(_, _) =>
    case CompleteEnd(_) =>
    case _ => SnapshotCarries(w, w', other, pc.sid, pc.sess);
  }

  lemma LocalStable(w: World, w': World, tid: nat, other: nat, pc: Pc)
    requires Local(w, tid, pc) && Evolves(w, w', other) && tid != other
    ensures Local(w', tid, pc)
  {
    match pc
    case InCreate(c) => CreateStable(w, w', tid, other, c);
    case InPut(p) => PutStable(w, w', other, p);
    case InComplete(k) => CompleteStable(w, w', other, k);
    case InCancel(x) =>
  }
}
