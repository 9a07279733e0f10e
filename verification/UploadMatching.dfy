// Whether storage accepts the parts the chunk rows record: always when every
// PUT of a chunk carries the same body, and exactly when row and part agree.
module UploadMatching {
  import opened Basics
  import opened GoInt
  import opened Tiling
  import opened ObjectStorage
  import opened UploadWorld
  import opened UploadHandlers
  import opened UploadInvariant
  import opened UploadRestart
  import opened UploadSystem
  import opened UploadFile
  import L = UploadLive

  /** Row n records the ETag of the part stored under its number. */
  ghost predicate EtagAt(w: World, sid: Sid, n: int)
    requires sid in w.chunks && OfSession(sid) in w.s3.uploads && 0 <= n < |w.chunks[sid]|
  {
    var parts := w.s3.uploads[OfSession(sid)].parts;
    n + 1 in parts && w.chunks[sid][n].etag == Some(Md5(parts[n + 1]))
  }

  ghost predicate EtagsMatch(w: World, sid: Sid)
    requires sid in w.chunks && OfSession(sid) in w.s3.uploads
  {
    forall n :: 0 <= n < |w.chunks[sid]| ==> EtagAt(w, sid, n)
  }

  lemma AcceptedAt(w: World, sid: Sid, n: int)
    requires sid in w.chunks && AllDone(w.chunks[sid]) && LiveAndMatching(w, sid) && 0 <= n < |w.chunks[sid]|
    ensures OfSession(sid) in w.s3.uploads && EtagAt(w, sid, n)
  {
    var list := PartList(w.chunks[sid]);
    SortPartsOfAscending(list);
    assert list[n] in list && list[n].number == n + 1;
  }

  lemma AcceptedMatches(w: World, sid: Sid)
    requires sid in w.chunks && AllDone(w.chunks[sid]) && LiveAndMatching(w, sid)
    ensures OfSession(sid) in w.s3.uploads && EtagsMatch(w, sid)
  {
    forall n | 0 <= n < |w.chunks[sid]| ensures EtagAt(w, sid, n) {
      AcceptedAt(w, sid, n);
    }
  }

  lemma MatchingAt(w: World, sid: Sid, p: Part)
    requires sid in w.chunks && AllDone(w.chunks[sid]) && OfSession(sid) in w.s3.uploads && EtagsMatch(w, sid)
    requires p in PartList(w.chunks[sid])
    ensures var parts := w.s3.uploads[OfSession(sid)].parts; p.number in parts && Md5(parts[p.number]) == p.etag
  {
    var list := PartList(w.chunks[sid]);
    var n :| 0 <= n < |list| && list[n] == p;
    assert EtagAt(w, sid, n);
  }

  lemma MatchingIsAccepted(w: World, sid: Sid)
    requires sid in w.chunks && AllDone(w.chunks[sid]) && OfSession(sid) in w.s3.uploads && EtagsMatch(w, sid)
    ensures LiveAndMatching(w, sid)
  {
    var list, parts := PartList(w.chunks[sid]), w.s3.uploads[OfSession(sid)].parts;
    SortPartsOfAscending(list);
    hide EtagsMatch, AllDone, PartList, SortParts, Ascending;
    forall p | p in list ensures p.number in parts && Md5(parts[p.number]) == p.etag {
      MatchingAt(w, sid, p);
    }
  }

  /** Storage accepts the recorded parts of an open multipart exactly when rows and parts agree. */
  lemma AcceptedIffEtagsMatch(w: World, sid: Sid)
    requires sid in w.chunks && AllDone(w.chunks[sid]) && OfSession(sid) in w.s3.uploads
    ensures LiveAndMatching(w, sid) <==> EtagsMatch(w, sid)
  {
    if LiveAndMatching(w, sid) {
      AcceptedMatches(w, sid);
    }
    if EtagsMatch(w, sid) {
      MatchingIsAccepted(w, sid);
    }
  }

  /** What a clean complete needs of an all-DONE session that is not cancelled. */
  lemma CompletableIff(w: World, sid: Sid)
    requires WorldInv(w) && sid in w.sessions && !w.sessions[sid].state.Cancelled? && AllDone(w.chunks[sid])
    ensures Completable(w, sid) <==>
              || w.sessions[sid].state.Completed? || w.sessions[sid].state.Assembled?
              || Staging(sid) in w.s3.objects
              || (OfSession(sid) in w.s3.uploads && EtagsMatch(w, sid))
  {
    if OfSession(sid) in w.s3.uploads {
      AcceptedIffEtagsMatch(w, sid);
    }
  }

  // ---- PUTs that all carry the file's slices ----

  lemma HonestBodies(src: Source, s: Sys)
    requires src.Valid() && HonestSys(src, s) && SysInv(s)
    requires src.sid in s.w.chunks && |s.w.chunks[src.sid]| == src.count && AllDone(s.w.chunks[src.sid])
    ensures RecordedBodies(s.w.chunks[src.sid]) == Slices(src.file, src.chunkSize, src.count, src.count)
    ensures OfSession(src.sid) in s.w.s3.uploads ==> EtagsMatch(s.w, src.sid)
  {
    hide SysInv, HonestSys;
    var rows := s.w.chunks[src.sid];
    forall n | 0 <= n < |rows|
      ensures RecordedBodies(rows)[n] == Slices(src.file, src.chunkSize, src.count, src.count)[n] {
      RowIsSlice(src, s, n);
      SliceAt(src, src.count, n);
    }
    if OfSession(src.sid) in s.w.s3.uploads {
      HonestEtags(src, s);
    }
  }

  lemma HonestEtags(src: Source, s: Sys)
    requires src.Valid() && HonestSys(src, s) && SysInv(s)
    requires src.sid in s.w.chunks && |s.w.chunks[src.sid]| == src.count && AllDone(s.w.chunks[src.sid])
    requires OfSession(src.sid) in s.w.s3.uploads
    ensures EtagsMatch(s.w, src.sid)
  {
    hide SysInv, HonestSys;
    forall n | 0 <= n < |s.w.chunks[src.sid]| ensures EtagAt(s.w, src.sid, n) {
      RowIsSlice(src, s, n);
      PartIsSlice(src, s, n);
    }
  }

  /** A DONE row records the ETag of the slice ... */
  lemma RowIsSlice(src: Source, s: Sys, n: nat)
    requires src.Valid() && HonestSys(src, s) && SysInv(s) && n < src.count
    requires src.sid in s.w.chunks && n < |s.w.chunks[src.sid]| && s.w.chunks[src.sid][n].state.Done?
    ensures s.w.chunks[src.sid][n].etag == Some(Md5(src.Slice(n)))
  {
    assert DoneOk(s.w.chunks[src.sid][n], src.sid, n, s.w.verified);
  }

  /** ... and the part stored for it is the slice. */
  lemma PartIsSlice(src: Source, s: Sys, n: nat)
    requires src.Valid() && HonestSys(src, s) && SysInv(s) && n < src.count
    requires src.sid in s.w.chunks && n < |s.w.chunks[src.sid]| && s.w.chunks[src.sid][n].state.Done?
    requires OfSession(src.sid) in s.w.s3.uploads
    ensures n + 1 in s.w.s3.uploads[OfSession(src.sid)].parts
    ensures s.w.s3.uploads[OfSession(src.sid)].parts[n + 1] == src.Slice(n)
  {
    assert PartStored(s.w.s3.uploads, src.sid, n);
    assert UploadOk(s.w.s3.uploads[OfSession(src.sid)], src.sid, s.w.verified);
  }

  /** What an all-DONE session of an honest upload stands for is the file. */
  lemma HonestContent(src: Source, s: Sys)
    requires src.Valid() && HonestSys(src, s) && SysInv(s)
    requires src.sid in s.w.sessions && s.w.sessions[src.sid].count == src.count && AllDone(s.w.chunks[src.sid])
    ensures Content(s.w, src.sid) == src.file
  {
    if src.sid in s.w.assembled {
      BodiesAreSlices(src, s.w, s.w.assembled[src.sid]);
      SlicesMakeFile(src, s.w.assembled[src.sid]);
    } else {
      HonestBodies(src, s);
      SliceRoundTrip(src.file, src.chunkSize, src.count);
    }
  }

  /**
   * Restartable complete, for the sessions the service actually reaches. When every PUT of the session announced
   * the hash of its slice of one file, then for any all-DONE session that is not cancelled, after any number of
   * complete attempts cut or failing anywhere, one clean attempt reaches COMPLETED, with the file's hash and key,
   * if and only if the session had not lost its multipart unrecorded and no attempt stopped in the window.
   */
  lemma HonestRestartableIff(chunkSize: int, maxObjectBytes: int, run: seq<Action>, src: Source, scripts: seq<seq<Env>>)
    requires 0 < chunkSize <= MAX_INT64 && maxObjectBytes <= MAX_INT64
    requires src.Valid() && HonestRun(src, run)
    requires var w := Exec(Boot(chunkSize, maxObjectBytes), run).w;
      src.sid in w.sessions && w.sessions[src.sid].count == src.count && !w.sessions[src.sid].state.Cancelled?
      && src.sid in w.chunks && AllDone(w.chunks[src.sid])
    ensures var w := Exec(Boot(chunkSize, maxObjectBytes), run).w;
      var ws := w.sessions[src.sid].ws;
      var done := Finish(Attempts(w, src.sid, ws, scripts), CompleteStart(src.sid, ws)).0;
      var completes := !Stranded(w, src.sid) && !StoppedInWindow(w, src.sid, ws, scripts);
      && ((src.sid in done.sessions && done.sessions[src.sid].state.Completed?) <==> completes)
      && (completes ==>
            done.sessions[src.sid].sha == Some(Sha256(src.file))
            && done.sessions[src.sid].key == Some(Asset(ws, Sha256(src.file))))
  {
    var s := Exec(Boot(chunkSize, maxObjectBytes), run);
    UploadSystem.ReachableInv(chunkSize, maxObjectBytes, run);
    ExecHonest(src, Boot(chunkSize, maxObjectBytes), run);
    HonestContent(src, s);
    HonestCompletable(src, s);
    RestartableIff(s.w, src.sid, scripts);
  }

  /** An all-DONE, uncancelled session of an honest upload can be completed unless its multipart went unrecorded. */
  lemma HonestCompletable(src: Source, s: Sys)
    requires src.Valid() && HonestSys(src, s) && SysInv(s)
    requires src.sid in s.w.sessions && s.w.sessions[src.sid].count == src.count
    requires !s.w.sessions[src.sid].state.Cancelled? && AllDone(s.w.chunks[src.sid])
    ensures Completable(s.w, src.sid) <==> !Stranded(s.w, src.sid)
  {
    HonestBodies(src, s);
    CompletableIff(s.w, src.sid);
  }

  /** ... and it is untouched when no abort or join of the run took its multipart away. */
  lemma UntouchedIsRestartable(chunkSize: int, maxObjectBytes: int, run: seq<Action>, src: Source)
    requires 0 < chunkSize <= MAX_INT64 && maxObjectBytes <= MAX_INT64
    requires src.Valid() && HonestRun(src, run) && !L.LosesMultipart(Boot(chunkSize, maxObjectBytes), run, src.sid)
    requires var w := Exec(Boot(chunkSize, maxObjectBytes), run).w;
      L.IsActive(w, src.sid) && w.sessions[src.sid].count == src.count && src.sid in w.chunks && AllDone(w.chunks[src.sid])
    ensures var w := Exec(Boot(chunkSize, maxObjectBytes), run).w;
      LiveAndMatching(w, src.sid) && Completable(w, src.sid)
  {
    var s := Exec(Boot(chunkSize, maxObjectBytes), run);
    UploadSystem.ReachableInv(chunkSize, maxObjectBytes, run);
    ExecHonest(src, Boot(chunkSize, maxObjectBytes), run);
    L.ActiveSessionsAreLiveIff(chunkSize, maxObjectBytes, run, src.sid);
    HonestBodies(src, s);
    AcceptedIffEtagsMatch(s.w, src.sid);
  }

  // ---- PUTs of different bodies for one chunk ----

  lemma {:induction false} ExecAppend(s: Sys, run: seq<Action>, a: Action)
    ensures Exec(s, run + [a]) == Next(Exec(s, run), a)
    decreases |run|
  {
    if run == [] {
      assert [a][1..] == [];
    } else {
      assert (run + [a])[1..] == run[1..] + [a];
      ExecAppend(Next(s, run[0]), run[1..], a);
    }
  }

  const OK := Env(Succeeds, [], false)

  const BODY_A: Bytes := [0]
  const BODY_B: Bytes := [1]

  function Reads(body: Bytes): Env { Env(Succeeds, body, false) }

  /** A run in which no call fails and nothing is cut. */
  predicate Smooth(run: seq<Action>)
  {
    forall i :: 0 <= i < |run| ==> !run[i].Cut? && (run[i].Call? ==> run[i].e.o.Succeeds?)
  }

  const REQUEST := Session("w", "u", 1, 1, 1, Active, None, None)

  /** A one-byte session, open, nothing uploaded, its create handler done. */
  ghost predicate JustCreated(s: Sys)
  {
    && s.w.sessions == map[0 := REQUEST] && s.w.chunks == map[0 := [FRESH_CHUNK]]
    && s.w.s3 == S3(map[OfSession(0) := Upload(Staging(0), map[])], map[])
    && s.handlers.Keys == {0}
  }

  lemma OneChunk()
    ensures ChunkCount(1, 1) == 1
  {
  }

  const ONE_BYTE := Some(CreateBody("f", 1, "a/b"))

  lemma OneByteIsValid()
    ensures ValidCreate(ONE_BYTE.value, 1)
  {
    var mime := ONE_BYTE.value.mime;
    assert mime[1] == '/' && mime[..1] == "a" && mime[2..] == "b";
  }

  lemma MintAndOpen()
    ensures var s := Next(Next(Next(Boot(1, 1), Arrive(0, InCreate(CreateStart("w", "u", ONE_BYTE, true)))), Call(0, OK)), Call(0, OK));
      && s.handlers == map[0 := InCreate(InsertSession(0, REQUEST))]
      && s.w.sessions == map[] && s.w.chunks == map[]
      && s.w.s3 == S3(map[OfSession(0) := Upload(Staging(0), map[])], map[])
  {
    OneChunk();
    OneByteIsValid();
    hide ChunkCount, ValidCreate;
    var s1 := Next(Boot(1, 1), Arrive(0, InCreate(CreateStart("w", "u", ONE_BYTE, true))));
    var s2 := Next(s1, Call(0, OK));
    assert s2.handlers == map[0 := InCreate(OpenMultipart(0, REQUEST))];
  }

  lemma InsertAndMeter(s: Sys)
    requires s.handlers == map[0 := InCreate(InsertSession(0, REQUEST))]
    requires s.w.sessions == map[] && s.w.chunks == map[]
    requires s.w.s3 == S3(map[OfSession(0) := Upload(Staging(0), map[])], map[])
    ensures JustCreated(Next(Next(s, Call(0, OK)), Call(0, OK)))
  {
    var t := Next(s, Call(0, OK));
    assert t.handlers[0] == InCreate(MeterCreated(0, REQUEST, 0));
    assert t.w.chunks[0] == [FRESH_CHUNK];
  }

  lemma CreateOne() returns (run: seq<Action>)
    ensures Smooth(run) && JustCreated(Exec(Boot(1, 1), run))
  {
    var boot := Boot(1, 1);
    assert Exec(boot, []) == boot;
    hide Exec, Boot, JustCreated;
    var arrive := Arrive(0, InCreate(CreateStart("w", "u", ONE_BYTE, true)));
    MintAndOpen();
    InsertAndMeter(Next(Next(Next(boot, arrive), Call(0, OK)), Call(0, OK)));
    run := Then(boot, [], arrive);
    run := Then(boot, run, Call(0, OK));
    run := Then(boot, run, Call(0, OK));
    run := Then(boot, run, Call(0, OK));
    run := Then(boot, run, Call(0, OK));
  }

  /** One more action at the end of a run. */
  lemma Then(boot: Sys, run: seq<Action>, a: Action) returns (more: seq<Action>)
    requires Smooth(run) && !a.Cut? && (a.Call? ==> a.e.o.Succeeds?)
    ensures Smooth(more) && Exec(boot, more) == Next(Exec(boot, run), a)
  {
    more := run + [a];
    ExecAppend(boot, run, a);
  }

  /** Handler tid has read the body for chunk 0 and is about to store it; the other handlers are where they were. */
  ghost predicate AboutToStore(s: Sys, tid: nat, body: Bytes)
  {
    tid in s.handlers && s.handlers[tid] == InPut(StorePart(0, 0, body))
  }

  ghost predicate OneByteOpen(s: Sys, c: Chunk, parts: map<int, Bytes>)
  {
    && s.w.sessions == map[0 := REQUEST] && s.w.chunks == map[0 := [c]]
    && s.w.s3 == S3(map[OfSession(0) := Upload(Staging(0), parts)], map[])
  }

  /** A PUT of one body up to its claim and its checks. */
  lemma ReadOne(boot: Sys, run0: seq<Action>, tid: nat, body: Bytes, c: Chunk) returns (run: seq<Action>)
    requires Smooth(run0) && OneByteOpen(Exec(boot, run0), c, map[]) && !c.state.Done? && |body| == 1
    requires tid !in Exec(boot, run0).handlers
    ensures Smooth(run) && OneByteOpen(Exec(boot, run), c.(state := Inflight), map[])
    ensures AboutToStore(Exec(boot, run), tid, body)
    ensures Exec(boot, run).handlers.Keys == Exec(boot, run0).handlers.Keys + {tid}
    ensures forall t :: t in Exec(boot, run0).handlers ==> Exec(boot, run).handlers[t] == Exec(boot, run0).handlers[t]
  {
    hide Exec;
    var s0 := Exec(boot, run0);
    var arrive := Arrive(tid, InPut(PutStart(0, "w", 0, 1, Some(Sha256(body)))));
    var s1 := Next(s0, arrive);
    var s2 := Next(s1, Call(tid, OK));
    assert s2.w == s0.w && s2.handlers[tid] == InPut(Claim(0, REQUEST, 0, Sha256(body)));
    var s3 := Next(s2, Call(tid, OK));
    assert s3.w.chunks[0] == [c.(state := Inflight)];
    assert s3.handlers[tid] == InPut(ReadBody(0, REQUEST, 0, Sha256(body)));
    run := Then(boot, run0, arrive);
    run := Then(boot, run, Call(tid, OK));
    run := Then(boot, run, Call(tid, OK));
    run := Then(boot, run, Call(tid, Reads(body)));
  }

  /** A body is stored as part 1, over whatever was there, and is about to be recorded. */
  lemma StoreOne(boot: Sys, run0: seq<Action>, tid: nat, body: Bytes, c: Chunk, parts: map<int, Bytes>)
    returns (run: seq<Action>)
    requires Smooth(run0) && OneByteOpen(Exec(boot, run0), c, parts) && AboutToStore(Exec(boot, run0), tid, body)
    ensures Smooth(run) && OneByteOpen(Exec(boot, run), c, parts[1 := body])
    ensures Exec(boot, run).handlers == Exec(boot, run0).handlers[tid := InPut(RecordDone(0, 0, body))]
  {
    hide Exec, Smooth;
    var s := Next(Exec(boot, run0), Call(tid, OK));
    assert OneByteOpen(s, c, parts[1 := body]) && s.handlers[tid] == InPut(RecordDone(0, 0, body));
    run := Then(boot, run0, Call(tid, OK));
  }

  lemma RecordOne(boot: Sys, run0: seq<Action>, tid: nat, body: Bytes, c: Chunk, parts: map<int, Bytes>)
    returns (run: seq<Action>)
    requires Smooth(run0) && OneByteOpen(Exec(boot, run0), c, parts) && |body| == 1
    requires tid in Exec(boot, run0).handlers && Exec(boot, run0).handlers[tid] == InPut(RecordDone(0, 0, body))
    ensures Smooth(run)
    ensures OneByteOpen(Exec(boot, run), Chunk(Done, Some(Sha256(body)), Some(Md5(body)), 1), parts)
    ensures forall t :: t != tid && t in Exec(boot, run0).handlers ==>
      t in Exec(boot, run).handlers && Exec(boot, run).handlers[t] == Exec(boot, run0).handlers[t]
  {
    hide Exec, Smooth;
    var s := Next(Exec(boot, run0), Call(tid, OK));
    assert s.w.chunks[0] == [Chunk(Done, Some(Sha256(body)), Some(Md5(body)), 1)];
    run := Then(boot, run0, Call(tid, OK));
  }

  /** Store A, store B, record B, record A: the row ends with A's ETag over B's part. */
  lemma StoreBoth(boot: Sys, run0: seq<Action>, c: Chunk) returns (run: seq<Action>)
    requires Smooth(run0) && OneByteOpen(Exec(boot, run0), c, map[])
    requires AboutToStore(Exec(boot, run0), 1, BODY_A) && AboutToStore(Exec(boot, run0), 2, BODY_B)
    ensures Smooth(run)
    ensures OneByteOpen(Exec(boot, run), Chunk(Done, Some(Sha256(BODY_A)), Some(Md5(BODY_A)), 1), map[1 := BODY_B])
  {
    hide Exec, Smooth, OneByteOpen;
    run := StoreOne(boot, run0, 1, BODY_A, c, map[]);
    run := StoreOne(boot, run, 2, BODY_B, c, map[][1 := BODY_A]);
    assert map[][1 := BODY_A][1 := BODY_B] == map[1 := BODY_B];
    run := RecordOne(boot, run, 2, BODY_B, c, map[1 := BODY_B]);
    run := RecordOne(boot, run, 1, BODY_A, Chunk(Done, Some(Sha256(BODY_B)), Some(Md5(BODY_B)), 1), map[1 := BODY_B]);
  }

  lemma MixedWorld(s: Sys)
    requires SysInv(s)
    requires OneByteOpen(s, Chunk(Done, Some(Sha256(BODY_A)), Some(Md5(BODY_A)), 1), map[1 := BODY_B])
    ensures L.IsActive(s.w, 0) && L.IsOpen(s.w, 0) && 0 in s.w.chunks && AllDone(s.w.chunks[0])
    ensures !EtagsMatch(s.w, 0) && !Completable(s.w, 0)
  {
    assert BODY_A[0] != BODY_B[0];
    assert s.w.s3.uploads[OfSession(0)].parts[0 + 1] == BODY_B && Md5(BODY_A) != Md5(BODY_B);
    assert !EtagAt(s.w, 0, 0);
    hide OneByteOpen;
    CompletableIff(s.w, 0);
  }

  lemma MixedRun() returns (run: seq<Action>)
    ensures Smooth(run)
    ensures OneByteOpen(
      Exec(Boot(1, 1), run), Chunk(Done, Some(Sha256(BODY_A)), Some(Md5(BODY_A)), 1), map[1 := BODY_B])
  {
    hide Exec, Boot, Smooth;
    var boot := Boot(1, 1);
    run := CreateOne();
    run := ReadOne(boot, run, 1, BODY_A, FRESH_CHUNK);
    run := ReadOne(boot, run, 2, BODY_B, FRESH_CHUNK.(state := Inflight));
    run := StoreBoth(boot, run, FRESH_CHUNK.(state := Inflight));
  }

  /**
   * Two PUTs of different bodies for one chunk, with no call failing, can leave a session that no complete ever
   * finishes: every chunk is DONE, so nothing is uploaded again, the multipart is open and was never touched,
   * and storage rejects the recorded parts.
   */
  lemma MixedBodiesBlock() returns (run: seq<Action>)
    ensures Smooth(run) && !L.LosesMultipart(Boot(1, 1), run, 0)
    ensures var w := Exec(Boot(1, 1), run).w;
      L.IsActive(w, 0) && L.IsOpen(w, 0) && 0 in w.chunks && AllDone(w.chunks[0]) && !EtagsMatch(w, 0) && !Completable(w, 0)
  {
    run := MixedRun();
    UploadSystem.ReachableInv(1, 1, run);
    hide Exec, OneByteOpen, Smooth, SysInv;
    MixedWorld(Exec(Boot(1, 1), run));
    hide EtagsMatch, Completable, AllDone;
    L.ActiveSessionsAreLiveIff(1, 1, run, 0);
  }
}
