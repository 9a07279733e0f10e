// End to end: what the client cut from its file is what the service stores.
module UploadFile {
  import opened Basics
  import opened GoInt
  import opened Tiling
  import opened ObjectStorage
  import opened UploadWorld
  import opened UploadHandlers
  import opened UploadInvariant
  import U = UploadSystem

  /** A session as its client knows it, and the file behind it. */
  datatype Source = Source(sid: Sid, file: Bytes, chunkSize: int, count: int) {
    ghost predicate Valid()
    {
      Tiles(|file|, chunkSize, count)
    }

    /** file.slice(start, end) for chunk n. */
    function Slice(n: nat): Bytes
      requires Tiles(|file|, chunkSize, count) && n < count
    {
      OffsetSteps(|file|, chunkSize, count, n);
      file[Offset(|file|, chunkSize, count, n)..Offset(|file|, chunkSize, count, n + 1)]
    }

    /** The checksum header of chunk n is the hash of the file's slice. */
    ghost predicate Announces(n: int, want: Digest)
      requires Valid()
    {
      0 <= n < count ==> want == Sha256(Slice(n))
    }
  }

  /** chunkLen of the browser's engine. */
  function ChunkLen(size: int, chunkSize: int, count: int, index: int): int
  {
    if index == count - 1 then size - chunkSize * (count - 1) else chunkSize
  }

  /** The engine accepts a create response exactly when the chunks it will cut tile the file. */
  lemma CoherentIffTiles(size: nat, chunkSize: int, count: int)
    ensures (chunkSize > 0 && count > 0 && (size + chunkSize - 1) / chunkSize == count) <==> Tiles(size, chunkSize, count)
  {
    if chunkSize > 0 && size > 0 {
      CeilIff(size, chunkSize, count);
    }
  }

  lemma CeilIff(size: int, chunkSize: int, count: int)
    requires 0 < size && 0 < chunkSize
    ensures (size + chunkSize - 1) / chunkSize == count <==> chunkSize * (count - 1) < size <= chunkSize * count
  {
    var q := (size + chunkSize - 1) / chunkSize;
    assert chunkSize * q <= size + chunkSize - 1 < chunkSize * q + chunkSize;
    assert chunkSize * (q - 1) == chunkSize * q - chunkSize && chunkSize * (count - 1) == chunkSize * count - chunkSize;
    if chunkSize * (count - 1) < size <= chunkSize * count {
      Between(chunkSize, q, count);
    }
  }

  lemma Between(c: int, q: int, k: int)
    requires c > 0 && c * q - c < c * k && c * k - c < c * q
    ensures q == k
  {
    assert c * (q - 1) < c * k && c * (k - 1) < c * q;
    SmallerFactor(c, q - 1, k);
    SmallerFactor(c, k - 1, q);
  }

  lemma SmallerFactor(c: int, a: int, b: int)
    requires c > 0 && c * a < c * b
    ensures a < b
  {
  }

  /**
   * file.slice(index * chunkSize, index * chunkSize + chunkLen(index)) is chunk `index`, of the length the server
   * expects.
   */
  lemma ClientCutsTheSlices(src: Source, index: nat)
    requires src.Valid() && index < src.count
    ensures var lo := index * src.chunkSize; var len := ChunkLen(|src.file|, src.chunkSize, src.count, index);
      && len == ExpectedLen(|src.file|, src.chunkSize, src.count, index)
      && 0 <= lo < lo + len <= |src.file| && src.file[lo..lo + len] == src.Slice(index)
  {
    ClientBounds(|src.file|, src.chunkSize, src.count, index);
    hide Tiles, ChunkLen, ExpectedLen, Offset;
  }

  lemma ClientBounds(size: int, chunkSize: int, count: int, index: nat)
    requires Tiles(size, chunkSize, count) && index < count
    ensures ChunkLen(size, chunkSize, count, index) == ExpectedLen(size, chunkSize, count, index)
    ensures index * chunkSize == Offset(size, chunkSize, count, index)
    ensures index * chunkSize + ChunkLen(size, chunkSize, count, index) == Offset(size, chunkSize, count, index + 1)
    ensures 0 <= index * chunkSize < Offset(size, chunkSize, count, index + 1) <= size
  {
    OffsetSteps(size, chunkSize, count, index);
    assert index * chunkSize == chunkSize * index;
  }

  /** Every PUT of the session that arrives announces its slice; the bodies that follow may be anything. */
  ghost predicate HonestPc(src: Source, pc: Pc)
    requires src.Valid()
  {
    match pc
    case InPut(PutStart(sid, _, n, _, want)) => sid == src.sid && want.Some? ==> src.Announces(n, want.value)
    case InPut(Claim(sid, _, n, want)) => sid == src.sid ==> src.Announces(n, want)
    case InPut(ReadBody(sid, _, n, want)) => sid == src.sid ==> src.Announces(n, want)
    case _ => true
  }

  ghost predicate HonestRun(src: Source, run: seq<U.Action>)
    requires src.Valid()
  {
    forall i :: 0 <= i < |run| && run[i].Arrive? ==> HonestPc(src, run[i].request)
  }

  ghost predicate VerifiedAreSlices(src: Source, w: World)
    requires src.Valid()
  {
    forall n: int, b :: (src.sid, n, b) in w.verified && 0 <= n < src.count ==> b == src.Slice(n)
  }

  ghost predicate HonestSys(src: Source, s: U.Sys)
    requires src.Valid()
  {
    VerifiedAreSlices(src, s.w) && forall t :: t in s.handlers ==> HonestPc(src, s.handlers[t])
  }

  /** A PUT handler adds to the verified bodies only one whose hash is the one announced. */
  lemma PutStepHonest(src: Source, w: World, pc: PutPc, e: Env)
    requires src.Valid() && VerifiedAreSlices(src, w) && HonestPc(src, InPut(pc))
    ensures VerifiedAreSlices(src, PutStep(w, pc, e).0) && HonestPc(src, InPut(PutStep(w, pc, e).1))
  {
    var r := PutStep(w, pc, e);
    if pc.ReadBody? {
      forall n: int, b | (src.sid, n, b) in r.0.verified && 0 <= n < src.count ensures b == src.Slice(n) {
        if (src.sid, n, b) !in w.verified {
          assert Sha256(b) == pc.want;
        }
      }
    } else {
      assert r.0.verified == w.verified;
    }
  }

  lemma OthersVerifyNothing(w: World, tid: nat, pc: Pc, e: Env)
    requires !pc.InPut?
    ensures Step(w, tid, pc, e).0.verified == w.verified && !Step(w, tid, pc, e).1.InPut?
  {
    match pc
    case InCreate(c) => CreateVerifiesNothing(w, tid, c, e);
    case InComplete(k) => CompleteVerifiesNothing(w, k, e);
    case InCancel(x) => CancelVerifiesNothing(w, x, e);
  }

  lemma CreateVerifiesNothing(w: World, tid: nat, pc: CreatePc, e: Env)
    ensures CreateStep(w, tid, pc, e).0.verified == w.verified
  {
  }

  lemma CompleteVerifiesNothing(w: World, pc: CompletePc, e: Env)
    ensures CompleteStep(w, pc, e).0.verified == w.verified
  {
  }

  lemma CancelVerifiesNothing(w: World, pc: CancelPc, e: Env)
    ensures CancelStep(w, pc, e).0.verified == w.verified
  {
  }

  lemma NextHonest(src: Source, s: U.Sys, a: U.Action)
    requires src.Valid() && HonestSys(src, s) && (a.Arrive? ==> HonestPc(src, a.request))
    ensures HonestSys(src, U.Next(s, a))
  {
    hide CreateStep, PutStep, CompleteStep, CancelStep, VerifiedAreSlices;
    if a.Call? && a.tid in s.handlers {
      var pc := s.handlers[a.tid];
      if pc.InPut? {
        PutStepHonest(src, s.w, pc.put, a.e);
      } else {
        OthersVerifyNothing(s.w, a.tid, pc, a.e);
        SameVerified(src, s.w, Step(s.w, a.tid, pc, a.e).0);
      }
    }
  }

  lemma SameVerified(src: Source, w: World, w': World)
    requires src.Valid() && VerifiedAreSlices(src, w) && w.verified == w'.verified
    ensures VerifiedAreSlices(src, w')
  {
  }

  lemma {:induction false} ExecHonest(src: Source, s: U.Sys, run: seq<U.Action>)
    requires src.Valid() && HonestSys(src, s) && HonestRun(src, run)
    ensures HonestSys(src, U.Exec(s, run))
    decreases |run|
  {
    if run != [] {
      assert run[0].Arrive? ==> HonestPc(src, run[0].request);
      NextHonest(src, s, run[0]);
      assert HonestRun(src, run[1..]);
      ExecHonest(src, U.Next(s, run[0]), run[1..]);
    }
  }

  /** Bodies that are the file's slices, one per chunk, make up the file. */
  lemma SlicesMakeFile(src: Source, bodies: seq<Bytes>)
    requires src.Valid() && |bodies| == src.count
    requires forall n :: 0 <= n < src.count ==> bodies[n] == src.Slice(n)
    ensures Concat(bodies) == src.file
  {
    var slices := Slices(src.file, src.chunkSize, src.count, src.count);
    SliceRoundTrip(src.file, src.chunkSize, src.count);
    forall n | 0 <= n < src.count ensures bodies[n] == slices[n] {
      SliceAt(src, src.count, n);
    }
    assert bodies == slices;
  }

  lemma {:induction false} SliceAt(src: Source, k: nat, n: nat)
    requires src.Valid() && n < k <= src.count
    ensures Slices(src.file, src.chunkSize, src.count, k)[n] == src.Slice(n)
    decreases k
  {
    if n < k - 1 {
      SliceAt(src, k - 1, n);
    }
  }

  /**
   * The stored object is the file. In every run in which the session's PUTs announce the hashes of the file's
   * slices, whatever bodies arrive, in whatever order, however often, and whichever calls fail: once a hash is
   * recorded for the session it is the hash of the file, and the object under its key is the file.
   */
  lemma StoredObjectIsTheFile(chunkSize: int, maxObjectBytes: int, run: seq<U.Action>, src: Source)
    requires 0 < chunkSize <= MAX_INT64 && maxObjectBytes <= MAX_INT64
    requires src.Valid() && HonestRun(src, run)
    requires var w := U.Exec(U.Boot(chunkSize, maxObjectBytes), run).w;
      src.sid in w.sessions && w.sessions[src.sid].sha.Some? && w.sessions[src.sid].size == |src.file|
      && w.sessions[src.sid].chunkSize == src.chunkSize && w.sessions[src.sid].count == src.count
    ensures var w := U.Exec(U.Boot(chunkSize, maxObjectBytes), run).w; var s := w.sessions[src.sid];
      && s.sha == Some(Sha256(src.file)) && s.key == Some(Asset(s.ws, Sha256(src.file)))
      && s.key.value in w.s3.objects && w.s3.objects[s.key.value] == src.file
  {
    var w := U.Exec(U.Boot(chunkSize, maxObjectBytes), run).w;
    U.ReachableInv(chunkSize, maxObjectBytes, run);
    U.ReassembledFrom(w, src.sid);
    ExecHonest(src, U.Boot(chunkSize, maxObjectBytes), run);
    var bodies := w.assembled[src.sid];
    BodiesAreSlices(src, w, bodies);
    SlicesMakeFile(src, bodies);
    HashIsOfBodies(w, src.sid);
  }

  lemma BodiesAreSlices(src: Source, w: World, bodies: seq<Bytes>)
    requires src.Valid() && VerifiedAreSlices(src, w) && AllVerified(bodies, src.sid, w.verified) && |bodies| == src.count
    ensures forall n :: 0 <= n < src.count ==> bodies[n] == src.Slice(n)
  {
    forall n | 0 <= n < src.count ensures bodies[n] == src.Slice(n) {
      assert (src.sid, n, bodies[n]) in w.verified;
    }
  }

  lemma HashIsOfBodies(w: World, sid: Sid)
    requires WorldInv(w) && sid in w.sessions && w.sessions[sid].sha.Some? && sid in w.assembled
    ensures w.sessions[sid].sha == Some(Sha256(Concat(w.assembled[sid])))
    ensures w.sessions[sid].key == Some(Asset(w.sessions[sid].ws, Sha256(Concat(w.assembled[sid]))))
  {
    assert Recorded(sid, w.sessions[sid].ws, w.sessions[sid].sha.value, w.assembled, w.s3.objects);
  }
}
