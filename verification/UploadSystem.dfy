// The upload service as a whole: any number of handlers, arriving, taking
// steps and being cut in any order. The theorems hold after every run.
module UploadSystem {
  import opened Basics
  import opened GoInt
  import opened Tiling
  import opened ObjectStorage
  import opened UploadWorld
  import opened UploadHandlers
  import opened UploadInvariant
  import opened UploadSafety

  datatype Sys = Sys(w: World, handlers: map<nat, Pc>)

  datatype Action =
    | Arrive(tid: nat, request: Pc)
    | Call(tid: nat, e: Env)
    | Cut(tid: nat)

  /** A service whose storage and tables are still empty. */
  function Boot(chunkSize: int, maxObjectBytes: int): Sys
  {
    Sys(World(chunkSize, maxObjectBytes, S3(map[], map[]), map[], map[], {}, {}, map[], {}, map[]), map[])
  }

  function Next(s: Sys, a: Action): Sys
  {
    match a
    case Arrive(tid, request) =>
      if tid !in s.handlers && IsStart(request) then s.(handlers := s.handlers[tid := request]) else s
    case Call(tid, e) =>
      if tid in s.handlers then
        var r := Step(s.w, tid, s.handlers[tid], e);
        Sys(r.0, s.handlers[tid := r.1])
      else s
    case Cut(tid) => s.(handlers := s.handlers - {tid})
  }

  function Exec(s: Sys, run: seq<Action>): Sys
    decreases |run|
  {
    if run == [] then s else Exec(Next(s, run[0]), run[1..])
  }

  ghost predicate SysInv(s: Sys)
  {
    WorldInv(s.w) && forall tid :: tid in s.handlers ==> Local(s.w, tid, s.handlers[tid])
  }

  lemma CallKeeps(s: Sys, tid: nat, e: Env)
    requires SysInv(s) && tid in s.handlers
    ensures SysInv(Next(s, Call(tid, e)))
    ensures SessionsEvolve(s.w.sessions, Next(s, Call(tid, e)).w.sessions)
  {
    StepGood(s.w, tid, s.handlers[tid], e);
    var s' := Next(s, Call(tid, e));
    forall t | t in s'.handlers ensures Local(s'.w, t, s'.handlers[t]) {
      if t != tid {
        LocalStable(s.w, s'.w, t, tid, s.handlers[t]);
      }
    }
  }

  lemma NextKeeps(s: Sys, a: Action)
    requires SysInv(s)
    ensures SysInv(Next(s, a)) && SessionsEvolve(s.w.sessions, Next(s, a).w.sessions)
  {
    hide WorldInv, Step;
    match a
    case Arrive(tid, request) =>
    case Call(tid, e) =>
      if tid in s.handlers {
        CallKeeps(s, tid, e);
      }
    case Cut(tid) =>
  }

  lemma {:induction false} ExecKeeps(s: Sys, run: seq<Action>)
    requires SysInv(s)
    ensures SysInv(Exec(s, run)) && SessionsEvolve(s.w.sessions, Exec(s, run).w.sessions)
    decreases |run|
  {
    if run != [] {
      NextKeeps(s, run[0]);
      ExecKeeps(Next(s, run[0]), run[1..]);
    }
  }

  lemma ReachableInv(chunkSize: int, maxObjectBytes: int, run: seq<Action>)
    requires 0 < chunkSize <= MAX_INT64 && maxObjectBytes <= MAX_INT64
    ensures SysInv(Exec(Boot(chunkSize, maxObjectBytes), run))
  {
    ExecKeeps(Boot(chunkSize, maxObjectBytes), run);
  }

  /** The object at a landed event's key hashes to the event's digest and has the declared size. */
  ghost predicate LandedNamesObject(w: World, ev: Landed)
  {
    && ev.uploadId in w.sessions && ev.size == w.sessions[ev.uploadId].size && ev.ws == w.sessions[ev.uploadId].ws
    && ev.key == Asset(ev.ws, ev.sha)
    && ev.key in w.s3.objects
    && Sha256(w.s3.objects[ev.key]) == ev.sha
    && |w.s3.objects[ev.key]| == ev.size
  }

  /**
   * Content addressing, for every run: asset keys tell the truth, landed events name real objects, COMPLETED comes
   * last.
   */
  lemma ContentAddressing(chunkSize: int, maxObjectBytes: int, run: seq<Action>)
    requires 0 < chunkSize <= MAX_INT64 && maxObjectBytes <= MAX_INT64
    ensures var w := Exec(Boot(chunkSize, maxObjectBytes), run).w;
      && (forall ws, sha :: Asset(ws, sha) in w.s3.objects ==> Sha256(w.s3.objects[Asset(ws, sha)]) == sha)
      && (forall ev :: ev in w.landed ==> LandedNamesObject(w, ev))
      && (forall sid :: sid in w.sessions && w.sessions[sid].state.Completed? ==>
            LandedPublished(sid, w.sessions[sid], w.landed) && MeterPublished(sid, w.sessions[sid], w.metered))
  {
    ReachableInv(chunkSize, maxObjectBytes, run);
    var w := Exec(Boot(chunkSize, maxObjectBytes), run).w;
    forall ev | ev in w.landed ensures LandedNamesObject(w, ev) {
      LandedIsReal(w, ev);
    }
  }

  lemma LandedIsReal(w: World, ev: Landed)
    requires WorldInv(w) && ev in w.landed
    ensures LandedNamesObject(w, ev)
  {
    assert Recorded(ev.uploadId, ev.ws, ev.sha, w.assembled, w.s3.objects);
    AssembledSize(w, ev.uploadId);
    assert Sha256(w.s3.objects[ev.key]) == ev.sha;
  }

  /**
   * Reassembly, for every run: once a hash is recorded for a session, the
   * object under its key is the in-order concatenation of exactly one body per
   * chunk index, each of which passed a PUT's length and checksum tests, and
   * body n occupies exactly the byte range of chunk n.
   */
  lemma Reassembly(chunkSize: int, maxObjectBytes: int, run: seq<Action>, sid: Sid)
    requires 0 < chunkSize <= MAX_INT64 && maxObjectBytes <= MAX_INT64
    ensures var w := Exec(Boot(chunkSize, maxObjectBytes), run).w;
      sid in w.sessions && w.sessions[sid].sha.Some? ==>
        && sid in w.assembled && w.sessions[sid].key.Some? && w.sessions[sid].key.value in w.s3.objects
        && IsReassembled(w.s3.objects[w.sessions[sid].key.value], w.assembled[sid], w.sessions[sid])
        && AllVerified(w.assembled[sid], sid, w.verified)
  {
    ReachableInv(chunkSize, maxObjectBytes, run);
    var w := Exec(Boot(chunkSize, maxObjectBytes), run).w;
    if sid in w.sessions && w.sessions[sid].sha.Some? {
      ReassembledFrom(w, sid);
    }
  }

  ghost predicate IsReassembled(obj: Bytes, bodies: seq<Bytes>, s: Session)
  {
    && |obj| == s.size && |bodies| == s.count && obj == Concat(bodies)
    && forall n :: 0 <= n < s.count ==> OccupiesChunk(obj, bodies[n], s, n)
  }

  ghost predicate OccupiesChunk(obj: Bytes, body: Bytes, s: Session, n: int)
  {
    var lo, hi := Offset(s.size, s.chunkSize, s.count, n), Offset(s.size, s.chunkSize, s.count, n + 1);
    0 <= lo < hi <= |obj| && hi - lo <= s.chunkSize && obj[lo..hi] == body
  }

  lemma BodiesFit(w: World, sid: Sid)
    requires WorldInv(w) && sid in w.assembled
    ensures Fits(w.assembled[sid], w.sessions[sid].size, w.sessions[sid].chunkSize, w.sessions[sid].count)
    ensures AllVerified(w.assembled[sid], sid, w.verified)
  {
    var s, bodies := w.sessions[sid], w.assembled[sid];
    forall i | 0 <= i < |bodies| ensures |bodies[i]| == ExpectedLen(s.size, s.chunkSize, s.count, i) {
      assert (sid, i, bodies[i]) in w.verified;
    }
  }

  lemma ReassembledFrom(w: World, sid: Sid)
    requires WorldInv(w) && sid in w.sessions && w.sessions[sid].sha.Some?
    ensures sid in w.assembled && w.sessions[sid].key.Some? && w.sessions[sid].key.value in w.s3.objects
    ensures IsReassembled(w.s3.objects[w.sessions[sid].key.value], w.assembled[sid], w.sessions[sid])
    ensures AllVerified(w.assembled[sid], sid, w.verified)
  {
    var s := w.sessions[sid];
    assert Recorded(sid, s.ws, s.sha.value, w.assembled, w.s3.objects);
    BodiesFit(w, sid);
    AssembledSize(w, sid);
    forall n | 0 <= n < s.count ensures OccupiesChunk(Concat(w.assembled[sid]), w.assembled[sid][n], s, n) {
      OffsetSteps(s.size, s.chunkSize, s.count, n);
      BodyAtOffset(w.assembled[sid], s.size, s.chunkSize, s.count, n);
    }
  }

  /** A recorded hash and object key never change again, whatever handlers do afterwards. */
  lemma HashIsWriteOnce(chunkSize: int, maxObjectBytes: int, before: seq<Action>, after: seq<Action>, sid: Sid)
    requires 0 < chunkSize <= MAX_INT64 && maxObjectBytes <= MAX_INT64
    ensures var s := Exec(Boot(chunkSize, maxObjectBytes), before);
      sid in s.w.sessions && s.w.sessions[sid].sha.Some? ==>
        sid in Exec(s, after).w.sessions
        && Exec(s, after).w.sessions[sid].sha == s.w.sessions[sid].sha
        && Exec(s, after).w.sessions[sid].key == s.w.sessions[sid].key
  {
    ReachableInv(chunkSize, maxObjectBytes, before);
    ExecKeeps(Exec(Boot(chunkSize, maxObjectBytes), before), after);
  }
}
