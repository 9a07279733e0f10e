// services/upload/server.go: handleCreate, handlePutChunk and handleCancel in
// the handlers' own imperative form, proved to be exactly runs of the step
// machine. Calls take their outcome from a script; when it runs out the handler
// is cut where it stands.
module UploadRequests {
  import opened Basics
  import opened ObjectStorage
  import opened UploadWorld
  import opened UploadHandlers
  import Backpressure
  import GoInt

  /** How a handler ended: cut between two calls, answered, or told to come back after a delay. */
  datatype Ending = CutHere | Answer(response: Response) | Saturated(retryAfter: int)

  function CreateRun(w: World, tid: nat, pc: CreatePc, script: seq<Env>): (World, CreatePc)
    decreases |script|
  {
    if pc.CreateEnd? || script == [] then (w, pc)
    else var r := CreateStep(w, tid, pc, script[0]); CreateRun(r.0, tid, r.1, script[1..])
  }

  function PutRun(w: World, pc: PutPc, script: seq<Env>): (World, PutPc)
    decreases |script|
  {
    if pc.PutEnd? || script == [] then (w, pc)
    else var r := PutStep(w, pc, script[0]); PutRun(r.0, r.1, script[1..])
  }

  function CancelRun(w: World, pc: CancelPc, script: seq<Env>): (World, CancelPc)
    decreases |script|
  {
    if pc.CancelEnd? || script == [] then (w, pc)
    else var r := CancelStep(w, pc, script[0]); CancelRun(r.0, r.1, script[1..])
  }

  /** What a 200 with state DONE promises: the part is stored, its content has the announced hash, and the row says so. */
  predicate StoredAs(w: World, sid: Sid, n: int, want: Digest)
  {
    && OfSession(sid) in w.s3.uploads && n + 1 in w.s3.uploads[OfSession(sid)].parts
    && sid in w.chunks && 0 <= n < |w.chunks[sid]|
    && var body := w.s3.uploads[OfSession(sid)].parts[n + 1];
       Sha256(body) == want && w.chunks[sid][n] == Chunk(Done, Some(want), Some(Md5(body)), |body|)
  }

  /** Why a chunk PUT is refused once its session lookup has answered, in the order of the checks; None: it is not. */
  function PutRefusal(w: World, sid: Sid, ws: string, n: int, contentLength: int, want: Option<Digest>): Option<Response>
  {
    if sid !in w.sessions || w.sessions[sid].ws != ws then Some(NotFound)
    else
      var s := w.sessions[sid];
      if n < 0 || n >= s.count then Some(InvalidChunkIndex)
      else if s.state != Active then Some(NotActive)
      else if contentLength < 0 then Some(LengthRequired)
      else if n < s.count - 1 && contentLength != s.chunkSize then Some(ChunkSizeMismatch)
      else if n == s.count - 1 && contentLength != s.size - s.chunkSize * (s.count - 1) then Some(ChunkSizeMismatch)
      else if want.None? then Some(InvalidChecksumHeader)
      else None
  }

  /** The answers of those checks, which no later step gives. */
  predicate ChecksAnswer(r: Response)
  {
    r in {NotFound, InvalidChunkIndex, NotActive, LengthRequired, ChunkSizeMismatch, InvalidChecksumHeader}
  }

  /** A chunk PUT that is past its checks is never answered as if they had failed. */
  lemma {:induction false} PastTheChecks(w: World, pc: PutPc, script: seq<Env>)
    requires !pc.PutStart? && !(pc.PutEnd? && ChecksAnswer(pc.response)) && !(pc.Reject? && ChecksAnswer(pc.why))
    ensures var end := PutRun(w, pc, script).1; !(end.PutEnd? && ChecksAnswer(end.response))
    decreases |script|
  {
    if !pc.PutEnd? && script != [] {
      hide After, PutChunkPart, MarkChunkDone, MarkChunkRetry, ClaimChunk;
      var r := PutStep(w, pc, script[0]);
      PastTheChecks(r.0, r.1, script[1..]);
    }
  }

  /**
   * Once the lookup has answered, a chunk PUT is refused exactly as the table says, nothing changed: in particular a
   * session that is absent or of another workspace is not found, and only such a session is.
   */
  lemma PutIsRefusedIff(w: World, sid: Sid, ws: string, n: int, contentLength: int, want: Option<Digest>, script: seq<Env>)
    requires script != [] && script[0].o.Succeeds?
    ensures var end := PutRun(w, PutStart(sid, ws, n, contentLength, want), script);
      && (sid !in w.sessions || w.sessions[sid].ws != ws ==> end == (w, PutEnd(NotFound)))
      && (end.1 == PutEnd(NotFound) ==> sid !in w.sessions || w.sessions[sid].ws != ws)
      && match PutRefusal(w, sid, ws, n, contentLength, want)
         case Some(r) => end == (w, PutEnd(r))
         case None => !(end.1.PutEnd? && ChecksAnswer(end.1.response))
  {
    var pc := PutStep(w, PutStart(sid, ws, n, contentLength, want), script[0]).1;
    if !pc.PutEnd? {
      PastTheChecks(w, pc, script[1..]);
    }
  }

  /** A cancel that is past its lookup is never answered as if that had failed. */
  lemma {:induction false} PastTheLookup(w: World, pc: CancelPc, script: seq<Env>)
    requires !pc.CancelStart? && pc != CancelEnd(NotFound) && pc != CancelEnd(CannotCancelCompleted)
    ensures CancelRun(w, pc, script).1 != CancelEnd(NotFound) && CancelRun(w, pc, script).1 != CancelEnd(CannotCancelCompleted)
    decreases |script|
  {
    if !pc.CancelEnd? && script != [] {
      hide After, AbortSession, RemoveStaging, SetState;
      var r := CancelStep(w, pc, script[0]);
      PastTheLookup(r.0, r.1, script[1..]);
    }
  }

  /**
   * Once the lookup has answered, a cancel finds nothing exactly when the session is absent or of another workspace,
   * and cannot cancel exactly when it is COMPLETED; either way nothing changed.
   */
  lemma CancelIsRefusedIff(w: World, sid: Sid, ws: string, script: seq<Env>)
    requires script != [] && script[0].o.Succeeds?
    ensures var end := CancelRun(w, CancelStart(sid, ws), script);
      && (sid !in w.sessions || w.sessions[sid].ws != ws ==> end == (w, CancelEnd(NotFound)))
      && (end.1 == CancelEnd(NotFound) ==> sid !in w.sessions || w.sessions[sid].ws != ws)
      && (sid in w.sessions && w.sessions[sid].ws == ws ==>
            (w.sessions[sid].state == Completed <==> end.1 == CancelEnd(CannotCancelCompleted)))
      && (end.1 == CancelEnd(CannotCancelCompleted) ==> end.0 == w)
  {
    var pc := CancelStep(w, CancelStart(sid, ws), script[0]).1;
    if !pc.CancelEnd? {
      PastTheLookup(w, pc, script[1..]);
    }
  }

  /** What a 201 promises: the row as requested, every chunk pending, the multipart open, the event published. */
  predicate CreatedAs(w: World, sid: Sid, req: Session)
  {
    && sid in w.sessions && w.sessions[sid] == req
    && sid in w.chunks && |w.chunks[sid]| == req.count && (forall c :: c in w.chunks[sid] ==> c == FRESH_CHUNK)
    && OfSession(sid) in w.s3.uploads
    && Metered(sid, UploadSessionCreated, req.ws, req.user, req.size) in w.metered
  }

  // ---- which answer: the first call that fails decides ----

  lemma PutRunStep(w: World, pc: PutPc, e: Env, rest: seq<Env>)
    ensures pc.PutEnd? ==> PutRun(w, pc, [e] + rest) == (w, pc)
    ensures !pc.PutEnd? ==> PutRun(w, pc, [e] + rest) == PutRun(PutStep(w, pc, e).0, PutStep(w, pc, e).1, rest)
  {
    assert ([e] + rest)[1..] == rest;
  }

  /** The claim, the body, the part and the row of a chunk PUT that passed its checks. */
  lemma ClaimAnswers(w: World, sid: Sid, sess: Session, n: int, want: Digest, c: Env, r: Env, s: Env, d: Env)
    ensures PutRun(w, Claim(sid, sess, n, want), [c] + ([r] + ([s] + ([d] + [])))).1 ==
      PutEnd(if HasChunk(w, sid, n) && w.chunks[sid][n].state == Done
             then if c.o.Succeeds? then AlreadyDone else StoreError
             else if !c.o.Succeeds? || !HasChunk(w, sid, n) then StoreError
             else if |r.body| != Expected(sess, n) then BodyTruncated
             else if Sha256(r.body) != want then ChecksumMismatch
             else if !s.o.Succeeds? || OfSession(sid) !in w.s3.uploads then StorageError
             else if d.o.Succeeds? then ChunkStored else StoreError)
  {
    PutRunStep(w, Claim(sid, sess, n, want), c, [r] + ([s] + ([d] + [])));
    var (w1, pc1) := PutStep(w, Claim(sid, sess, n, want), c);
    PutRunStep(w1, pc1, r, [s] + ([d] + []));
    if !pc1.PutEnd? {
      assert pc1 == ReadBody(sid, sess, n, want) && HasChunk(w1, sid, n) && w1.s3 == w.s3;
      BodyAnswers(w1, sid, sess, n, want, r, s, d);
    }
  }

  lemma BodyAnswers(w: World, sid: Sid, sess: Session, n: int, want: Digest, r: Env, s: Env, d: Env)
    requires HasChunk(w, sid, n)
    ensures PutRun(w, ReadBody(sid, sess, n, want), [r] + ([s] + ([d] + []))).1 ==
      PutEnd(if |r.body| != Expected(sess, n) then BodyTruncated
             else if Sha256(r.body) != want then ChecksumMismatch
             else if !s.o.Succeeds? || OfSession(sid) !in w.s3.uploads then StorageError
             else if d.o.Succeeds? then ChunkStored else StoreError)
  {
    PutRunStep(w, ReadBody(sid, sess, n, want), r, [s] + ([d] + []));
    var (w1, pc1) := PutStep(w, ReadBody(sid, sess, n, want), r);
    PutRunStep(w1, pc1, s, [d] + []);
    var (w2, pc2) := PutStep(w1, pc1, s);
    PutRunStep(w2, pc2, d, []);
  }

  /**
   * What a chunk PUT that passes its checks is answered: a stored chunk when nothing fails, else what the first failing
   * call or check stands for.
   */
  lemma PutAnswers(w: World, sid: Sid, ws: string, n: int, contentLength: int, want: Option<Digest>,
                   l: Env, c: Env, r: Env, s: Env, d: Env)
    requires l.o.Succeeds? && PutRefusal(w, sid, ws, n, contentLength, want) == None
    ensures PutRun(w, PutStart(sid, ws, n, contentLength, want), [l, c, r, s, d]).1 ==
      PutEnd(if HasChunk(w, sid, n) && w.chunks[sid][n].state == Done
             then if c.o.Succeeds? then AlreadyDone else StoreError
             else if !c.o.Succeeds? || !HasChunk(w, sid, n) then StoreError
             else if |r.body| != contentLength then BodyTruncated
             else if Some(Sha256(r.body)) != want then ChecksumMismatch
             else if !s.o.Succeeds? || OfSession(sid) !in w.s3.uploads then StorageError
             else if d.o.Succeeds? then ChunkStored else StoreError)
  {
    var rest := [c] + ([r] + ([s] + ([d] + [])));
    assert [l, c, r, s, d] == [l] + rest;
    PutRunStep(w, PutStart(sid, ws, n, contentLength, want), l, rest);
    ClaimAnswers(w, sid, w.sessions[sid], n, want.value, c, r, s, d);
  }

  lemma CancelRunStep(w: World, pc: CancelPc, e: Env, rest: seq<Env>)
    ensures pc.CancelEnd? ==> CancelRun(w, pc, [e] + rest) == (w, pc)
    ensures !pc.CancelEnd? ==> CancelRun(w, pc, [e] + rest) == CancelRun(CancelStep(w, pc, e).0, CancelStep(w, pc, e).1, rest)
  {
    assert ([e] + rest)[1..] == rest;
  }

  /** What a cancel of an owned session that is not COMPLETED is answered; the deletion is skipped when HEAD shows none. */
  lemma CancelAnswers(w: World, sid: Sid, l: Env, a: Env, h: Env, d: Env, p: Env)
    requires l.o.Succeeds? && sid in w.sessions && w.sessions[sid].state != Completed
    ensures var sweeps := h.o.Succeeds? && Staging(sid) in w.s3.objects;
      CancelRun(w, CancelStart(sid, w.sessions[sid].ws), [l, a, h, d, p]).1 ==
        CancelEnd(if w.sessions[sid].state == Cancelled then NoContent
                  else if !a.o.Succeeds? || (sweeps && !d.o.Succeeds?) then StorageError
                  else if (if sweeps then p else d).o.Succeeds? then NoContent else StoreError)
  {
    var rest := [a] + ([h] + ([d] + ([p] + [])));
    assert [l, a, h, d, p] == [l] + rest;
    CancelRunStep(w, CancelStart(sid, w.sessions[sid].ws), l, rest);
    var (w1, pc1) := CancelStep(w, CancelStart(sid, w.sessions[sid].ws), l);
    CancelRunStep(w1, pc1, a, [h] + ([d] + ([p] + [])));
    var (w2, pc2) := CancelStep(w1, pc1, a);
    CancelRunStep(w2, pc2, h, [d] + ([p] + []));
    var (w3, pc3) := CancelStep(w2, pc2, h);
    CancelRunStep(w3, pc3, d, [p] + []);
    var (w4, pc4) := CancelStep(w3, pc3, d);
    CancelRunStep(w4, pc4, p, []);
  }

  lemma CreateRunStep(w: World, tid: nat, pc: CreatePc, e: Env, rest: seq<Env>)
    ensures pc.CreateEnd? ==> CreateRun(w, tid, pc, [e] + rest) == (w, pc)
    ensures !pc.CreateEnd? ==>
      var r := CreateStep(w, tid, pc, e); CreateRun(w, tid, pc, [e] + rest) == CreateRun(r.0, tid, r.1, rest)
  {
    assert ([e] + rest)[1..] == rest;
  }

  /** Once the event has failed for good, both calls of the rollback end in the same answer. */
  lemma RollbackAnswers(w: World, tid: nat, sid: Sid, s: Env, a: Env, rest: seq<Env>)
    ensures CreateRun(w, tid, RollbackState(sid), [s] + ([a] + rest)).1 == CreateEnd(PublishFailed)
  {
    CreateRunStep(w, tid, RollbackState(sid), s, [a] + rest);
    var (w1, pc1) := CreateStep(w, tid, RollbackState(sid), s);
    CreateRunStep(w1, tid, pc1, a, rest);
    var (w2, pc2) := CreateStep(w1, tid, pc1, a);
    assert CreateRun(w2, tid, CreateEnd(PublishFailed), rest).1 == CreateEnd(PublishFailed);
  }

  /** Three attempts to publish, the next one only while the client is there. */
  lemma MeterAnswers(w: World, tid: nat, sid: Sid, req: Session, m1: Env, m2: Env, m3: Env, s: Env, a: Env)
    ensures CreateRun(w, tid, MeterCreated(sid, req, 0), [m1] + ([m2] + ([m3] + ([s] + ([a] + []))))).1 ==
      CreateEnd(if m1.o.Succeeds? || (!m1.clientGone && (m2.o.Succeeds? || (!m2.clientGone && m3.o.Succeeds?)))
                then Created else PublishFailed)
  {
    hide PublishMetered, SetState, AbortMultipart, After;
    CreateRunStep(w, tid, MeterCreated(sid, req, 0), m1, [m2] + ([m3] + ([s] + ([a] + []))));
    var (w1, pc1) := CreateStep(w, tid, MeterCreated(sid, req, 0), m1);
    RollbackAnswers(w1, tid, sid, m2, m3, [s] + ([a] + []));
    CreateRunStep(w1, tid, pc1, m2, [m3] + ([s] + ([a] + [])));
    var (w2, pc2) := CreateStep(w1, tid, MeterCreated(sid, req, 1), m2);
    RollbackAnswers(w2, tid, sid, m3, s, [a] + []);
    CreateRunStep(w2, tid, pc2, m3, [s] + ([a] + []));
    var (w3, pc3) := CreateStep(w2, tid, MeterCreated(sid, req, 2), m3);
    RollbackAnswers(w3, tid, sid, s, a, []);
    CreateRunStep(w3, tid, pc3, s, [a] + []);
  }

  /** What a valid create is answered: created when nothing fails, else what the first failing call stands for. */
  lemma CreateAnswers(w: World, tid: nat, ws: string, user: string, body: CreateBody, allowed: bool,
                      q: Env, b: Env, i: Env, m1: Env, m2: Env, m3: Env, s: Env, a: Env)
    requires w.chunkSize > 0 && ValidCreate(body, w.maxObjectBytes)
    ensures var fits := 0 < Tiling.ChunkCount(body.size, w.chunkSize) <= 0x7FFF_FFFF;
      var published := m1.o.Succeeds? || (!m1.clientGone && (m2.o.Succeeds? || (!m2.clientGone && m3.o.Succeeds?)));
      CreateRun(w, tid, CreateStart(ws, user, Some(body), allowed), [q, b, i, m1, m2, m3, s, a]).1 ==
        CreateEnd(if !q.o.Succeeds? then QuotaError else if !allowed then QuotaDenied
                  else if !b.o.Succeeds? then StorageError else if !i.o.Succeeds? || !fits then StoreError
                  else if published then Created else PublishFailed)
  {
    hide Tiling.ChunkCount, CreateSession, BeginMultipart, AbortMultipart, After;
    var last := [m1] + ([m2] + ([m3] + ([s] + ([a] + []))));
    var start := CreateStart(ws, user, Some(body), allowed);
    assert [q, b, i, m1, m2, m3, s, a] == [q] + ([b] + ([i] + last));
    CreateRunStep(w, tid, start, q, [b] + ([i] + last));
    var (w1, pc1) := CreateStep(w, tid, start, q);
    hide ValidCreate;
    if pc1.OpenMultipart? {
      InsertAnswers(w1, tid, pc1.sid, pc1.req, b, i, m1, m2, m3, s, a);
    } else {
      CreateRunStep(w1, tid, pc1, b, [i] + last);
    }
  }

  /** The multipart, the row and the event of a create that passed its checks. */
  lemma InsertAnswers(w: World, tid: nat, sid: Sid, req: Session, b: Env, i: Env, m1: Env, m2: Env, m3: Env, s: Env, a: Env)
    ensures var published := m1.o.Succeeds? || (!m1.clientGone && (m2.o.Succeeds? || (!m2.clientGone && m3.o.Succeeds?)));
      CreateRun(w, tid, OpenMultipart(sid, req), [b] + ([i] + ([m1] + ([m2] + ([m3] + ([s] + ([a] + []))))))).1 ==
        CreateEnd(if !b.o.Succeeds? then StorageError else if !i.o.Succeeds? || !Insertable(req) then StoreError
                  else if published then Created else PublishFailed)
  {
    hide CreateSession, BeginMultipart, AbortMultipart, After;
    var last := [m1] + ([m2] + ([m3] + ([s] + ([a] + []))));
    CreateRunStep(w, tid, OpenMultipart(sid, req), b, [i] + last);
    var (w2, pc2) := CreateStep(w, tid, OpenMultipart(sid, req), b);
    CreateRunStep(w2, tid, pc2, i, last);
    var (w3, pc3) := CreateStep(w2, tid, InsertSession(sid, req), i);
    CreateRunStep(w3, tid, AbortUnsaved(sid), m1, [m2] + ([m3] + ([s] + ([a] + []))));
    MeterAnswers(w3, tid, sid, req, m1, m2, m3, s, a);
  }

  class Server {
    var w: World
    var script: seq<Env>
    const gauge: Backpressure.InflightGauge
    const backoff: Backpressure.BackoffDirector

    constructor (w: World, script: seq<Env>, gauge: Backpressure.InflightGauge, backoff: Backpressure.BackoffDirector)
      ensures this.w == w && this.script == script && this.gauge == gauge && this.backoff == backoff
    {
      this.w, this.script, this.gauge, this.backoff := w, script, gauge, backoff;
    }

    method Take() returns (e: Env)
      requires script != []
      modifies this`script
      ensures e == old(script)[0] && script == old(script)[1..]
    {
      e := script[0];
      script := script[1..];
    }

    /**
     * handlePutChunk: check the request, admit its body, claim, read and check it, store the part, record DONE; any
     * failure after the claim flags a retry. `others` is what the rest of the program does to the gauge during the
     * admission, `meanwhile` what it does while the body is held. Admission never shows in the stored state: an
     * admitted request is a run of the step machine, a refused one changes nothing but its session's backoff, and
     * what was admitted is released whatever the answer.
     */
    method HandlePutChunk(sid: Sid, ws: string, n: int, contentLength: int, want: Option<Digest>,
                          others: seq<int>, meanwhile: int)
      returns (end: Ending, ghost admitted: bool, ghost rounds: nat)
      requires backoff.Valid()
      modifies this, gauge, backoff
      ensures !end.Saturated? ==> w == PutRun(old(w), PutStart(sid, ws, n, contentLength, want), old(script)).0
      ensures end.Answer? ==> PutRun(old(w), PutStart(sid, ws, n, contentLength, want), old(script)).1 == PutEnd(end.response)
      ensures end.CutHere? ==> !PutRun(old(w), PutStart(sid, ws, n, contentLength, want), old(script)).1.PutEnd?
      ensures old(script) != [] && !old(script)[0].o.Succeeds? ==> end == Answer(StoreError) && w == old(w)
      ensures old(script) != [] && old(script)[0].o.Succeeds? ==>
        var refusal := PutRefusal(old(w), sid, ws, n, contentLength, want);
        if refusal.Some? then end == Answer(refusal.value) && w == old(w)
        else !(end.Answer? && ChecksAnswer(end.response))
      ensures end == Answer(ChunkStored) ==> want.Some? && StoredAs(w, sid, n, want.value)
      ensures end == Answer(AlreadyDone) ==> w == old(w) && HasChunk(w, sid, n) && w.chunks[sid][n].state == Done
      ensures end == Answer(BodyTruncated) ==> |old(script)| > 3 && |old(script)[2].body| != contentLength
      ensures end == Answer(ChecksumMismatch) ==>
        |old(script)| > 3 && |old(script)[2].body| == contentLength && want != Some(Sha256(old(script)[2].body))
      ensures (end == Answer(BodyTruncated) || end == Answer(ChecksumMismatch)) && !old(script)[3].o.FailsBefore? ==>
        HasChunk(w, sid, n) && w.chunks[sid][n].state == Retry
      ensures end.Saturated? ==> w == old(w) && GoInt.Wrap64(gauge.current + contentLength) > gauge.ceiling
      ensures end.Saturated? ==>
        end.retryAfter == Backpressure.Delay(backoff.base, backoff.max, Backpressure.Denials(old(backoff.calls), sid))
      ensures backoff.Valid()
      ensures backoff.calls == old(backoff.calls) + (if end.Saturated? then [Backpressure.Deny(sid)]
                                                     else if end == Answer(ChunkStored) then [Backpressure.Reset(sid)]
                                                     else [])
      ensures rounds <= |others|
      ensures end.Answer? && !admitted ==> gauge.current == old(gauge.current)
      ensures admitted ==>
        GoInt.Wrap64(old(gauge.current) + Backpressure.Total(others[..rounds]) + contentLength) <= gauge.ceiling
      ensures end.Answer? && admitted ==>
        gauge.current == GoInt.Wrap64(old(gauge.current) + Backpressure.Total(others[..rounds]) + meanwhile)
    {
      hide PutRefusal, StoredAs, PutRun, PutStep, Expected;
      admitted, rounds := false, 0;
      var refused, sess := CheckPut(sid, ws, n, contentLength, want);
      if refused.Some? {
        return refused.value, admitted, rounds;
      }
      var ok;
      ok, rounds := gauge.TryAcquire(contentLength, others);
      if !ok {
        var delay := backoff.DenySession(sid);
        return Saturated(delay), admitted, rounds;
      }
      admitted := true;
      end := ClaimAndStore(sid, sess, n, want.value);
      gauge.current := gauge.current + meanwhile;
      if end == Answer(ChunkStored) {
        backoff.ResetSession(sid);
      }
      if end != CutHere {
        gauge.Release(contentLength);
        Backpressure.WrapAdds(
          old(gauge.current) + Backpressure.Total(others[..rounds]) + contentLength, meanwhile - contentLength);
      }
    }

    /** The checks before admission: the session, the index, the state, the announced length and checksum. */
    method CheckPut(sid: Sid, ws: string, n: int, contentLength: int, want: Option<Digest>)
      returns (refused: Option<Ending>, sess: Session)
      modifies this`script
      ensures refused.None? ==> Expected(sess, n) == contentLength && want.Some?
      ensures refused ==
        if old(script) == [] then Some(CutHere)
        else if !old(script)[0].o.Succeeds? then Some(Answer(StoreError))
        else
          var r := PutRefusal(w, sid, ws, n, contentLength, want);
          if r.Some? then Some(Answer(r.value)) else None
      ensures refused.None? ==> script == old(script)[1..] && sid in w.sessions && sess == w.sessions[sid]
      ensures refused.None? ==>
        PutRun(w, PutStart(sid, ws, n, contentLength, want), old(script)) == PutRun(w, Claim(sid, sess, n, want.value), script)
      ensures refused.Some? ==> w == PutRun(w, PutStart(sid, ws, n, contentLength, want), old(script)).0
      ensures refused.Some? && refused.value != CutHere ==>
        refused.value.Answer? && (refused.value == Answer(StoreError) || ChecksAnswer(refused.value.response))
      ensures refused.Some? && refused.value.Answer? ==>
        PutRun(w, PutStart(sid, ws, n, contentLength, want), old(script)).1 == PutEnd(refused.value.response)
      ensures refused == Some(CutHere) ==> !PutRun(w, PutStart(sid, ws, n, contentLength, want), old(script)).1.PutEnd?
    {
      sess := Session(ws, "", 0, 0, 0, Active, None, None);
      if script == [] {
        return Some(CutHere), sess;
      }
      var e := Take();
      if !e.o.Succeeds? {
        return Some(Answer(StoreError)), sess;
      }
      if !Owned(w, sid, ws) {
        return Some(Answer(NotFound)), sess;
      }
      sess := w.sessions[sid];
      if n < 0 || n >= sess.count {
        return Some(Answer(InvalidChunkIndex)), sess;
      }
      if !sess.state.Active? {
        return Some(Answer(NotActive)), sess;
      }
      if contentLength < 0 {
        return Some(Answer(LengthRequired)), sess;
      }
      var expected := if n == sess.count - 1 then sess.size - sess.chunkSize * (sess.count - 1) else sess.chunkSize;
      if contentLength != expected {
        return Some(Answer(ChunkSizeMismatch)), sess;
      }
      if want.None? {
        return Some(Answer(InvalidChecksumHeader)), sess;
      }
      return None, sess;
    }

    method ClaimAndStore(sid: Sid, sess: Session, n: int, want: Digest) returns (end: Ending)
      modifies this
      ensures w == PutRun(old(w), Claim(sid, sess, n, want), old(script)).0
      ensures end.Answer? ==> PutRun(old(w), Claim(sid, sess, n, want), old(script)).1 == PutEnd(end.response)
      ensures end.CutHere? ==> !PutRun(old(w), Claim(sid, sess, n, want), old(script)).1.PutEnd?
      ensures end == Answer(ChunkStored) ==> StoredAs(w, sid, n, want)
      ensures end == Answer(AlreadyDone) ==> w == old(w) && HasChunk(w, sid, n) && w.chunks[sid][n].state == Done
      ensures !end.Saturated? && !(end.Answer? && ChecksAnswer(end.response))
      ensures end == Answer(BodyTruncated) ==> |old(script)| > 2 && |old(script)[1].body| != Expected(sess, n)
      ensures end == Answer(ChecksumMismatch) ==>
        |old(script)| > 2 && |old(script)[1].body| == Expected(sess, n) && want != Sha256(old(script)[1].body)
      ensures (end == Answer(BodyTruncated) || end == Answer(ChecksumMismatch)) && !old(script)[2].o.FailsBefore? ==>
        HasChunk(w, sid, n) && w.chunks[sid][n].state == Retry
    {
      ghost var start := Claim(sid, sess, n, want);
      if script == [] {
        return CutHere;
      }
      var e := Take();
      if ChunkIsDone(w, sid, n) {
        return Answer(if e.o.Succeeds? then AlreadyDone else StoreError);
      }
      var found := HasChunk(w, sid, n);
      w := After(w, ClaimChunk(w, sid, n), e.o);
      if !e.o.Succeeds? || !found {
        return Answer(StoreError);
      }
      assert PutRun(old(w), start, old(script)) == PutRun(w, ReadBody(sid, sess, n, want), script);
      end := ReadAndStore(sid, sess, n, want);
    }

    method ReadAndStore(sid: Sid, sess: Session, n: int, want: Digest) returns (end: Ending)
      modifies this
      ensures w == PutRun(old(w), ReadBody(sid, sess, n, want), old(script)).0
      ensures end.Answer? ==> PutRun(old(w), ReadBody(sid, sess, n, want), old(script)).1 == PutEnd(end.response)
      ensures end.CutHere? ==> !PutRun(old(w), ReadBody(sid, sess, n, want), old(script)).1.PutEnd?
      ensures end == Answer(ChunkStored) ==> StoredAs(w, sid, n, want)
      ensures end != Answer(AlreadyDone) && !end.Saturated? && !(end.Answer? && ChecksAnswer(end.response))
      ensures end == Answer(BodyTruncated) ==> |old(script)| > 1 && |old(script)[0].body| != Expected(sess, n)
      ensures end == Answer(ChecksumMismatch) ==>
        |old(script)| > 1 && |old(script)[0].body| == Expected(sess, n) && want != Sha256(old(script)[0].body)
      ensures old(HasChunk(w, sid, n) && !w.chunks[sid][n].state.Done?) ==>
        (end == Answer(BodyTruncated) || end == Answer(ChecksumMismatch)) && !old(script)[1].o.FailsBefore? ==>
        HasChunk(w, sid, n) && w.chunks[sid][n].state == Retry
    {
      ghost var start := ReadBody(sid, sess, n, want);
      if script == [] {
        return CutHere;
      }
      var e := Take();
      var body := e.body;
      if |body| != Expected(sess, n) {
        assert PutRun(old(w), start, old(script)) == PutRun(w, Reject(sid, n, BodyTruncated), script);
        end := RejectChunk(sid, n, BodyTruncated);
        return;
      }
      if Sha256(body) != want {
        assert PutRun(old(w), start, old(script)) == PutRun(w, Reject(sid, n, ChecksumMismatch), script);
        end := RejectChunk(sid, n, ChecksumMismatch);
        return;
      }
      w := w.(verified := w.verified + {(sid, n, body)});
      assert PutRun(old(w), start, old(script)) == PutRun(w, StorePart(sid, n, body), script);
      end := StoreAndRecord(sid, n, body);
    }

    method StoreAndRecord(sid: Sid, n: int, body: seq<Tiling.byte>) returns (end: Ending)
      modifies this
      ensures w == PutRun(old(w), StorePart(sid, n, body), old(script)).0
      ensures end.Answer? ==> PutRun(old(w), StorePart(sid, n, body), old(script)).1 == PutEnd(end.response)
      ensures end.CutHere? ==> !PutRun(old(w), StorePart(sid, n, body), old(script)).1.PutEnd?
      ensures end == Answer(ChunkStored) ==> StoredAs(w, sid, n, Sha256(body))
      ensures end == CutHere || end == Answer(ChunkStored) || end == Answer(StorageError) || end == Answer(StoreError)
    {
      if script == [] {
        return CutHere;
      }
      var e := Take();
      var stored := e.o.Succeeds? && OfSession(sid) in w.s3.uploads;
      w := After(w, PutChunkPart(w, sid, n, body), e.o);
      if !stored {
        assert PutRun(old(w), StorePart(sid, n, body), old(script)) == PutRun(w, Reject(sid, n, StorageError), script);
        end := RejectChunk(sid, n, StorageError);
        return;
      }
      assert PutRun(old(w), StorePart(sid, n, body), old(script)) == PutRun(w, RecordDone(sid, n, body), script);
      if script == [] {
        return CutHere;
      }
      e := Take();
      var found := HasChunk(w, sid, n);
      w := After(w, MarkChunkDone(w, sid, n, Sha256(body), Md5(body), |body|), e.o);
      var answer := if e.o.Succeeds? && found then ChunkStored else StoreError;
      assert PutRun(old(w), StorePart(sid, n, body), old(script)) == PutRun(w, PutEnd(answer), script);
      return Answer(answer);
    }

    /** The best-effort MarkChunkRetry before an error answer. */
    method RejectChunk(sid: Sid, n: int, why: Response) returns (end: Ending)
      modifies this
      ensures w == PutRun(old(w), Reject(sid, n, why), old(script)).0
      ensures end.Answer? ==> PutRun(old(w), Reject(sid, n, why), old(script)).1 == PutEnd(end.response)
      ensures end.CutHere? ==> !PutRun(old(w), Reject(sid, n, why), old(script)).1.PutEnd?
      ensures end == CutHere || end == Answer(why)
      ensures end == Answer(why) ==> old(script) != []
      ensures old(HasChunk(w, sid, n) && !w.chunks[sid][n].state.Done?) ==>
        end == Answer(why) && !old(script)[0].o.FailsBefore? ==>
        HasChunk(w, sid, n) && w.chunks[sid][n].state == Retry
    {
      if script == [] {
        return CutHere;
      }
      var e := Take();
      w := After(w, MarkChunkRetry(w, sid, n), e.o);
      return Answer(why);
    }

    /**
     * handleCancel: abort, remove a staging object, then record CANCELLED; a cancelled session is only aborted again.
     */
    method HandleCancel(sid: Sid, ws: string) returns (end: Ending)
      modifies this
      ensures w == CancelRun(old(w), CancelStart(sid, ws), old(script)).0
      ensures end.Answer? ==> CancelRun(old(w), CancelStart(sid, ws), old(script)).1 == CancelEnd(end.response)
      ensures end.CutHere? ==> !CancelRun(old(w), CancelStart(sid, ws), old(script)).1.CancelEnd?
      ensures !end.Saturated?
      ensures old(script) != [] && !old(script)[0].o.Succeeds? ==> end == Answer(StoreError) && w == old(w)
      ensures old(script) != [] && old(script)[0].o.Succeeds? ==>
        (end == Answer(NotFound) <==> sid !in old(w).sessions || old(w).sessions[sid].ws != ws)
      ensures old(script) != [] && old(script)[0].o.Succeeds? && sid in old(w).sessions && old(w).sessions[sid].ws == ws ==>
        (end == Answer(CannotCancelCompleted) <==> old(w).sessions[sid].state == Completed)
      ensures end == Answer(NotFound) || end == Answer(CannotCancelCompleted) ==> w == old(w)
      ensures end == Answer(NoContent) ==> sid in old(w.sessions)
      ensures end == Answer(NoContent) ==> w.sessions == old(w.sessions[sid := w.sessions[sid].(state := Cancelled)])
      ensures end == Answer(NoContent) && !old(w.sessions[sid].state.Cancelled?) ==>
        && w.s3.uploads == old(w.s3.uploads) - {OfSession(sid)}
        && |old(script)| > 2 && (old(script)[2].o.Succeeds? ==> Staging(sid) !in w.s3.objects)
    {
      ghost var start := CancelStart(sid, ws);
      if script == [] {
        return CutHere;
      }
      var e := Take();
      if !e.o.Succeeds? {
        return Answer(StoreError);
      }
      if !Owned(w, sid, ws) {
        return Answer(NotFound);
      }
      var state := w.sessions[sid].state;
      if state.Completed? {
        return Answer(CannotCancelCompleted);
      }
      if state.Cancelled? {
        assert CancelRun(old(w), start, old(script)) == CancelRun(w, ReAbort(sid), script);
        if script == [] {
          return CutHere;
        }
        e := Take();
        w := AbortSession(w, sid, e.o);
        assert CancelRun(old(w), start, old(script)) == CancelRun(w, CancelEnd(NoContent), script);
        return Answer(NoContent);
      }
      assert CancelRun(old(w), start, old(script)) == CancelRun(w, CancelAbort(sid), script);
      end := AbortAndRecord(sid);
    }

    method AbortAndRecord(sid: Sid) returns (end: Ending)
      requires sid in w.sessions
      modifies this
      ensures w == CancelRun(old(w), CancelAbort(sid), old(script)).0
      ensures end.Answer? ==> CancelRun(old(w), CancelAbort(sid), old(script)).1 == CancelEnd(end.response)
      ensures end.CutHere? ==> !CancelRun(old(w), CancelAbort(sid), old(script)).1.CancelEnd?
      ensures !end.Saturated? && end != Answer(NotFound) && end != Answer(CannotCancelCompleted)
      ensures end == Answer(NoContent) ==>
        && w.sessions == old(w.sessions[sid := w.sessions[sid].(state := Cancelled)])
        && w.s3.uploads == old(w.s3.uploads) - {OfSession(sid)}
        && |old(script)| > 1 && (old(script)[1].o.Succeeds? ==> Staging(sid) !in w.s3.objects)
    {
      if script == [] {
        return CutHere;
      }
      var e := Take();
      w := AbortSession(w, sid, e.o);
      if !e.o.Succeeds? {
        assert CancelRun(old(w), CancelAbort(sid), old(script)) == CancelRun(w, CancelEnd(StorageError), script);
        return Answer(StorageError);
      }
      assert CancelRun(old(w), CancelAbort(sid), old(script)) == CancelRun(w, CancelHead(sid), script);
      end := SweepAndRecord(sid);
    }

    /** The staging object goes if there is one, then CANCELLED is recorded. */
    method SweepAndRecord(sid: Sid) returns (end: Ending)
      requires sid in w.sessions
      modifies this
      ensures w == CancelRun(old(w), CancelHead(sid), old(script)).0
      ensures end.Answer? ==> CancelRun(old(w), CancelHead(sid), old(script)).1 == CancelEnd(end.response)
      ensures end.CutHere? ==> !CancelRun(old(w), CancelHead(sid), old(script)).1.CancelEnd?
      ensures end == CutHere || end in {Answer(NoContent), Answer(StorageError), Answer(StoreError)}
      ensures end != CutHere ==> old(script) != []
      ensures w.s3.uploads == old(w.s3.uploads)
      ensures end == Answer(NoContent) ==> w.sessions == old(w.sessions[sid := w.sessions[sid].(state := Cancelled)])
      ensures end == Answer(NoContent) && old(script)[0].o.Succeeds? ==> Staging(sid) !in w.s3.objects
    {
      ghost var start := CancelHead(sid);
      if script == [] {
        return CutHere;
      }
      var e := Take();
      if e.o.Succeeds? && Staging(sid) in w.s3.objects {
        assert CancelRun(old(w), start, old(script)) == CancelRun(w, CancelDelete(sid), script);
        if script == [] {
          return CutHere;
        }
        e := Take();
        w := After(w, RemoveStaging(w, sid), e.o);
        if !e.o.Succeeds? {
          assert CancelRun(old(w), start, old(script)) == CancelRun(w, CancelEnd(StorageError), script);
          return Answer(StorageError);
        }
      }
      assert CancelRun(old(w), start, old(script)) == CancelRun(w, PersistCancelled(sid), script);
      if script == [] {
        return CutHere;
      }
      e := Take();
      w := After(w, SetState(w, sid, Cancelled), e.o);
      var answer := if e.o.Succeeds? then NoContent else StoreError;
      assert CancelRun(old(w), start, old(script)) == CancelRun(w, CancelEnd(answer), script);
      return Answer(answer);
    }

    /**
     * handleCreate: check the body and the quota, open the multipart, insert the session, publish its event, or roll
     * back.
     */
    method HandleCreate(tid: nat, ws: string, user: string, body: Option<CreateBody>, allowed: bool) returns (end: Ending)
      modifies this
      ensures w == CreateRun(old(w), tid, CreateStart(ws, user, body, allowed), old(script)).0
      ensures end.Answer? ==>
        CreateRun(old(w), tid, CreateStart(ws, user, body, allowed), old(script)).1 == CreateEnd(end.response)
      ensures end.CutHere? ==> !CreateRun(old(w), tid, CreateStart(ws, user, body, allowed), old(script)).1.CreateEnd?
      ensures !end.Saturated?
      ensures old(script) != [] && old(w.chunkSize) > 0 ==>
        var valid := body.Some? && ValidCreate(body.value, old(w.maxObjectBytes));
        && (end == Answer(InvalidBody) <==> !valid)
        && (end == Answer(QuotaError) <==> valid && !old(script)[0].o.Succeeds?)
        && (end == Answer(QuotaDenied) <==> valid && old(script)[0].o.Succeeds? && !allowed)
      ensures end == Answer(InvalidBody) || end == Answer(QuotaError) || end == Answer(QuotaDenied) ==> w == old(w)
      ensures end == Answer(Created) ==>
        body.Some? && ValidCreate(body.value, old(w.maxObjectBytes)) && allowed && old(w.chunkSize) > 0 &&
        var count := Tiling.ChunkCount(body.value.size, old(w.chunkSize));
        CreatedAs(w, old(NextSid(w)), Session(ws, user, body.value.size, old(w.chunkSize), count, Active, None, None))
    {
      hide ValidCreate;
      ghost var start := CreateStart(ws, user, body, allowed);
      if script == [] {
        return CutHere;
      }
      var e := Take();
      if body.None? || !ValidCreate(body.value, w.maxObjectBytes) || w.chunkSize <= 0 {
        return Answer(InvalidBody);
      }
      if !e.o.Succeeds? {
        return Answer(QuotaError);
      }
      if !allowed {
        return Answer(QuotaDenied);
      }
      var sid, size := NextSid(w), body.value.size;
      w := w.(owner := w.owner[sid := tid]);
      var req := Session(ws, user, size, w.chunkSize, Tiling.ChunkCount(size, w.chunkSize), Active, None, None);
      assert CreateRun(old(w), tid, start, old(script)) == CreateRun(w, tid, OpenMultipart(sid, req), script);
      end := OpenAndInsert(tid, sid, req);
    }

    method OpenAndInsert(tid: nat, sid: Sid, req: Session) returns (end: Ending)
      modifies this
      ensures w == CreateRun(old(w), tid, OpenMultipart(sid, req), old(script)).0
      ensures end.Answer? ==> CreateRun(old(w), tid, OpenMultipart(sid, req), old(script)).1 == CreateEnd(end.response)
      ensures end.CutHere? ==> !CreateRun(old(w), tid, OpenMultipart(sid, req), old(script)).1.CreateEnd?
      ensures !end.Saturated? && end != Answer(InvalidBody) && end != Answer(QuotaError) && end != Answer(QuotaDenied)
      ensures end == Answer(Created) ==> CreatedAs(w, sid, req)
    {
      ghost var start := OpenMultipart(sid, req);
      if script == [] {
        return CutHere;
      }
      var e := Take();
      w := After(w, BeginMultipart(w, sid), e.o);
      if !e.o.Succeeds? {
        return Answer(StorageError);
      }
      assert CreateRun(old(w), tid, start, old(script)) == CreateRun(w, tid, InsertSession(sid, req), script);
      if script == [] {
        return CutHere;
      }
      e := Take();
      w := After(w, CreateSession(w, sid, req), e.o);
      if !(e.o.Succeeds? && Insertable(req)) {
        assert CreateRun(old(w), tid, start, old(script)) == CreateRun(w, tid, AbortUnsaved(sid), script);
        if script == [] {
          return CutHere;
        }
        e := Take();
        w := After(w, AbortMultipart(w, sid), e.o);
        assert CreateRun(old(w), tid, start, old(script)) == CreateRun(w, tid, CreateEnd(StoreError), script);
        return Answer(StoreError);
      }
      assert CreateRun(old(w), tid, start, old(script)) == CreateRun(w, tid, MeterCreated(sid, req, 0), script);
      end := MeterOrRollBack(tid, sid, req);
    }

    /** publishMetering, and on its failure CANCELLED before the abort. */
    method MeterOrRollBack(tid: nat, sid: Sid, req: Session) returns (end: Ending)
      modifies this
      ensures w == CreateRun(old(w), tid, MeterCreated(sid, req, 0), old(script)).0
      ensures end.Answer? ==> CreateRun(old(w), tid, MeterCreated(sid, req, 0), old(script)).1 == CreateEnd(end.response)
      ensures end.CutHere? ==> !CreateRun(old(w), tid, MeterCreated(sid, req, 0), old(script)).1.CreateEnd?
      ensures end == CutHere || end == Answer(Created) || end == Answer(PublishFailed)
      ensures end == Answer(Created) ==> w == old(w).(metered := w.metered)
      ensures end == Answer(Created) ==> Metered(sid, UploadSessionCreated, req.ws, req.user, req.size) in w.metered
    {
      ghost var start := MeterCreated(sid, req, 0);
      var attempt, failed := 0, false;
      while !failed
        invariant CreateRun(old(w), tid, start, old(script))
               == CreateRun(w, tid, if failed then RollbackState(sid) else MeterCreated(sid, req, attempt), script)
        invariant w == old(w).(metered := w.metered)
        decreases !failed, |script|
      {
        if script == [] {
          return CutHere;
        }
        var e := Take();
        w := After(w, PublishMetered(w, Metered(sid, UploadSessionCreated, req.ws, req.user, req.size)), e.o);
        if e.o.Succeeds? {
          assert CreateRun(old(w), tid, start, old(script)) == CreateRun(w, tid, CreateEnd(Created), script);
          return Answer(Created);
        }
        failed := !PublishAgain(e, attempt);
        attempt := attempt + 1;
      }
      end := RollBack(tid, sid);
    }

    /** CANCELLED is recorded first; only then is the multipart aborted. */
    method RollBack(tid: nat, sid: Sid) returns (end: Ending)
      modifies this
      ensures w == CreateRun(old(w), tid, RollbackState(sid), old(script)).0
      ensures end.Answer? ==> CreateRun(old(w), tid, RollbackState(sid), old(script)).1 == CreateEnd(end.response)
      ensures end.CutHere? ==> !CreateRun(old(w), tid, RollbackState(sid), old(script)).1.CreateEnd?
      ensures end == CutHere || end == Answer(PublishFailed)
    {
      if script == [] {
        return CutHere;
      }
      var e := Take();
      w := After(w, SetState(w, sid, Cancelled), e.o);
      if !e.o.Succeeds? {
        assert CreateRun(old(w), tid, RollbackState(sid), old(script)) == CreateRun(w, tid, CreateEnd(PublishFailed), script);
        return Answer(PublishFailed);
      }
      assert CreateRun(old(w), tid, RollbackState(sid), old(script)) == CreateRun(w, tid, RollbackAbort(sid), script);
      if script == [] {
        return CutHere;
      }
      e := Take();
      w := After(w, AbortMultipart(w, sid), e.o);
      assert CreateRun(old(w), tid, RollbackState(sid), old(script)) == CreateRun(w, tid, CreateEnd(PublishFailed), script);
      return Answer(PublishFailed);
    }
  }
}
