// services/upload/server.go: handleComplete and assemble in the handler's own
// imperative form, proved to be exactly the attempt that UploadRestart reasons
// about. Calls take their outcome from a script; when the script runs out the
// handler is cut where it stands.
module UploadServer {
  import opened Basics
  import opened Tiling
  import opened ObjectStorage
  import opened UploadWorld
  import opened UploadHandlers
  import opened UploadRestart
  import BlobStores

  /** How a piece of the handler ended: cut, answered, or ready to go on. */
  datatype Flow = CutHere | Answer(response: Response) | GoOn

  /** How many missing chunks a 409 names at most. */
  const MISSING_LIMIT := 100

  /** A row that can be joined: recorded DONE, with an ETag. */
  predicate Joinable(c: Chunk)
  {
    c.state.Done? && c.etag.Some?
  }

  /** The first chunks that cannot be joined, in order, and at most a hundred of them. */
  predicate FirstMissing(chunks: seq<Chunk>, missing: seq<int>)
  {
    && |missing| <= 100
    && (forall k :: 0 <= k < |missing| ==> 0 <= missing[k] < |chunks| && !Joinable(chunks[missing[k]]))
    && (forall j, k :: 0 <= j < k < |missing| ==> missing[j] < missing[k])
    && (forall i :: 0 <= i < |chunks| && !Joinable(chunks[i]) && i !in missing ==>
          |missing| == 100 && missing[99] < i)
  }

  lemma OneMoreRow(front: seq<Chunk>, c: Chunk, missing: seq<int>)
    requires FirstMissing(front, missing)
    ensures FirstMissing(front + [c], if !Joinable(c) && |missing| < 100 then missing + [|front|] else missing)
  {
    hide Joinable;
    if !Joinable(c) && |missing| < 100 {
      forall i | 0 <= i <= |front| && !Joinable((front + [c])[i]) ensures i in missing + [|front|] {
        assert i in missing || i == |front|;
      }
    }
  }

  lemma OneMorePart(front: seq<Chunk>, c: Chunk)
    ensures AllDone(front + [c]) <==> AllDone(front) && Joinable(c)
    ensures AllDone(front + [c]) ==> PartList(front + [c]) == PartList(front) + [Part(|front| + 1, c.etag.value)]
  {
    assert (front + [c])[|front|] == c;
    assert forall i :: 0 <= i < |front| ==> (front + [c])[i] == front[i];
  }

  /** An asset key names the hash of what it holds: all the declared bytes. */
  predicate HoldsAsset(w: World, ws: string, sha: Digest, size: int)
  {
    && Asset(ws, sha) in w.s3.objects
    && Sha256(w.s3.objects[Asset(ws, sha)]) == sha && |w.s3.objects[Asset(ws, sha)]| == size
  }

  /**
   * What a 200 promises: of the session rows only this one changed, to COMPLETED under a hash and a key; its landed and
   * its metering event are published with what the row says. A session found ASSEMBLED keeps its hash and key; one
   * found ACTIVE has its bytes under the key of their hash.
   */
  predicate LandedAs(was: World, w: World, sid: Sid)
  {
    && sid in was.sessions && sid in w.sessions
    && var s, row := was.sessions[sid], w.sessions[sid];
    && row.sha.Some? && row.key.Some?
    && w.sessions == was.sessions[sid := s.(state := Completed, sha := row.sha, key := row.key)]
    && Landed(sid, s.ws, s.user, row.key.value, row.sha.value, s.size) in w.landed
    && Metered(sid, UploadCompleted, s.ws, s.user, s.size) in w.metered
    && match s.state
       case Active => row.key == Some(Asset(s.ws, row.sha.value)) && HoldsAsset(w, s.ws, row.sha.value, s.size)
       case _ => row.sha == s.sha && row.key == s.key
  }

  /** The session has as many rows as chunks, each DONE with its ETag. */
  predicate EveryRowIsDone(w: World, sid: Sid)
    requires sid in w.sessions
  {
    && sid in w.chunks && |w.chunks[sid]| == w.sessions[sid].count
    && forall n :: 0 <= n < |w.chunks[sid]| ==> w.chunks[sid][n].state == Done && w.chunks[sid][n].etag != None
  }

  /** The answers of the checks before any call that changes something. */
  predicate ChecksAnswer(r: Response)
  {
    r in {NotFound, SessionCancelled, AlreadyCompleted, UploadIncomplete}
  }

  /** Past its checks, an attempt is never answered as if they had failed. */
  lemma {:induction false} PastTheChecks(w: World, pc: CompletePc, script: seq<Env>)
    requires !pc.CompleteStart? && !pc.LoadChunks? && !(pc.CompleteEnd? && ChecksAnswer(pc.response))
    ensures var end := Attempt(w, pc, script).1; !(end.CompleteEnd? && ChecksAnswer(end.response))
    decreases |script|
  {
    if !pc.CompleteEnd? && script != [] {
      hide After, CompleteMultipart, CompletionAccepted, SetAssembled, SetState, StoreAsset, RemoveStaging;
      var r := CompleteStep(w, pc, script[0]);
      PastTheChecks(r.0, r.1, script[1..]);
    }
  }

  /**
   * Once the lookup has answered, a complete finds nothing exactly when the session is absent or of another workspace;
   * a session of the workspace that is CANCELLED or COMPLETED is refused as such. Nothing changed in either case.
   */
  lemma CompleteIsRefusedIff(w: World, sid: Sid, ws: string, script: seq<Env>)
    requires script != [] && script[0].o.Succeeds?
    ensures var end := Attempt(w, CompleteStart(sid, ws), script);
      && (sid !in w.sessions || w.sessions[sid].ws != ws ==> end == (w, CompleteEnd(NotFound)))
      && (end.1 == CompleteEnd(NotFound) ==> sid !in w.sessions || w.sessions[sid].ws != ws)
      && (sid in w.sessions && w.sessions[sid].ws == ws ==>
            && (w.sessions[sid].state == Cancelled <==> end.1 == CompleteEnd(SessionCancelled))
            && (w.sessions[sid].state == Completed <==> end.1 == CompleteEnd(AlreadyCompleted)))
      && (end.1 in {CompleteEnd(SessionCancelled), CompleteEnd(AlreadyCompleted)} ==> end.0 == w)
  {
    var pc := CompleteStep(w, CompleteStart(sid, ws), script[0]).1;
    if pc.LoadChunks? && |script| > 1 {
      var next := CompleteStep(w, pc, script[1]).1;
      assert Attempt(w, CompleteStart(sid, ws), script) == Attempt(w, next, script[1..][1..]);
      if !next.CompleteEnd? {
        PastTheChecks(w, next, script[1..][1..]);
      }
    }
  }

  /** What has been copied is always a beginning of the staging object. */
  lemma CopyMoreIsPrefix(w: World, sid: Sid, sess: Session, copied: Bytes)
    requires copied != [] ==> Staging(sid) in w.s3.objects && copied <= w.s3.objects[Staging(sid)]
    ensures var more := CopyMore(w, sid, sess, copied);
      more.Some? ==>
        && Staging(sid) in w.s3.objects && more.value <= w.s3.objects[Staging(sid)]
        && (sess.size <= BlobStores.SINGLE_COPY_LIMIT ==> more.value == w.s3.objects[Staging(sid)])
  {
  }

  /** The row records the hash and the key made from it, and so does the session in hand. */
  predicate RecordedAs(was: map<Sid, Session>, rows: map<Sid, Session>, sid: Sid, s: Session, sess: Session, sha: Digest)
  {
    && sess == s.(state := Assembled, sha := Some(sha), key := Some(Asset(s.ws, sha)))
    && (if sid in was then rows == was[sid := was[sid].(state := Assembled, sha := sess.sha, key := sess.key)]
        else rows == was)
  }

  /** An assembled session: recorded, and its bytes stand under the key of their hash. */
  predicate AssembledAs(was: map<Sid, Session>, w: World, sid: Sid, s: Session, sess: Session)
  {
    && sess.sha.Some? && RecordedAs(was, w.sessions, sid, s, sess, sess.sha.value)
    && HoldsAsset(w, s.ws, sess.sha.value, s.size)
  }

  /** Both events published for the session in hand, and its row COMPLETED. */
  predicate FinalizedAs(was: World, w: World, sid: Sid, sess: Session)
    requires sid in was.sessions
  {
    && w.sessions == was.sessions[sid := was.sessions[sid].(state := Completed)] && w.s3 == was.s3
    && sess.sha.Some? && sess.key.Some?
    && Landed(sid, sess.ws, sess.user, sess.key.value, sess.sha.value, sess.size) in w.landed
    && Metered(sid, UploadCompleted, sess.ws, sess.user, sess.size) in w.metered
  }

  /** Assembled now or found so, then finalised: landed. */
  lemma LandsAs(was: World, mid: World, w: World, sid: Sid, sess: Session)
    requires sid in was.sessions && sid in mid.sessions
    requires if was.sessions[sid].state.Active? then AssembledAs(was.sessions, mid, sid, was.sessions[sid], sess)
             else mid == was && sess == was.sessions[sid]
    requires FinalizedAs(mid, w, sid, sess)
    ensures LandedAs(was, w, sid)
  {
  }

  lemma NoRowMissing(w: World, sid: Sid, count: int, missing: seq<int>, parts: seq<Part>)
    requires sid in w.sessions && w.sessions[sid].count == count
    requires sid in w.chunks ==> (missing == [] <==> AllDone(w.chunks[sid]))
    requires sid in w.chunks && missing == [] ==> |parts| == |w.chunks[sid]|
    ensures sid !in w.chunks || missing != [] || |parts| != count <==> !EveryRowIsDone(w, sid)
  {
  }

  lemma CutAttempt()
    ensures forall w, pc :: Attempt(w, pc, []) == (w, pc)
  {
  }

  /** One attempt to publish the landed event. */
  lemma LandedTry(w: World, sid: Sid, sess: Session, attempt: nat, script: seq<Env>)
    requires script != []
    ensures var end := Attempt(w, EmitLanded(sid, sess, attempt), script);
      if sess.sha.None? || sess.key.None? then end == (w, CompleteEnd(PublishFailed))
      else
        var t := After(w, PublishLanded(w, LandedEvent(sid, sess)), script[0].o);
        end == if script[0].o.Succeeds? then Attempt(t, EmitMetering(sid, sess, 0), script[1..])
               else if PublishAgain(script[0], attempt) then Attempt(t, EmitLanded(sid, sess, attempt + 1), script[1..])
               else (t, CompleteEnd(PublishFailed))
  {
  }

  /** One attempt to publish the metering event. */
  lemma MeteringTry(w: World, sid: Sid, sess: Session, attempt: nat, script: seq<Env>)
    requires script != []
    ensures var end := Attempt(w, EmitMetering(sid, sess, attempt), script);
      var t := After(w, PublishMetered(w, Metered(sid, UploadCompleted, sess.ws, sess.user, sess.size)), script[0].o);
      end == if script[0].o.Succeeds? then Attempt(t, PersistCompleted(sid, sess), script[1..])
             else if PublishAgain(script[0], attempt) then Attempt(t, EmitMetering(sid, sess, attempt + 1), script[1..])
             else (t, CompleteEnd(PublishFailed))
  {
  }

  /** At most three attempts, each but the last a failed one whose client is still there. */
  predicate TriesAgain(script: seq<Env>, used: int)
  {
    0 <= used <= 3 && used <= |script| && forall k :: 0 <= k < used - 1 ==> !script[k].o.Succeeds? && !script[k].clientGone
  }

  /** A publish gives up after three failed attempts, or after a failed one whose client has gone. */
  predicate GaveUp(script: seq<Env>, used: int)
  {
    && 0 < used <= |script| && (forall k :: 0 <= k < used ==> !script[k].o.Succeeds?)
    && (used == 3 || script[used - 1].clientGone)
  }

  class Server {
    var w: World
    var script: seq<Env>

    constructor (w: World, script: seq<Env>)
      ensures this.w == w && this.script == script
    {
      this.w, this.script := w, script;
    }

    method Take() returns (e: Env)
      requires script != []
      modifies this`script
      ensures e == old(script)[0] && script == old(script)[1..]
    {
      e := script[0];
      script := script[1..];
    }

    /** handleComplete: exactly one attempt, call by call; a 409 for missing chunks names the first of them. */
    method HandleComplete(sid: Sid, ws: string) returns (flow: Flow, missing: seq<int>)
      modifies this
      ensures flow != GoOn
      ensures w == Attempt(old(w), CompleteStart(sid, ws), old(script)).0
      ensures flow.Answer? ==> Attempt(old(w), CompleteStart(sid, ws), old(script)).1 == CompleteEnd(flow.response)
      ensures flow.CutHere? ==> !Attempt(old(w), CompleteStart(sid, ws), old(script)).1.CompleteEnd?
      ensures old(script) != [] && !old(script)[0].o.Succeeds? ==> flow == Answer(StoreError) && w == old(w)
      ensures old(script) != [] && old(script)[0].o.Succeeds? ==>
        (flow == Answer(NotFound) <==> sid !in old(w).sessions || old(w).sessions[sid].ws != ws)
      ensures old(script) != [] && old(script)[0].o.Succeeds? && sid in old(w).sessions && old(w).sessions[sid].ws == ws ==>
        && (flow == Answer(SessionCancelled) <==> old(w).sessions[sid].state == Cancelled)
        && (flow == Answer(AlreadyCompleted) <==> old(w).sessions[sid].state == Completed)
        && (flow == Answer(UploadIncomplete) <==>
              && old(w).sessions[sid].state in {Active, Assembled} && |old(script)| > 1 && old(script)[1].o.Succeeds?
              && !EveryRowIsDone(old(w), sid))
      ensures flow.Answer? && ChecksAnswer(flow.response) ==> w == old(w)
      ensures flow == Answer(Landed200) ==> LandedAs(old(w), w, sid)
      ensures flow == Answer(UploadIncomplete) ==>
        FirstMissing(if sid in old(w).chunks then old(w).chunks[sid] else [], missing)
    {
      missing := [];
      if script == [] {
        return CutHere, missing;
      }
      var e := Take();
      if !e.o.Succeeds? {
        return Answer(StoreError), missing;
      }
      if !Owned(w, sid, ws) {
        return Answer(NotFound), missing;
      }
      var sess := w.sessions[sid];
      if sess.state.Cancelled? {
        return Answer(SessionCancelled), missing;
      }
      if sess.state.Completed? {
        return Answer(AlreadyCompleted), missing;
      }
      assert Attempt(old(w), CompleteStart(sid, ws), old(script)) == Attempt(w, LoadChunks(sid, sess), script);
      flow, missing := CompleteLoaded(sid, sess);
    }

    /** The chunk rows are loaded and checked; an ACTIVE session is assembled; then the events and the final state. */
    method CompleteLoaded(sid: Sid, sess0: Session) returns (flow: Flow, missing: seq<int>)
      requires sid in w.sessions && sess0 == w.sessions[sid] && sess0.state in {Active, Assembled}
      modifies this
      ensures w == Attempt(old(w), LoadChunks(sid, sess0), old(script)).0
      ensures flow.Answer? ==> Attempt(old(w), LoadChunks(sid, sess0), old(script)).1 == CompleteEnd(flow.response)
      ensures flow.CutHere? ==> !Attempt(old(w), LoadChunks(sid, sess0), old(script)).1.CompleteEnd?
      ensures flow == CutHere || (flow.Answer? && flow.response !in {NotFound, SessionCancelled, AlreadyCompleted})
      ensures flow == Answer(UploadIncomplete) ==> w == old(w)
      ensures flow == Answer(UploadIncomplete) <==>
        old(script) != [] && old(script)[0].o.Succeeds? && !EveryRowIsDone(old(w), sid)
      ensures flow == Answer(UploadIncomplete) ==>
        FirstMissing(if sid in old(w).chunks then old(w).chunks[sid] else [], missing)
      ensures flow == Answer(Landed200) ==> LandedAs(old(w), w, sid)
    {
      hide FirstMissing, Joinable, PartList, LandedAs, AssembledAs, FinalizedAs, EveryRowIsDone, Attempt;
      ghost var start := LoadChunks(sid, sess0);
      var sess, parts := sess0, [];
      flow, missing, parts := CheckRows(sid, sess);
      if flow != GoOn {
        return;
      }
      if sess.state.Active? {
        flow, sess := Assemble(sid, sess, parts);
        if flow != GoOn {
          return;
        }
      }
      assert Attempt(old(w), start, old(script)) == Attempt(w, EmitLanded(sid, sess, 0), script);
      ghost var mid := w;
      flow := Finalize(sid, sess);
      if flow == Answer(Landed200) {
        LandsAs(old(w), mid, w, sid, sess);
      }
    }

    /** The chunk map must be complete: one row per chunk, each DONE with its ETag. */
    method CheckRows(sid: Sid, sess: Session) returns (flow: Flow, missing: seq<int>, parts: seq<Part>)
      requires sid in w.sessions && sess == w.sessions[sid]
      modifies this`script
      ensures flow == CutHere || flow == GoOn || flow in {Answer(StoreError), Answer(UploadIncomplete)}
      ensures flow == GoOn ==>
        var next := if sess.state.Active? then FinishMultipart(sid, sess, parts) else EmitLanded(sid, sess, 0);
        Attempt(w, LoadChunks(sid, sess), old(script)) == Attempt(w, next, script)
      ensures flow.Answer? ==> Attempt(w, LoadChunks(sid, sess), old(script)) == (w, CompleteEnd(flow.response))
      ensures flow == CutHere ==> Attempt(w, LoadChunks(sid, sess), old(script)) == (w, LoadChunks(sid, sess))
      ensures flow == Answer(UploadIncomplete) <==>
        old(script) != [] && old(script)[0].o.Succeeds? && !EveryRowIsDone(w, sid)
      ensures flow == Answer(UploadIncomplete) ==> FirstMissing(if sid in w.chunks then w.chunks[sid] else [], missing)
    {
      hide FirstMissing, Joinable, PartList, EveryRowIsDone, AssembleStep, LandedEvent, After;
      missing, parts := [], [];
      if script == [] {
        return CutHere, missing, parts;
      }
      var e := Take();
      if !e.o.Succeeds? {
        return Answer(StoreError), missing, parts;
      }
      missing, parts := CollectParts(if sid in w.chunks then w.chunks[sid] else []);
      NoRowMissing(w, sid, sess.count, missing, parts);
      if sid !in w.chunks || missing != [] || |parts| != sess.count {
        return Answer(UploadIncomplete), missing, parts;
      }
      flow := GoOn;
    }

    /** The loop over the chunk rows: the first missing ones, and the parts to be joined. */
    method CollectParts(chunks: seq<Chunk>) returns (missing: seq<int>, parts: seq<Part>)
      ensures FirstMissing(chunks, missing)
      ensures missing == [] <==> AllDone(chunks)
      ensures missing == [] ==> parts == PartList(chunks)
    {
      missing, parts := [], [];
      assert chunks[..0] == [] && FirstMissing([], []) && AllDone([]) && PartList([]) == [];
      hide FirstMissing, AllDone, PartList;
      for i := 0 to |chunks|
        invariant FirstMissing(chunks[..i], missing)
        invariant missing == [] <==> AllDone(chunks[..i])
        invariant missing == [] ==> parts == PartList(chunks[..i])
      {
        assert chunks[..i + 1] == chunks[..i] + [chunks[i]];
        OneMoreRow(chunks[..i], chunks[i], missing);
        OneMorePart(chunks[..i], chunks[i]);
        if !Joinable(chunks[i]) {
          if |missing| < MISSING_LIMIT {
            missing := missing + [i];
          }
        } else {
          parts := parts + [Part(i + 1, chunks[i].etag.value)];
        }
      }
      assert chunks[..|chunks|] == chunks;
    }

    method Assemble(sid: Sid, sess0: Session, parts: seq<Part>) returns (flow: Flow, sess: Session)
      modifies this
      ensures w.sessions.Keys == old(w.sessions.Keys)
      ensures flow.Answer? ==> flow.response in {AssemblyFailed, PersistAssembledFailed}
      ensures flow == GoOn ==> AssembledAs(old(w.sessions), w, sid, sess0, sess)
      ensures flow == GoOn ==>
        Attempt(old(w), FinishMultipart(sid, sess0, parts), old(script)) == Attempt(w, EmitLanded(sid, sess, 0), script)
      ensures flow != GoOn ==> w == Attempt(old(w), FinishMultipart(sid, sess0, parts), old(script)).0
      ensures flow.Answer? ==>
        Attempt(old(w), FinishMultipart(sid, sess0, parts), old(script)).1 == CompleteEnd(flow.response)
      ensures flow.CutHere? ==> !Attempt(old(w), FinishMultipart(sid, sess0, parts), old(script)).1.CompleteEnd?
    {
      hide AssembledAs, HoldsAsset, RecordedAs;
      sess := sess0;
      flow := JoinParts(sid, sess, parts);
      if flow != GoOn {
        return;
      }
      assert Attempt(old(w), FinishMultipart(sid, sess0, parts), old(script)) == Attempt(w, HashStaging(sid, sess), script);
      if script == [] {
        return CutHere, sess;
      }
      var e := Take();
      if !(e.o.Succeeds? && Staging(sid) in w.s3.objects && |w.s3.objects[Staging(sid)]| == sess.size) {
        return Answer(AssemblyFailed), sess;
      }
      var sha := Sha256(w.s3.objects[Staging(sid)]);
      assert Attempt(old(w), FinishMultipart(sid, sess0, parts), old(script))
          == Attempt(w, CopyToAsset(sid, sess, sha, []), script);
      flow, sess := CopyAndRecord(sid, sess, sha);
    }

    /** Copy the staging object to the key of its hash, remove it, record the hash. */
    method CopyAndRecord(sid: Sid, sess0: Session, sha: Digest) returns (flow: Flow, sess: Session)
      requires Staging(sid) in w.s3.objects && |w.s3.objects[Staging(sid)]| == sess0.size
      requires sha == Sha256(w.s3.objects[Staging(sid)])
      modifies this
      ensures w.sessions.Keys == old(w.sessions.Keys)
      ensures flow.Answer? ==> flow.response in {AssemblyFailed, PersistAssembledFailed}
      ensures flow == GoOn ==> AssembledAs(old(w.sessions), w, sid, sess0, sess)
      ensures flow == GoOn ==>
        Attempt(old(w), CopyToAsset(sid, sess0, sha, []), old(script)) == Attempt(w, EmitLanded(sid, sess, 0), script)
      ensures flow != GoOn ==> w == Attempt(old(w), CopyToAsset(sid, sess0, sha, []), old(script)).0
      ensures flow.Answer? ==>
        Attempt(old(w), CopyToAsset(sid, sess0, sha, []), old(script)).1 == CompleteEnd(flow.response)
      ensures flow.CutHere? ==> !Attempt(old(w), CopyToAsset(sid, sess0, sha, []), old(script)).1.CompleteEnd?
    {
      sess := sess0;
      flow := CopyStaging(sid, sess, sha);
      if flow != GoOn {
        return;
      }
      ghost var key := Asset(sess0.ws, sha);
      assert (w.s3.objects - {Staging(sid)})[key] == old(w).s3.objects[Staging(sid)];
      flow, sess := RecordHash(sid, sess, sha);
      assert flow == GoOn ==> w.s3.objects - {Staging(sid)} == old(w.s3.objects)[key := sha.content] - {Staging(sid)};
      assert flow == GoOn ==> key in w.s3.objects - {Staging(sid)};
    }

    /** Remove the staging object, then record the hash. */
    method RecordHash(sid: Sid, sess0: Session, sha: Digest) returns (flow: Flow, sess: Session)
      modifies this
      ensures w.sessions.Keys == old(w.sessions.Keys)
      ensures flow == if |old(script)| < 2 then CutHere
                      else if old(script)[1].o.Succeeds? then GoOn else Answer(PersistAssembledFailed)
      ensures flow == GoOn ==> RecordedAs(old(w.sessions), w.sessions, sid, sess0, sess, sha)
      ensures flow == GoOn ==> old(w).s3.objects - {Staging(sid)} == w.s3.objects - {Staging(sid)}
      ensures flow == GoOn ==>
        Attempt(old(w), DeleteStaging(sid, sess0, sha), old(script)) == Attempt(w, EmitLanded(sid, sess, 0), script)
      ensures flow != GoOn ==> w == Attempt(old(w), DeleteStaging(sid, sess0, sha), old(script)).0
      ensures flow.Answer? ==>
        Attempt(old(w), DeleteStaging(sid, sess0, sha), old(script)).1 == CompleteEnd(flow.response)
      ensures flow.CutHere? ==> !Attempt(old(w), DeleteStaging(sid, sess0, sha), old(script)).1.CompleteEnd?
    {
      sess := sess0;
      if script == [] {
        return CutHere, sess;
      }
      var e := Take();
      w := After(w, RemoveStaging(w, sid), e.o);
      assert Attempt(old(w), DeleteStaging(sid, sess0, sha), old(script)) == Attempt(w, PersistAssembled(sid, sess, sha), script);
      if script == [] {
        return CutHere, sess;
      }
      e := Take();
      w := After(w, SetAssembled(w, sid, sha, Asset(sess.ws, sha)), e.o);
      if !e.o.Succeeds? {
        assert Attempt(old(w), DeleteStaging(sid, sess0, sha), old(script))
            == Attempt(w, CompleteEnd(PersistAssembledFailed), script);
        return Answer(PersistAssembledFailed), sess;
      }
      sess := sess.(state := Assembled, sha := Some(sha), key := Some(Asset(sess.ws, sha)));
      flow := GoOn;
    }

    /** CompleteMultipart, or the crash-tolerance check that an earlier attempt already did it. */
    method JoinParts(sid: Sid, sess: Session, parts: seq<Part>) returns (flow: Flow)
      modifies this
      ensures w == old(w).(s3 := w.s3, assembled := w.assembled)
      ensures flow == CutHere || flow == GoOn || flow == Answer(AssemblyFailed)
      ensures old(script) != [] && old(script)[0].o.Succeeds? && CompletionAccepted(old(w), sid, parts) ==>
        flow == GoOn && script == old(script)[1..]
      ensures flow == GoOn ==> old(script) != []
      ensures flow == GoOn && !(old(script)[0].o.Succeeds? && CompletionAccepted(old(w), sid, parts)) ==>
        && |old(script)| > 1 && old(script)[1].o.Succeeds? && Staging(sid) in w.s3.objects
        && |w.s3.objects[Staging(sid)]| == sess.size
      ensures flow == GoOn ==>
        Attempt(old(w), FinishMultipart(sid, sess, parts), old(script)) == Attempt(w, HashStaging(sid, sess), script)
      ensures flow != GoOn ==> w == Attempt(old(w), FinishMultipart(sid, sess, parts), old(script)).0
      ensures flow.Answer? ==>
        Attempt(old(w), FinishMultipart(sid, sess, parts), old(script)).1 == CompleteEnd(flow.response)
      ensures flow.CutHere? ==> !Attempt(old(w), FinishMultipart(sid, sess, parts), old(script)).1.CompleteEnd?
    {
      if script == [] {
        return CutHere;
      }
      var e := Take();
      var accepted := CompletionAccepted(w, sid, parts);
      w := After(w, CompleteMultipart(w, sid, parts), e.o);
      if e.o.Succeeds? && accepted {
        return GoOn;
      }
      assert Attempt(old(w), FinishMultipart(sid, sess, parts), old(script)) == Attempt(w, HeadStaging(sid, sess), script);
      if script == [] {
        return CutHere;
      }
      e := Take();
      if e.o.Succeeds? && Staging(sid) in w.s3.objects && |w.s3.objects[Staging(sid)]| == sess.size {
        return GoOn;
      }
      assert Attempt(old(w), FinishMultipart(sid, sess, parts), old(script)) == Attempt(w, CompleteEnd(AssemblyFailed), script);
      return Answer(AssemblyFailed);
    }

    /** The server-side copy: one call, or a loop of range copies. */
    method CopyStaging(sid: Sid, sess: Session, sha: Digest) returns (flow: Flow)
      modifies this
      ensures w == old(w).(s3 := w.s3)
      ensures flow == CutHere || flow == GoOn || flow == Answer(AssemblyFailed)
      ensures flow == GoOn ==> Staging(sid) in old(w).s3.objects
      ensures flow == GoOn && |old(w).s3.objects[Staging(sid)]| == sess.size ==>
        w.s3.objects == old(w).s3.objects[Asset(sess.ws, sha) := old(w).s3.objects[Staging(sid)]]
      ensures flow == GoOn ==>
        Attempt(old(w), CopyToAsset(sid, sess, sha, []), old(script)) == Attempt(w, DeleteStaging(sid, sess, sha), script)
      ensures flow != GoOn ==> w == Attempt(old(w), CopyToAsset(sid, sess, sha, []), old(script)).0
      ensures flow.Answer? ==>
        Attempt(old(w), CopyToAsset(sid, sess, sha, []), old(script)).1 == CompleteEnd(flow.response)
      ensures flow.CutHere? ==> !Attempt(old(w), CopyToAsset(sid, sess, sha, []), old(script)).1.CompleteEnd?
    {
      var copied: Bytes := [];
      while true
        invariant Attempt(old(w), CopyToAsset(sid, sess, sha, []), old(script))
               == Attempt(w, CopyToAsset(sid, sess, sha, copied), script)
        invariant w == old(w)
        invariant copied != [] ==> Staging(sid) in w.s3.objects && copied <= w.s3.objects[Staging(sid)]
        decreases |script|
      {
        if script == [] {
          return CutHere;
        }
        var e := Take();
        var more := CopyMore(w, sid, sess, copied);
        CopyMoreIsPrefix(w, sid, sess, copied);
        if more.None? {
          return Answer(AssemblyFailed);
        }
        if sess.size <= BlobStores.SINGLE_COPY_LIMIT || |more.value| >= sess.size {
          assert |w.s3.objects[Staging(sid)]| == sess.size ==> more.value == w.s3.objects[Staging(sid)];
          w := After(w, StoreAsset(w, sess.ws, sha, more.value), e.o);
          return if e.o.Succeeds? then GoOn else Answer(AssemblyFailed);
        }
        if !e.o.Succeeds? {
          return Answer(AssemblyFailed);
        }
        copied := more.value;
      }
    }

    /** Publish landed, publish metering, record COMPLETED: in that order, stopping at the first failure. */
    method Finalize(sid: Sid, sess: Session) returns (flow: Flow)
      modifies this
      ensures flow == CutHere || (flow.Answer? && flow.response in {Landed200, PublishFailed, StoreError})
      ensures flow == Answer(Landed200) && sid in old(w.sessions) ==> FinalizedAs(old(w), w, sid, sess)
      ensures w == Attempt(old(w), EmitLanded(sid, sess, 0), old(script)).0
      ensures flow.Answer? ==> Attempt(old(w), EmitLanded(sid, sess, 0), old(script)).1 == CompleteEnd(flow.response)
      ensures flow.CutHere? ==> !Attempt(old(w), EmitLanded(sid, sess, 0), old(script)).1.CompleteEnd?
    {
      hide AssembleStep, TriesAgain, GaveUp;
      flow := EmitLandedEvent(sid, sess);
      if flow != GoOn {
        return;
      }
      assert Attempt(old(w), EmitLanded(sid, sess, 0), old(script)) == Attempt(w, EmitMetering(sid, sess, 0), script);
      flow := EmitMeteringEvent(sid, sess);
      if flow != GoOn {
        return;
      }
      assert Attempt(old(w), EmitLanded(sid, sess, 0), old(script)) == Attempt(w, PersistCompleted(sid, sess), script);
      if script == [] {
        return CutHere;
      }
      var e := Take();
      w := After(w, SetState(w, sid, Completed), e.o);
      return Answer(if e.o.Succeeds? then Landed200 else StoreError);
    }

    /** publishJSON for the landed event: three attempts, fewer only when one succeeds or the client has gone. */
    method EmitLandedEvent(sid: Sid, sess: Session) returns (flow: Flow)
      modifies this
      ensures w == old(w).(landed := w.landed) && old(w.landed) <= w.landed
      ensures flow == GoOn ==>
        && sess.sha.Some? && sess.key.Some?
        && w.landed == old(w.landed) + {Landed(sid, sess.ws, sess.user, sess.key.value, sess.sha.value, sess.size)}
      ensures TriesAgain(old(script), |old(script)| - |script|)
      ensures flow == GoOn ==> |script| < |old(script)| && old(script)[|old(script)| - |script| - 1].o.Succeeds?
      ensures sess.sha.Some? && sess.key.Some? && flow == Answer(PublishFailed) ==>
        GaveUp(old(script), |old(script)| - |script|)
      ensures flow == CutHere || flow == GoOn || flow == Answer(PublishFailed)
      ensures flow == GoOn ==>
        Attempt(old(w), EmitLanded(sid, sess, 0), old(script)) == Attempt(w, EmitMetering(sid, sess, 0), script)
      ensures flow != GoOn ==> w == Attempt(old(w), EmitLanded(sid, sess, 0), old(script)).0
      ensures flow.Answer? ==> Attempt(old(w), EmitLanded(sid, sess, 0), old(script)).1 == CompleteEnd(flow.response)
      ensures flow.CutHere? ==> !Attempt(old(w), EmitLanded(sid, sess, 0), old(script)).1.CompleteEnd?
    {
      hide Attempt;
      CutAttempt();
      var attempt := 0;
      while attempt < PUBLISH_RETRIES
        invariant attempt < PUBLISH_RETRIES
        invariant Attempt(old(w), EmitLanded(sid, sess, 0), old(script)) == Attempt(w, EmitLanded(sid, sess, attempt), script)
        invariant w == old(w).(landed := w.landed)
        invariant w.landed == old(w.landed) ||
          (sess.sha.Some? && sess.key.Some? && w.landed == old(w.landed) + {LandedEvent(sid, sess)})
        invariant |old(script)| - |script| == attempt && script == old(script)[attempt..]
        invariant forall k :: 0 <= k < attempt ==> !old(script)[k].o.Succeeds? && !old(script)[k].clientGone
      {
        if script == [] {
          return CutHere;
        }
        LandedTry(w, sid, sess, attempt, script);
        var e := Take();
        if sess.sha.None? || sess.key.None? {
          return Answer(PublishFailed);
        }
        w := After(w, PublishLanded(w, LandedEvent(sid, sess)), e.o);
        if e.o.Succeeds? {
          return GoOn;
        }
        if !PublishAgain(e, attempt) {
          return Answer(PublishFailed);
        }
        attempt := attempt + 1;
      }
    }

    /** publishJSON for the upload_completed metering event. */
    method EmitMeteringEvent(sid: Sid, sess: Session) returns (flow: Flow)
      modifies this
      ensures w == old(w).(metered := w.metered) && old(w.metered) <= w.metered
      ensures flow == GoOn ==> w.metered == old(w.metered) + {Metered(sid, UploadCompleted, sess.ws, sess.user, sess.size)}
      ensures TriesAgain(old(script), |old(script)| - |script|)
      ensures flow == GoOn ==> |script| < |old(script)| && old(script)[|old(script)| - |script| - 1].o.Succeeds?
      ensures flow == Answer(PublishFailed) ==> GaveUp(old(script), |old(script)| - |script|)
      ensures flow == CutHere || flow == GoOn || flow == Answer(PublishFailed)
      ensures flow == GoOn ==>
        Attempt(old(w), EmitMetering(sid, sess, 0), old(script)) == Attempt(w, PersistCompleted(sid, sess), script)
      ensures flow != GoOn ==> w == Attempt(old(w), EmitMetering(sid, sess, 0), old(script)).0
      ensures flow.Answer? ==> Attempt(old(w), EmitMetering(sid, sess, 0), old(script)).1 == CompleteEnd(flow.response)
      ensures flow.CutHere? ==> !Attempt(old(w), EmitMetering(sid, sess, 0), old(script)).1.CompleteEnd?
    {
      hide Attempt;
      CutAttempt();
      var event := Metered(sid, UploadCompleted, sess.ws, sess.user, sess.size);
      var attempt := 0;
      while attempt < PUBLISH_RETRIES
        invariant attempt < PUBLISH_RETRIES
        invariant Attempt(old(w), EmitMetering(sid, sess, 0), old(script)) == Attempt(w, EmitMetering(sid, sess, attempt), script)
        invariant w == old(w).(metered := w.metered)
        invariant w.metered == old(w.metered) || w.metered == old(w.metered) + {event}
        invariant |old(script)| - |script| == attempt && script == old(script)[attempt..]
        invariant forall k :: 0 <= k < attempt ==> !old(script)[k].o.Succeeds? && !old(script)[k].clientGone
      {
        if script == [] {
          return CutHere;
        }
        MeteringTry(w, sid, sess, attempt, script);
        var e := Take();
        w := After(w, PublishMetered(w, event), e.o);
        if e.o.Succeeds? {
          return GoOn;
        }
        if !PublishAgain(e, attempt) {
          return Answer(PublishFailed);
        }
        attempt := attempt + 1;
      }
    }
  }
}
