// services/upload/server.go as a step machine. A request handler is a program
// counter; one step performs exactly one external call and ends as the
// environment decides. A handler may be cut between any two steps.
module UploadHandlers {
  import opened Basics
  import opened Tiling
  import opened ObjectStorage
  import opened UploadWorld
  import BlobStores

  const PUBLISH_RETRIES: nat := 3

  /** What the environment contributes to one step. */
  datatype Env = Env(o: Outcome, body: Bytes, clientGone: bool)

  datatype Response =
    | Created | InvalidBody | QuotaError | QuotaDenied | StorageError | StoreError | PublishFailed
    | NotFound | InvalidChunkIndex | NotActive | LengthRequired | ChunkSizeMismatch | InvalidChecksumHeader
    | AlreadyDone | BodyTruncated | ChecksumMismatch | ChunkStored
    | SessionCancelled | AlreadyCompleted | UploadIncomplete | AssemblyFailed | PersistAssembledFailed
    | Landed200 | CannotCancelCompleted | NoContent

  // ---- what create accepts ----

  /** The decoded request; a body that is not exactly one such object is None. */
  datatype CreateBody = CreateBody(filename: string, size: int, mime: string)

  predicate ValidName(name: string)
  {
    1 <= |name| <= 512 && forall c :: c in name ==> c != '/' && c as int >= 0x20
  }

  predicate MimeChar(c: char)
  {
    'A' <= c <= 'Z' || 'a' <= c <= 'z' || '0' <= c <= '9' || c in "!#$&^_.+-"
  }

  predicate MimeToken(t: string)
  {
    1 <= |t| <= 127 && forall c :: c in t ==> MimeChar(c)
  }

  /** type/subtype, which mimePattern spells out. */
  predicate ValidMime(mime: string)
  {
    exists i :: 0 <= i < |mime| && mime[i] == '/' && MimeToken(mime[..i]) && MimeToken(mime[i + 1..])
  }

  /** validateCreate. */
  predicate ValidCreate(body: CreateBody, maxObjectBytes: int)
  {
    ValidName(body.filename) && 0 < body.size <= maxObjectBytes && ValidMime(body.mime)
  }

  /** The same characters by their ASCII codes. */
  predicate MimeCode(n: int)
  {
    48 <= n <= 57 || 65 <= n <= 90 || 97 <= n <= 122 || n in {33, 35, 36, 38, 43, 45, 46, 94, 95}
  }

  /** One side of mimePattern. */
  predicate TokenOfCodes(t: string)
  {
    t != "" && |t| <= 127 && forall k :: 0 <= k < |t| ==> MimeCode(t[k] as int)
  }

  lemma TokensAgree(t: string)
    ensures MimeToken(t) <==> TokenOfCodes(t)
  {
    forall c: char ensures MimeChar(c) <==> MimeCode(c as int) {
      var others := "!#$&^_.+-";
      assert forall k :: 0 <= k < |others| ==> others[k] as int in {33, 35, 36, 38, 43, 45, 46, 94, 95};
      assert others == ['!', '#', '$', '&', '^', '_', '.', '+', '-'];
      if c as int in {33, 35, 36, 38, 43, 45, 46, 94, 95} {
        assert c in ['!', '#', '$', '&', '^', '_', '.', '+', '-'];
      }
    }
    hide MimeChar, MimeCode;
    if TokenOfCodes(t) {
      forall c | c in t ensures MimeChar(c) {
        var k :| 0 <= k < |t| && t[k] == c;
        assert MimeCode(t[k] as int);
      }
    }
    if MimeToken(t) {
      forall k | 0 <= k < |t| ensures MimeCode(t[k] as int) {
        assert t[k] in t;
      }
    }
  }

  /** validateCreate accepts exactly these requests; the MIME type is a type and a subtype joined by a slash. */
  lemma ValidCreateIff(body: CreateBody, maxObjectBytes: int)
    ensures ValidCreate(body, maxObjectBytes) <==>
      && body.filename != "" && |body.filename| <= 512 && '/' !in body.filename
      && (forall k :: 0 <= k < |body.filename| ==> body.filename[k] as int >= 32)
      && 1 <= body.size <= maxObjectBytes
      && exists t: string, s: string :: body.mime == t + "/" + s && TokenOfCodes(t) && TokenOfCodes(s)
  {
    ValidNameIff(body.filename);
    ValidMimeIff(body.mime);
    hide ValidName, ValidMime, TokenOfCodes;
  }

  lemma ValidNameIff(name: string)
    ensures ValidName(name) <==>
      && name != "" && |name| <= 512 && '/' !in name && forall k :: 0 <= k < |name| ==> name[k] as int >= 32
  {
    if forall k :: 0 <= k < |name| ==> name[k] as int >= 32 {
      forall c | c in name ensures c as int >= 0x20 {
        var k :| 0 <= k < |name| && name[k] == c;
        assert name[k] as int >= 32;
      }
    }
    assert forall k :: 0 <= k < |name| ==> name[k] in name;
  }

  lemma ValidMimeIff(mime: string)
    ensures ValidMime(mime) <==>
      exists t: string, s: string :: mime == t + "/" + s && TokenOfCodes(t) && TokenOfCodes(s)
  {
    hide MimeToken, TokenOfCodes;
    if ValidMime(mime) {
      var i :| 0 <= i < |mime| && mime[i] == '/' && MimeToken(mime[..i]) && MimeToken(mime[i + 1..]);
      assert mime == mime[..i] + "/" + mime[i + 1..];
      TokensAgree(mime[..i]);
      TokensAgree(mime[i + 1..]);
    }
    if t: string, s: string :| mime == t + "/" + s && TokenOfCodes(t) && TokenOfCodes(s) {
      assert mime[|t|] == '/' && mime[..|t|] == t && mime[|t| + 1..] == s;
      TokensAgree(t);
      TokensAgree(s);
    }
  }

  datatype CreatePc =
    | CreateStart(ws: string, user: string, body: Option<CreateBody>, allowed: bool)
    | OpenMultipart(sid: Sid, req: Session)
    | InsertSession(sid: Sid, req: Session)
    | AbortUnsaved(sid: Sid)
    | MeterCreated(sid: Sid, req: Session, attempt: nat)
    | RollbackState(sid: Sid)
    | RollbackAbort(sid: Sid)
    | CreateEnd(response: Response)

  datatype PutPc =
    | PutStart(sid: Sid, ws: string, n: int, contentLength: int, announced: Option<Digest>)
    | Claim(sid: Sid, sess: Session, n: int, want: Digest)
    | ReadBody(sid: Sid, sess: Session, n: int, want: Digest)
    | Reject(sid: Sid, n: int, why: Response)
    | StorePart(sid: Sid, n: int, body: Bytes)
    | RecordDone(sid: Sid, n: int, body: Bytes)
    | PutEnd(response: Response)

  datatype CompletePc =
    | CompleteStart(sid: Sid, ws: string)
    | LoadChunks(sid: Sid, sess: Session)
    | FinishMultipart(sid: Sid, sess: Session, parts: seq<Part>)
    | HeadStaging(sid: Sid, sess: Session)
    | HashStaging(sid: Sid, sess: Session)
    | CopyToAsset(sid: Sid, sess: Session, sha: Digest, copied: Bytes)
    | DeleteStaging(sid: Sid, sess: Session, sha: Digest)
    | PersistAssembled(sid: Sid, sess: Session, sha: Digest)
    | EmitLanded(sid: Sid, sess: Session, attempt: nat)
    | EmitMetering(sid: Sid, sess: Session, attempt: nat)
    | PersistCompleted(sid: Sid, sess: Session)
    | CompleteEnd(response: Response)

  datatype CancelPc =
    | CancelStart(sid: Sid, ws: string)
    | ReAbort(sid: Sid)
    | CancelAbort(sid: Sid)
    | CancelHead(sid: Sid)
    | CancelDelete(sid: Sid)
    | PersistCancelled(sid: Sid)
    | CancelEnd(response: Response)

  datatype Pc =
    | InCreate(create: CreatePc)
    | InPut(put: PutPc)
    | InComplete(complete: CompletePc)
    | InCancel(cancel: CancelPc)

  /** A loaded session: absent and foreign sessions both read as not found. */
  predicate Owned(w: World, sid: Sid, ws: string)
  {
    sid in w.sessions && w.sessions[sid].ws == ws
  }

  function NextSid(w: World): Sid
  {
    |w.owner|
  }

  /** Publish attempts are bounded, and stop early when the client has gone. */
  predicate PublishAgain(e: Env, attempt: nat)
  {
    attempt + 1 < PUBLISH_RETRIES && !e.clientGone
  }

  function CreateStep(w: World, tid: nat, pc: CreatePc, e: Env): (World, CreatePc)
  {
    match pc
    case CreateStart(ws, user, body, allowed) =>
      if body.None? || !ValidCreate(body.value, w.maxObjectBytes) || w.chunkSize <= 0 then (w, CreateEnd(InvalidBody))
      else if !e.o.Succeeds? then (w, CreateEnd(QuotaError))
      else if !allowed then (w, CreateEnd(QuotaDenied))
      else
        var sid, size := NextSid(w), body.value.size;
        (w.(owner := w.owner[sid := tid]),
         OpenMultipart(sid, Session(ws, user, size, w.chunkSize, ChunkCount(size, w.chunkSize), Active, None, None)))
    case OpenMultipart(sid, req) =>
      (After(w, BeginMultipart(w, sid), e.o),
       if e.o.Succeeds? then InsertSession(sid, req) else CreateEnd(StorageError))
    case InsertSession(sid, req) =>
      var ok := e.o.Succeeds? && Insertable(req);
      (After(w, CreateSession(w, sid, req), e.o),
       if ok then MeterCreated(sid, req, 0) else AbortUnsaved(sid))
    case AbortUnsaved(sid) =>
      (After(w, AbortMultipart(w, sid), e.o), CreateEnd(StoreError))
    case MeterCreated(sid, req, attempt) =>
      (After(w, PublishMetered(w, Metered(sid, UploadSessionCreated, req.ws, req.user, req.size)), e.o),
       if e.o.Succeeds? then CreateEnd(Created)
       else if PublishAgain(e, attempt) then MeterCreated(sid, req, attempt + 1)
       else RollbackState(sid))
    case RollbackState(sid) =>
      (After(w, SetState(w, sid, Cancelled), e.o),
       if e.o.Succeeds? then RollbackAbort(sid) else CreateEnd(PublishFailed))
    case RollbackAbort(sid) =>
      (After(w, AbortMultipart(w, sid), e.o), CreateEnd(PublishFailed))
    case CreateEnd(_) => (w, pc)
  }

  function PutStep(w: World, pc: PutPc, e: Env): (World, PutPc)
  {
    match pc
    case PutStart(sid, ws, n, contentLength, want) =>
      if !e.o.Succeeds? then (w, PutEnd(StoreError))
      else if !Owned(w, sid, ws) then (w, PutEnd(NotFound))
      else
        var sess := w.sessions[sid];
        if n < 0 || n >= sess.count then (w, PutEnd(InvalidChunkIndex))
        else if !sess.state.Active? then (w, PutEnd(NotActive))
        else if contentLength < 0 then (w, PutEnd(LengthRequired))
        else if contentLength != Expected(sess, n) then (w, PutEnd(ChunkSizeMismatch))
        else if want.None? then (w, PutEnd(InvalidChecksumHeader))
        else (w, Claim(sid, sess, n, want.value))
    case Claim(sid, sess, n, want) =>
      if ChunkIsDone(w, sid, n) then
        (w, if e.o.Succeeds? then PutEnd(AlreadyDone) else PutEnd(StoreError))
      else
        (After(w, ClaimChunk(w, sid, n), e.o),
         if e.o.Succeeds? && HasChunk(w, sid, n) then ReadBody(sid, sess, n, want) else PutEnd(StoreError))
    case ReadBody(sid, sess, n, want) =>
      if |e.body| != Expected(sess, n) then (w, Reject(sid, n, BodyTruncated))
      else if Sha256(e.body) != want then (w, Reject(sid, n, ChecksumMismatch))
      else (w.(verified := w.verified + {(sid, n, e.body)}), StorePart(sid, n, e.body))
    case Reject(sid, n, why) =>
      (After(w, MarkChunkRetry(w, sid, n), e.o), PutEnd(why))
    case StorePart(sid, n, body) =>
      (After(w, PutChunkPart(w, sid, n, body), e.o),
       if e.o.Succeeds? && OfSession(sid) in w.s3.uploads then RecordDone(sid, n, body)
       else Reject(sid, n, StorageError))
    case RecordDone(sid, n, body) =>
      (After(w, MarkChunkDone(w, sid, n, Sha256(body), Md5(body), |body|), e.o),
       if e.o.Succeeds? && HasChunk(w, sid, n) then PutEnd(ChunkStored) else PutEnd(StoreError))
    case PutEnd(_) => (w, pc)
  }

  /** The bytes copied after one more call of the server-side copy, or None when the source is gone. */
  function CopyMore(w: World, sid: Sid, sess: Session, copied: Bytes): Option<Bytes>
  {
    if Staging(sid) !in w.s3.objects then None
    else if sess.size <= BlobStores.SINGLE_COPY_LIMIT then Some(w.s3.objects[Staging(sid)])
    else
      match ReadRange(w.s3, Staging(sid), |copied|, Min(|copied| + BlobStores.COPY_PART_SIZE, sess.size))
      case None => None
      case Some(range) => Some(copied + range)
  }

  function LandedEvent(sid: Sid, sess: Session): Landed
    requires sess.sha.Some? && sess.key.Some?
  {
    Landed(sid, sess.ws, sess.user, sess.key.value, sess.sha.value, sess.size)
  }

  /** The calls of assemble, in order. */
  function AssembleStep(w: World, pc: CompletePc, e: Env): (World, CompletePc)
  {
    match pc
    case FinishMultipart(sid, sess, parts) =>
      (After(w, CompleteMultipart(w, sid, parts), e.o),
       if e.o.Succeeds? && CompletionAccepted(w, sid, parts) then HashStaging(sid, sess) else HeadStaging(sid, sess))
    case HeadStaging(sid, sess) =>
      if e.o.Succeeds? && Staging(sid) in w.s3.objects && |w.s3.objects[Staging(sid)]| == sess.size
      then (w, HashStaging(sid, sess))
      else (w, CompleteEnd(AssemblyFailed))
    case HashStaging(sid, sess) =>
      if e.o.Succeeds? && Staging(sid) in w.s3.objects && |w.s3.objects[Staging(sid)]| == sess.size
      then (w, CopyToAsset(sid, sess, Sha256(w.s3.objects[Staging(sid)]), []))
      else (w, CompleteEnd(AssemblyFailed))
    case CopyToAsset(sid, sess, sha, copied) =>
      var more := CopyMore(w, sid, sess, copied);
      if more.None? then (w, CompleteEnd(AssemblyFailed))
      else if sess.size <= BlobStores.SINGLE_COPY_LIMIT || |more.value| >= sess.size then
        (After(w, StoreAsset(w, sess.ws, sha, more.value), e.o),
         if e.o.Succeeds? then DeleteStaging(sid, sess, sha) else CompleteEnd(AssemblyFailed))
      else
        (w, if e.o.Succeeds? then CopyToAsset(sid, sess, sha, more.value) else CompleteEnd(AssemblyFailed))
    case DeleteStaging(sid, sess, sha) =>
      (After(w, RemoveStaging(w, sid), e.o), PersistAssembled(sid, sess, sha))
    case PersistAssembled(sid, sess, sha) =>
      var key := Asset(sess.ws, sha);
      (After(w, SetAssembled(w, sid, sha, key), e.o),
       if e.o.Succeeds?
       then EmitLanded(sid, sess.(state := Assembled, sha := Some(sha), key := Some(key)), 0)
       else CompleteEnd(PersistAssembledFailed))
    case _ => (w, pc)
  }

  function CompleteStep(w: World, pc: CompletePc, e: Env): (World, CompletePc)
  {
    match pc
    case CompleteStart(sid, ws) =>
      if !e.o.Succeeds? then (w, CompleteEnd(StoreError))
      else if !Owned(w, sid, ws) then (w, CompleteEnd(NotFound))
      else
        (match w.sessions[sid].state
         case Cancelled => (w, CompleteEnd(SessionCancelled))
         case Completed => (w, CompleteEnd(AlreadyCompleted))
         case _ => (w, LoadChunks(sid, w.sessions[sid])))
    case LoadChunks(sid, sess) =>
      if !e.o.Succeeds? then (w, CompleteEnd(StoreError))
      else if sid !in w.chunks || !AllDone(w.chunks[sid]) || |w.chunks[sid]| != sess.count then
        (w, CompleteEnd(UploadIncomplete))
      else if sess.state.Active? then (w, FinishMultipart(sid, sess, PartList(w.chunks[sid])))
      else (w, EmitLanded(sid, sess, 0))
    case EmitLanded(sid, sess, attempt) =>
      if sess.sha.None? || sess.key.None? then (w, CompleteEnd(PublishFailed))
      else
        (After(w, PublishLanded(w, LandedEvent(sid, sess)), e.o),
         if e.o.Succeeds? then EmitMetering(sid, sess, 0)
         else if PublishAgain(e, attempt) then EmitLanded(sid, sess, attempt + 1)
         else CompleteEnd(PublishFailed))
    case EmitMetering(sid, sess, attempt) =>
      (After(w, PublishMetered(w, Metered(sid, UploadCompleted, sess.ws, sess.user, sess.size)), e.o),
       if e.o.Succeeds? then PersistCompleted(sid, sess)
       else if PublishAgain(e, attempt) then EmitMetering(sid, sess, attempt + 1)
       else CompleteEnd(PublishFailed))
    case PersistCompleted(sid, sess) =>
      (After(w, SetState(w, sid, Completed), e.o),
       if e.o.Succeeds? then CompleteEnd(Landed200) else CompleteEnd(StoreError))
    case _ => AssembleStep(w, pc, e)
  }

  function CancelStep(w: World, pc: CancelPc, e: Env): (World, CancelPc)
  {
    match pc
    case CancelStart(sid, ws) =>
      if !e.o.Succeeds? then (w, CancelEnd(StoreError))
      else if !Owned(w, sid, ws) then (w, CancelEnd(NotFound))
      else
        (match w.sessions[sid].state
         case Completed => (w, CancelEnd(CannotCancelCompleted))
         case Cancelled => (w, ReAbort(sid))
         case _ => (w, CancelAbort(sid)))
    case ReAbort(sid) =>
      (AbortSession(w, sid, e.o), CancelEnd(NoContent))
    case CancelAbort(sid) =>
      (AbortSession(w, sid, e.o), if e.o.Succeeds? then CancelHead(sid) else CancelEnd(StorageError))
    case CancelHead(sid) =>
      (w, if e.o.Succeeds? && Staging(sid) in w.s3.objects then CancelDelete(sid) else PersistCancelled(sid))
    case CancelDelete(sid) =>
      (After(w, RemoveStaging(w, sid), e.o),
       if e.o.Succeeds? then PersistCancelled(sid) else CancelEnd(StorageError))
    case PersistCancelled(sid) =>
      (After(w, SetState(w, sid, Cancelled), e.o),
       if e.o.Succeeds? then CancelEnd(NoContent) else CancelEnd(StoreError))
    case CancelEnd(_) => (w, pc)
  }

  function AbortSession(w: World, sid: Sid, o: Outcome): World
  {
    After(w, AbortMultipart(w, sid), o)
  }

  /** One external call of whichever handler this is. */
  function Step(w: World, tid: nat, pc: Pc, e: Env): (World, Pc)
  {
    match pc
    case InCreate(c) => var r := CreateStep(w, tid, c, e); (r.0, InCreate(r.1))
    case InPut(p) => var r := PutStep(w, p, e); (r.0, InPut(r.1))
    case InComplete(k) => var r := CompleteStep(w, k, e); (r.0, InComplete(r.1))
    case InCancel(x) => var r := CancelStep(w, x, e); (r.0, InCancel(r.1))
  }

  /** A request as it arrives. */
  predicate IsStart(pc: Pc)
  {
    match pc
    case InCreate(c) => c.CreateStart?
    case InPut(p) => p.PutStart?
    case InComplete(k) => k.CompleteStart?
    case InCancel(x) => x.CancelStart?
  }
}
