// Safety of the upload service under every interleaving of its handlers, with
// any external call failing before or after taking effect and any handler cut
// between two calls. The argument is rely/guarantee: each step keeps WorldInv
// and stays within Evolves, and what a handler has established (Local) is
// stable under any Evolves step of another handler.
module UploadInvariant {
  import opened Basics
  import opened GoInt
  import opened Tiling
  import opened ObjectStorage
  import opened UploadWorld
  import opened UploadHandlers

  // ---- what always holds of the world ----

  type Sessions = map<Sid, Session>
  type Bodies = map<Sid, seq<Bytes>>
  type Checked = set<(Sid, int, Bytes)>

  ghost predicate SessionOk(s: Session)
  {
    && Tiles(s.size, s.chunkSize, s.count)
    && (s.state.Active? ==> s.sha.None?)
    && (s.state.Assembled? || s.state.Completed? ==> s.sha.Some?)
    && (s.sha.Some? ==> s.key == Some(Asset(s.ws, s.sha.value)))
  }

  ghost predicate RowsOk(sessions: Sessions, chunks: map<Sid, seq<Chunk>>, owner: map<Sid, nat>)
  {
    && (forall sid :: sid in sessions ==>
          sid in owner && sid in chunks && SessionOk(sessions[sid]) && |chunks[sid]| == sessions[sid].count)
    && (forall sid :: sid in chunks ==> sid in sessions)
    && (forall sid: nat :: sid in owner ==> sid < |owner|)
  }

  /** Bodies that passed the length and checksum tests of a PUT really have the length of their chunk. */
  ghost predicate VerifiedOk(verified: Checked, sessions: Sessions)
  {
    forall v :: v in verified ==>
      v.0 in sessions && 0 <= v.1 < sessions[v.0].count && |v.2| == Expected(sessions[v.0], v.1)
  }

  /** A DONE row describes one verified body. */
  ghost predicate DoneOk(c: Chunk, sid: Sid, n: int, verified: Checked)
  {
    c.state.Done? ==>
      c.etag.Some? && c.sha == Some(Sha256(c.etag.value.content)) && c.size == |c.etag.value.content|
      && (sid, n, c.etag.value.content) in verified
  }

  ghost predicate ChunksOk(chunks: map<Sid, seq<Chunk>>, verified: Checked)
  {
    forall sid, n :: sid in chunks && 0 <= n < |chunks[sid]| ==> DoneOk(chunks[sid][n], sid, n, verified)
  }

  ghost predicate UploadOk(up: Upload, sid: Sid, verified: Checked)
  {
    up.key == Staging(sid) && forall k :: k in up.parts ==> (sid, k - 1, up.parts[k]) in verified
  }

  /** Open session uploads hold only verified bodies, and their id has not been completed. */
  ghost predicate UploadsOk(uploads: map<UploadId, Upload>, owner: map<Sid, nat>, assembled: Bodies, verified: Checked)
  {
    forall sid :: OfSession(sid) in uploads ==>
      sid in owner && sid !in assembled && UploadOk(uploads[OfSession(sid)], sid, verified)
  }

  ghost predicate AllVerified(bodies: seq<Bytes>, sid: Sid, verified: Checked)
  {
    forall i :: 0 <= i < |bodies| ==> (sid, i, bodies[i]) in verified
  }

  /** What a completed multipart joined: one verified body per chunk index, in order. */
  ghost predicate AssembledOk(assembled: Bodies, sessions: Sessions, verified: Checked)
  {
    forall sid :: sid in assembled ==>
      sid in sessions && |assembled[sid]| == sessions[sid].count
      && AllVerified(assembled[sid], sid, verified)
  }

  /** Staging objects are write-once; asset objects hash to the digest in their key. */
  ghost predicate ObjectsOk(objects: map<Key, Bytes>, assembled: Bodies)
  {
    && (forall sid :: Staging(sid) in objects ==> sid in assembled && objects[Staging(sid)] == Concat(assembled[sid]))
    && (forall ws, sha :: Asset(ws, sha) in objects ==> Sha256(objects[Asset(ws, sha)]) == sha)
  }

  ghost predicate Recorded(sid: Sid, ws: string, sha: Digest, assembled: Bodies, objects: map<Key, Bytes>)
  {
    sid in assembled && sha == Sha256(Concat(assembled[sid])) && Asset(ws, sha) in objects
  }

  ghost predicate HashesOk(sessions: Sessions, assembled: Bodies, objects: map<Key, Bytes>)
  {
    forall sid :: sid in sessions && sessions[sid].sha.Some? ==>
      Recorded(sid, sessions[sid].ws, sessions[sid].sha.value, assembled, objects)
  }

  ghost predicate LandedOk(landed: set<Landed>, sessions: Sessions, assembled: Bodies, objects: map<Key, Bytes>)
  {
    forall ev :: ev in landed ==>
      && ev.uploadId in sessions
      && ev.ws == sessions[ev.uploadId].ws && ev.user == sessions[ev.uploadId].user
      && ev.size == sessions[ev.uploadId].size && ev.key == Asset(ev.ws, ev.sha)
      && Recorded(ev.uploadId, ev.ws, ev.sha, assembled, objects)
  }

  ghost predicate LandedPublished(sid: Sid, s: Session, landed: set<Landed>)
  {
    s.sha.Some? && s.key.Some? && LandedEvent(sid, s) in landed
  }

  ghost predicate MeterPublished(sid: Sid, s: Session, metered: set<Metered>)
  {
    Metered(sid, UploadCompleted, s.ws, s.user, s.size) in metered
  }

  ghost predicate CompletedOk(sessions: Sessions, landed: set<Landed>, metered: set<Metered>)
  {
    forall sid :: sid in sessions && sessions[sid].state.Completed? ==>
      LandedPublished(sid, sessions[sid], landed) && MeterPublished(sid, sessions[sid], metered)
  }

  ghost predicate PartStored(uploads: map<UploadId, Upload>, sid: Sid, n: int)
  {
    OfSession(sid) in uploads ==> n + 1 in uploads[OfSession(sid)].parts
  }

  /** While its multipart is open, a DONE chunk has a part stored under its number. */
  ghost predicate PartsStored(chunks: map<Sid, seq<Chunk>>, uploads: map<UploadId, Upload>)
  {
    forall sid, n :: sid in chunks && 0 <= n < |chunks[sid]| && chunks[sid][n].state.Done? ==> PartStored(uploads, sid, n)
  }

  ghost predicate WorldInv(w: World)
  {
    && 0 < w.chunkSize <= MAX_INT64 && w.maxObjectBytes <= MAX_INT64
    && RowsOk(w.sessions, w.chunks, w.owner)
    && VerifiedOk(w.verified, w.sessions)
    && ChunksOk(w.chunks, w.verified)
    && UploadsOk(w.s3.uploads, w.owner, w.assembled, w.verified)
    && AssembledOk(w.assembled, w.sessions, w.verified)
    && ObjectsOk(w.s3.objects, w.assembled)
    && HashesOk(w.sessions, w.assembled, w.s3.objects)
    && LandedOk(w.landed, w.sessions, w.assembled, w.s3.objects)
    && CompletedOk(w.sessions, w.landed, w.metered)
    && PartsStored(w.chunks, w.s3.uploads)
  }

  // ---- what one step of any handler may do to the world ----

  ghost predicate SameIdentity(a: Session, b: Session)
  {
    a.ws == b.ws && a.user == b.user && a.size == b.size && a.chunkSize == b.chunkSize && a.count == b.count
  }

  ghost predicate SessionEvolves(a: Session, b: Session)
  {
    && SameIdentity(a, b)
    && (a.sha.Some? ==> b.sha == a.sha && b.key == a.key)
    && (!a.state.Active? ==> !b.state.Active?)
  }

  ghost predicate SessionsEvolve(a: Sessions, b: Sessions)
  {
    forall sid :: sid in a ==> sid in b && SessionEvolves(a[sid], b[sid])
  }

  /** Only the handler that minted an id inserts the session under it. */
  ghost predicate InsertsOwn(a: Sessions, b: Sessions, owner: map<Sid, nat>, tid: nat)
  {
    forall sid :: sid in b ==> sid in a || (sid in owner && owner[sid] == tid)
  }

  /** Uploads opened for ids whose session is not yet inserted are left to the handler that minted the id. */
  ghost predicate LeavesOthers(a: map<UploadId, Upload>, b: map<UploadId, Upload>, sessions: Sessions,
                               owner: map<Sid, nat>, tid: nat)
  {
    forall sid :: sid !in sessions && sid in owner && owner[sid] != tid ==>
      (OfSession(sid) in a <==> OfSession(sid) in b)
  }

  ghost predicate Extends<K, V>(a: map<K, V>, b: map<K, V>)
  {
    forall k :: k in a ==> k in b && b[k] == a[k]
  }

  ghost predicate RowsStay(a: map<Sid, seq<Chunk>>, b: map<Sid, seq<Chunk>>)
  {
    forall sid :: sid in a ==> sid in b && |b[sid]| == |a[sid]|
  }

  ghost predicate AssetsStay(a: map<Key, Bytes>, b: map<Key, Bytes>)
  {
    forall ws, sha :: Asset(ws, sha) in a ==> Asset(ws, sha) in b
  }

  /** The upload of an existing session is never opened again and loses no part while it is open. */
  ghost predicate PartsGrow(a: map<UploadId, Upload>, b: map<UploadId, Upload>, sessions: Sessions)
  {
    forall sid :: sid in sessions && OfSession(sid) in b ==>
      OfSession(sid) in a && a[OfSession(sid)].parts.Keys <= b[OfSession(sid)].parts.Keys
  }

  ghost predicate Evolves(w: World, w': World, tid: nat)
  {
    && w.chunkSize == w'.chunkSize
    && Extends(w.owner, w'.owner)
    && SessionsEvolve(w.sessions, w'.sessions)
    && InsertsOwn(w.sessions, w'.sessions, w.owner, tid)
    && LeavesOthers(w.s3.uploads, w'.s3.uploads, w.sessions, w.owner, tid)
    && RowsStay(w.chunks, w'.chunks)
    && Extends(w.assembled, w'.assembled)
    && AssetsStay(w.s3.objects, w'.s3.objects)
    && w.verified <= w'.verified && w.landed <= w'.landed && w.metered <= w'.metered
    && PartsGrow(w.s3.uploads, w'.s3.uploads, w.sessions)
  }

  // ---- what a handler knows at each program point ----

  ghost predicate Snapshot(w: World, sid: Sid, sess: Session)
  {
    && sid in w.sessions && SessionOk(sess) && SameIdentity(sess, w.sessions[sid])
    && (sess.sha.Some? ==> Recorded(sid, sess.ws, sess.sha.value, w.assembled, w.s3.objects)
                           && w.sessions[sid].sha == sess.sha && w.sessions[sid].key == sess.key)
  }

  ghost predicate Assembling(w: World, sid: Sid, sess: Session, sha: Digest)
  {
    Snapshot(w, sid, sess) && sid in w.assembled && sha == Sha256(Concat(w.assembled[sid]))
  }

  ghost predicate Minted(w: World, tid: nat, sid: Sid, req: Session)
  {
    && sid in w.owner && w.owner[sid] == tid
    && 0 < req.size <= MAX_INT64 && 0 < w.chunkSize && req.chunkSize == w.chunkSize
    && req.count == ChunkCount(req.size, req.chunkSize)
    && req.state.Active? && req.sha.None? && req.key.None?
  }

  /** The part list of a full chunk map: parts 1..n in order. */
  ghost predicate Numbered(parts: seq<Part>)
  {
    forall i :: 0 <= i < |parts| ==> parts[i].number == i + 1
  }

  ghost predicate LocalCreate(w: World, tid: nat, pc: CreatePc)
  {
    match pc
    case CreateStart(_, _, _, _) => true
    case OpenMultipart(sid, req) => Minted(w, tid, sid, req) && sid !in w.sessions && OfSession(sid) !in w.s3.uploads
    case InsertSession(sid, req) => Minted(w, tid, sid, req) && sid !in w.sessions && OfSession(sid) in w.s3.uploads
    case AbortUnsaved(sid) => sid in w.owner && w.owner[sid] == tid
    case MeterCreated(sid, req, _) => sid in w.sessions
    case RollbackState(sid) => sid in w.sessions
    case RollbackAbort(sid) => sid in w.sessions && !w.sessions[sid].state.Active?
    case CreateEnd(_) => true
  }

  ghost predicate LocalPut(w: World, pc: PutPc)
  {
    match pc
    case PutStart(_, _, _, _, _) => true
    case Claim(sid, sess, n, _) => sid in w.sessions && SameIdentity(sess, w.sessions[sid]) && 0 <= n < sess.count
    case ReadBody(sid, sess, n, _) => sid in w.sessions && SameIdentity(sess, w.sessions[sid]) && 0 <= n < sess.count
    case Reject(sid, n, _) => HasChunk(w, sid, n)
    case StorePart(sid, n, body) => (sid, n, body) in w.verified && HasChunk(w, sid, n)
    case RecordDone(sid, n, body) => (sid, n, body) in w.verified && sid in w.sessions && PartStored(w.s3.uploads, sid, n)
    case PutEnd(_) => true
  }

  ghost predicate LocalComplete(w: World, pc: CompletePc)
  {
    match pc
    case CompleteStart(_, _) => true
    case LoadChunks(sid, sess) => Snapshot(w, sid, sess)
    case FinishMultipart(sid, sess, parts) =>
      Snapshot(w, sid, sess) && sess.state.Active? && Numbered(parts) && |parts| == sess.count
    case HeadStaging(sid, sess) => Snapshot(w, sid, sess)
    case HashStaging(sid, sess) => Snapshot(w, sid, sess)
    case CopyToAsset(sid, sess, sha, copied) =>
      Assembling(w, sid, sess, sha) && |copied| <= sess.size <= |Concat(w.assembled[sid])|
      && copied == Concat(w.assembled[sid])[..|copied|]
    case DeleteStaging(sid, sess, sha) =>
      Assembling(w, sid, sess, sha) && Recorded(sid, sess.ws, sha, w.assembled, w.s3.objects)
    case PersistAssembled(sid, sess, sha) =>
      Assembling(w, sid, sess, sha) && Recorded(sid, sess.ws, sha, w.assembled, w.s3.objects)
    case EmitLanded(sid, sess, _) => Snapshot(w, sid, sess)
    case EmitMetering(sid, sess, _) => Snapshot(w, sid, sess) && LandedPublished(sid, w.sessions[sid], w.landed)
    case PersistCompleted(sid, sess) =>
      Snapshot(w, sid, sess) && LandedPublished(sid, w.sessions[sid], w.landed)
      && MeterPublished(sid, w.sessions[sid], w.metered)
    case CompleteEnd(_) => true
  }

  ghost predicate LocalCancel(w: World, pc: CancelPc)
  {
    match pc
    case CancelStart(_, _) => true
    case CancelEnd(_) => true
    case _ => pc.sid in w.sessions
  }

  ghost predicate Local(w: World, tid: nat, pc: Pc)
  {
    match pc
    case InCreate(c) => LocalCreate(w, tid, c)
    case InPut(p) => LocalPut(w, p)
    case InComplete(k) => LocalComplete(w, k)
    case InCancel(x) => LocalCancel(w, x)
  }

  // ---- each kind of effect keeps the invariant ----

  lemma MintKeeps(w: World, tid: nat)
    requires WorldInv(w)
    ensures var w' := w.(owner := w.owner[NextSid(w) := tid]);
      WorldInv(w') && Evolves(w, w', tid)
  {
    MintRows(w.sessions, w.chunks, w.owner, tid);
    assert NextSid(w) !in w.owner;
  }

  lemma MintedCount(owner: map<Sid, nat>, tid: nat)
    requires |owner| !in owner
    ensures |owner[|owner| := tid]| == |owner| + 1
  {
    assert owner[|owner| := tid].Keys == owner.Keys + {|owner|};
  }

  lemma MintRows(sessions: Sessions, chunks: map<Sid, seq<Chunk>>, owner: map<Sid, nat>, tid: nat)
    requires RowsOk(sessions, chunks, owner)
    ensures RowsOk(sessions, chunks, owner[|owner| := tid]) && |owner| !in owner
  {
    hide SessionOk;
    assert |owner| !in owner;
    MintedCount(owner, tid);
  }

  lemma BeginKeeps(w: World, tid: nat, sid: Sid)
    requires WorldInv(w) && sid in w.owner && w.owner[sid] == tid && sid !in w.sessions
    ensures var w' := BeginMultipart(w, sid);
      WorldInv(w') && Evolves(w, w', tid)
  {
  }

  lemma InsertKeeps(w: World, tid: nat, sid: Sid, req: Session)
    requires WorldInv(w) && Minted(w, tid, sid, req) && sid !in w.sessions && OfSession(sid) in w.s3.uploads
    ensures var w' := CreateSession(w, sid, req);
      WorldInv(w') && Evolves(w, w', tid)
  {
    if Insertable(req) {
      ChunkCountTiles(req.size, req.chunkSize);
      var rows := seq(req.count, _ => FRESH_CHUNK);
      InsertKeepsRows(w, sid, req, rows);
      InsertKeepsLogs(w, sid, req);
      InsertEvolves(w, tid, sid, req);
      hide Evolves;
    }
  }

  lemma InsertEvolves(w: World, tid: nat, sid: Sid, req: Session)
    requires sid !in w.sessions && sid !in w.chunks && sid in w.owner && w.owner[sid] == tid
    ensures Evolves(w, CreateSession(w, sid, req), tid)
  {
  }

  lemma InsertKeepsRows(w: World, sid: Sid, req: Session, rows: seq<Chunk>)
    requires WorldInv(w) && sid in w.owner && sid !in w.sessions && SessionOk(req) && |rows| == req.count
    requires forall i :: 0 <= i < |rows| ==> rows[i] == FRESH_CHUNK
    ensures RowsOk(w.sessions[sid := req], w.chunks[sid := rows], w.owner)
    ensures ChunksOk(w.chunks[sid := rows], w.verified)
    ensures VerifiedOk(w.verified, w.sessions[sid := req])
  {
  }

  lemma InsertKeepsLogs(w: World, sid: Sid, req: Session)
    requires WorldInv(w) && sid !in w.sessions && req.state.Active? && req.sha.None?
    ensures AssembledOk(w.assembled, w.sessions[sid := req], w.verified)
    ensures HashesOk(w.sessions[sid := req], w.assembled, w.s3.objects)
    ensures LandedOk(w.landed, w.sessions[sid := req], w.assembled, w.s3.objects)
    ensures CompletedOk(w.sessions[sid := req], w.landed, w.metered)
  {
  }

  lemma OwnAbortKeeps(w: World, tid: nat, sid: Sid)
    requires WorldInv(w) && sid in w.owner
    requires sid in w.sessions || w.owner[sid] == tid
    ensures var w' := AbortMultipart(w, sid);
      WorldInv(w') && Evolves(w, w', tid)
  {
  }

  lemma AbortSessionKeeps(w: World, tid: nat, sid: Sid, o: Outcome)
    requires WorldInv(w) && sid in w.sessions
    ensures var w' := AbortSession(w, sid, o);
      WorldInv(w') && Evolves(w, w', tid)
  {
    assert sid in w.owner;
    OwnAbortKeeps(w, tid, sid);
    hide WorldInv;
  }

  /** Any row update that keeps the session's identity and its recorded hash, and never goes back to ACTIVE. */
  lemma UpdateSessionKeeps(w: World, tid: nat, sid: Sid, s: Session)
    requires WorldInv(w) && sid in w.sessions && SessionOk(s) && SessionEvolves(w.sessions[sid], s) && !s.state.Active?
    requires s.sha.Some? ==> Recorded(sid, s.ws, s.sha.value, w.assembled, w.s3.objects)
    requires s.state.Completed? ==> LandedPublished(sid, s, w.landed) && MeterPublished(sid, s, w.metered)
    ensures var w' := w.(sessions := w.sessions[sid := s]);
      WorldInv(w') && Evolves(w, w', tid)
  {
    UpdateSessionRows(w, sid, s);
    UpdateSessionLogs(w, sid, s);
  }

  lemma UpdateSessionRows(w: World, sid: Sid, s: Session)
    requires WorldInv(w) && sid in w.sessions && SessionOk(s) && SameIdentity(w.sessions[sid], s)
    ensures RowsOk(w.sessions[sid := s], w.chunks, w.owner)
    ensures VerifiedOk(w.verified, w.sessions[sid := s])
    ensures AssembledOk(w.assembled, w.sessions[sid := s], w.verified)
  {
  }

  lemma UpdateSessionLogs(w: World, sid: Sid, s: Session)
    requires WorldInv(w) && sid in w.sessions && SameIdentity(w.sessions[sid], s)
    requires s.sha.Some? ==> Recorded(sid, s.ws, s.sha.value, w.assembled, w.s3.objects)
    requires s.state.Completed? ==> LandedPublished(sid, s, w.landed) && MeterPublished(sid, s, w.metered)
    ensures HashesOk(w.sessions[sid := s], w.assembled, w.s3.objects)
    ensures LandedOk(w.landed, w.sessions[sid := s], w.assembled, w.s3.objects)
    ensures CompletedOk(w.sessions[sid := s], w.landed, w.metered)
  {
  }

  lemma SetStateKeeps(w: World, tid: nat, sid: Sid, state: SessionState)
    requires WorldInv(w) && sid in w.sessions
    requires state.Cancelled? || (state.Completed? && LandedPublished(sid, w.sessions[sid], w.landed)
                                  && MeterPublished(sid, w.sessions[sid], w.metered))
    ensures var w' := SetState(w, sid, state);
      WorldInv(w') && Evolves(w, w', tid)
  {
    UpdateSessionKeeps(w, tid, sid, w.sessions[sid].(state := state));
  }

  lemma SetAssembledKeeps(w: World, tid: nat, sid: Sid, sha: Digest)
    requires WorldInv(w) && sid in w.sessions && Recorded(sid, w.sessions[sid].ws, sha, w.assembled, w.s3.objects)
    ensures var w' := SetAssembled(w, sid, sha, Asset(w.sessions[sid].ws, sha));
      WorldInv(w') && Evolves(w, w', tid)
  {
    var s := w.sessions[sid];
    UpdateSessionKeeps(w, tid, sid, s.(state := Assembled, sha := Some(sha), key := Some(Asset(s.ws, sha))));
  }

  lemma SetChunkKeepsRows(sessions: Sessions, chunks: map<Sid, seq<Chunk>>, owner: map<Sid, nat>, verified: Checked,
                          sid: Sid, n: int, c: Chunk)
    requires RowsOk(sessions, chunks, owner) && ChunksOk(chunks, verified)
    requires sid in chunks && 0 <= n < |chunks[sid]| && DoneOk(c, sid, n, verified)
    ensures RowsOk(sessions, chunks[sid := chunks[sid][n := c]], owner)
    ensures ChunksOk(chunks[sid := chunks[sid][n := c]], verified)
    ensures RowsStay(chunks, chunks[sid := chunks[sid][n := c]])
  {
  }

  lemma RowsStayPut(chunks: map<Sid, seq<Chunk>>)
    ensures RowsStay(chunks, chunks)
  {
  }

  lemma SetChunkKeeps(w: World, tid: nat, sid: Sid, n: int, c: Chunk)
    requires WorldInv(w)
    requires DoneOk(c, sid, n, w.verified) && (c.state.Done? ==> PartStored(w.s3.uploads, sid, n))
    ensures var w' := SetChunk(w, sid, n, c);
      WorldInv(w') && Evolves(w, w', tid)
  {
    hide RowsOk, ChunksOk, RowsStay, DoneOk;
    if sid in w.chunks && 0 <= n < |w.chunks[sid]| {
      SetChunkKeepsRows(w.sessions, w.chunks, w.owner, w.verified, sid, n, c);
    } else {
      RowsStayPut(w.chunks);
    }
  }

  lemma PutPartKeeps(w: World, tid: nat, sid: Sid, n: int, body: Bytes)
    requires WorldInv(w) && (sid, n, body) in w.verified
    ensures var w' := PutChunkPart(w, sid, n, body);
      WorldInv(w') && Evolves(w, w', tid)
  {
  }

  lemma VerifyKeeps(w: World, tid: nat, sid: Sid, n: int, body: Bytes)
    requires WorldInv(w) && sid in w.sessions && 0 <= n < w.sessions[sid].count
    requires |body| == Expected(w.sessions[sid], n)
    ensures var w' := w.(verified := w.verified + {(sid, n, body)});
      WorldInv(w') && Evolves(w, w', tid)
  {
  }

  lemma CompleteKeeps(w: World, tid: nat, sid: Sid, parts: seq<Part>)
    requires WorldInv(w) && sid in w.sessions && Numbered(parts) && |parts| == w.sessions[sid].count
    ensures var w' := CompleteMultipart(w, sid, parts);
      WorldInv(w') && Evolves(w, w', tid)
    ensures CompletionAccepted(w, sid, parts) ==> sid in CompleteMultipart(w, sid, parts).assembled
  {
    SortPartsOfAscending(parts);
    if CompletionAccepted(w, sid, parts) {
      var up := w.s3.uploads[OfSession(sid)];
      var bodies := PartBodies(up, parts);
      PartBodiesVerified(up, sid, parts, w.verified);
      assert CompleteMultipart(w, sid, parts) == Joined(w, sid, bodies);
      JoinKeeps(w, tid, sid, bodies);
    }
  }

  /** The world after the session's multipart has joined the given bodies. */
  function Joined(w: World, sid: Sid, bodies: seq<Bytes>): World
  {
    w.(s3 := S3(w.s3.uploads - {OfSession(sid)}, w.s3.objects[Staging(sid) := Concat(bodies)]),
       assembled := w.assembled[sid := bodies])
  }

  lemma JoinKeeps(w: World, tid: nat, sid: Sid, bodies: seq<Bytes>)
    requires WorldInv(w) && sid in w.sessions && OfSession(sid) in w.s3.uploads
    requires |bodies| == w.sessions[sid].count && AllVerified(bodies, sid, w.verified)
    ensures WorldInv(Joined(w, sid, bodies)) && Evolves(w, Joined(w, sid, bodies), tid)
  {
    CompleteKeepsAssembled(w, sid, bodies);
    CompleteKeepsObjects(w, sid, bodies, Concat(bodies));
  }

  lemma PartBodiesVerified(up: Upload, sid: Sid, parts: seq<Part>, verified: Checked)
    requires UploadOk(up, sid, verified) && Numbered(parts) && forall p :: p in parts ==> p.number in up.parts
    ensures AllVerified(PartBodies(up, parts), sid, verified)
  {
    forall i | 0 <= i < |parts| ensures (sid, i, up.parts[parts[i].number]) in verified {
      assert parts[i] in parts;
    }
  }

  lemma CompleteKeepsAssembled(w: World, sid: Sid, bodies: seq<Bytes>)
    requires WorldInv(w) && sid in w.sessions && OfSession(sid) in w.s3.uploads
    requires |bodies| == w.sessions[sid].count && AllVerified(bodies, sid, w.verified)
    ensures sid !in w.assembled
    ensures AssembledOk(w.assembled[sid := bodies], w.sessions, w.verified)
    ensures UploadsOk(w.s3.uploads - {OfSession(sid)}, w.owner, w.assembled[sid := bodies], w.verified)
  {
  }

  lemma CompleteKeepsObjects(w: World, sid: Sid, bodies: seq<Bytes>, content: Bytes)
    requires WorldInv(w) && sid !in w.assembled && content == Concat(bodies)
    ensures ObjectsOk(w.s3.objects[Staging(sid) := content], w.assembled[sid := bodies])
    ensures HashesOk(w.sessions, w.assembled[sid := bodies], w.s3.objects[Staging(sid) := content])
    ensures LandedOk(w.landed, w.sessions, w.assembled[sid := bodies], w.s3.objects[Staging(sid) := content])
  {
    var assembled, objects := w.assembled[sid := bodies], w.s3.objects[Staging(sid) := content];
    assert forall k, ws, sha :: Recorded(k, ws, sha, w.assembled, w.s3.objects) ==> Recorded(k, ws, sha, assembled, objects);
  }

  lemma StoreAssetKeeps(w: World, tid: nat, ws: string, sha: Digest, body: Bytes)
    requires WorldInv(w) && Sha256(body) == sha
    ensures var w' := StoreAsset(w, ws, sha, body);
      WorldInv(w') && Evolves(w, w', tid)
  {
  }

  lemma RemoveStagingKeeps(w: World, tid: nat, sid: Sid)
    requires WorldInv(w)
    ensures var w' := RemoveStaging(w, sid);
      WorldInv(w') && Evolves(w, w', tid)
  {
  }

  lemma PublishLandedKeeps(w: World, tid: nat, sid: Sid, sess: Session)
    requires WorldInv(w) && Snapshot(w, sid, sess) && sess.sha.Some?
    ensures var w' := PublishLanded(w, LandedEvent(sid, sess));
      WorldInv(w') && Evolves(w, w', tid) && LandedPublished(sid, w'.sessions[sid], w'.landed)
  {
  }

  lemma PublishMeteredKeeps(w: World, tid: nat, ev: Metered)
    requires WorldInv(w)
    ensures var w' := PublishMetered(w, ev);
      WorldInv(w') && Evolves(w, w', tid)
  {
  }
}
