// Everything the upload service keeps outside its own memory: the session and
// chunk rows, object storage, and the published event logs.
module UploadWorld {
  import opened Basics
  import opened GoInt
  import opened Tiling
  import opened ObjectStorage

  type Sid = nat

  datatype SessionState = Active | Assembled | Completed | Cancelled
  datatype ChunkState = Pending | Inflight | Done | Retry

  datatype Chunk = Chunk(state: ChunkState, sha: Option<Digest>, etag: Option<ETag>, size: int)

  datatype Session = Session(ws: string, user: string, size: int, chunkSize: int, count: int,
                             state: SessionState, sha: Option<Digest>, key: Option<Key>)

  datatype Landed = Landed(uploadId: Sid, ws: string, user: string, key: Key, sha: Digest, size: int)

  datatype MeterKind = UploadSessionCreated | UploadCompleted
  /** A metering event; `origin` records which session's handler published it. */
  datatype Metered = Metered(origin: Sid, kind: MeterKind, ws: string, user: string, bytes: int)

  datatype World = World(
    chunkSize: int,
    maxObjectBytes: int,
    s3: S3,
    sessions: map<Sid, Session>,
    chunks: map<Sid, seq<Chunk>>,
    landed: set<Landed>,
    metered: set<Metered>,
    // History, read by no handler:
    owner: map<Sid, nat>,                  // which handler minted each session id
    verified: set<(Sid, int, Bytes)>,      // bodies that passed length and checksum for a chunk index
    assembled: map<Sid, seq<Bytes>>        // part bodies joined by the one completion of each multipart
  )

  const FRESH_CHUNK := Chunk(Pending, None, None, 0)

  function Expected(s: Session, n: int): int
  {
    ExpectedLen(s.size, s.chunkSize, s.count, n)
  }

  // ---- services/upload/postgres.go: row updates ----

  /** The insert is refused unless the row's column checks hold. */
  predicate Insertable(s: Session)
  {
    s.size > 0 && s.chunkSize > 0 && 0 < s.count <= MAX_INT32
  }

  function CreateSession(w: World, sid: Sid, s: Session): World
  {
    if Insertable(s) then
      w.(sessions := w.sessions[sid := s], chunks := w.chunks[sid := seq(s.count, _ => FRESH_CHUNK)])
    else w
  }

  function SetState(w: World, sid: Sid, state: SessionState): World
  {
    if sid in w.sessions then w.(sessions := w.sessions[sid := w.sessions[sid].(state := state)]) else w
  }

  function SetAssembled(w: World, sid: Sid, sha: Digest, key: Key): World
  {
    if sid in w.sessions then
      w.(sessions := w.sessions[sid := w.sessions[sid].(state := Assembled, sha := Some(sha), key := Some(key))])
    else w
  }

  function SetChunk(w: World, sid: Sid, n: int, c: Chunk): World
  {
    if sid in w.chunks && 0 <= n < |w.chunks[sid]| then
      w.(chunks := w.chunks[sid := w.chunks[sid][n := c]])
    else w
  }

  predicate HasChunk(w: World, sid: Sid, n: int)
  {
    sid in w.chunks && 0 <= n < |w.chunks[sid]|
  }

  predicate ChunkIsDone(w: World, sid: Sid, n: int)
  {
    HasChunk(w, sid, n) && w.chunks[sid][n].state.Done?
  }

  /** UPDATE ... SET state = INFLIGHT WHERE state <> DONE. */
  function ClaimChunk(w: World, sid: Sid, n: int): World
  {
    if HasChunk(w, sid, n) && !ChunkIsDone(w, sid, n) then
      SetChunk(w, sid, n, w.chunks[sid][n].(state := Inflight))
    else w
  }

  /** UPDATE ... SET state = RETRY WHERE state <> DONE. */
  function MarkChunkRetry(w: World, sid: Sid, n: int): World
  {
    if HasChunk(w, sid, n) && !ChunkIsDone(w, sid, n) then
      SetChunk(w, sid, n, w.chunks[sid][n].(state := Retry))
    else w
  }

  /** UPDATE ... SET state = DONE, unconditionally. */
  function MarkChunkDone(w: World, sid: Sid, n: int, sha: Digest, etag: ETag, size: int): World
  {
    SetChunk(w, sid, n, Chunk(Done, Some(sha), Some(etag), size))
  }

  // ---- chunk map questions asked by complete ----

  predicate AllDone(chunks: seq<Chunk>)
  {
    forall i :: 0 <= i < |chunks| ==> chunks[i].state.Done? && chunks[i].etag.Some?
  }

  function PartList(chunks: seq<Chunk>): (parts: seq<Part>)
    requires AllDone(chunks)
    ensures |parts| == |chunks| && Ascending(parts)
  {
    seq(|chunks|, i requires 0 <= i < |chunks| => Part(i + 1, chunks[i].etag.value))
  }

  /** The bytes the chunk map's recorded parts stand for, in index order. */
  function RecordedBodies(chunks: seq<Chunk>): seq<Bytes>
    requires AllDone(chunks)
  {
    seq(|chunks|, i requires 0 <= i < |chunks| => chunks[i].etag.value.content)
  }

  // ---- storage calls on behalf of a session ----

  function PutChunkPart(w: World, sid: Sid, n: int, body: Bytes): World
  {
    w.(s3 := PutPart(w.s3, OfSession(sid), n + 1, body))
  }

  function BeginMultipart(w: World, sid: Sid): World
  {
    w.(s3 := Begin(w.s3, OfSession(sid), Staging(sid)))
  }

  function AbortMultipart(w: World, sid: Sid): World
  {
    w.(s3 := Abort(w.s3, OfSession(sid)))
  }

  function RemoveStaging(w: World, sid: Sid): World
  {
    w.(s3 := Remove(w.s3, Staging(sid)))
  }

  function StoreAsset(w: World, ws: string, sha: Digest, body: Bytes): World
  {
    w.(s3 := Store(w.s3, Asset(ws, sha), body))
  }

  predicate CompletionAccepted(w: World, sid: Sid, parts: seq<Part>)
  {
    Accepts(w.s3, OfSession(sid), SortParts(parts))
  }

  function CompleteMultipart(w: World, sid: Sid, parts: seq<Part>): World
  {
    if CompletionAccepted(w, sid, parts) then
      w.(s3 := Complete(w.s3, OfSession(sid), SortParts(parts)),
         assembled := w.assembled[sid := PartBodies(w.s3.uploads[OfSession(sid)], SortParts(parts))])
    else w
  }

  function PublishLanded(w: World, ev: Landed): World
  {
    w.(landed := w.landed + {ev})
  }

  function PublishMetered(w: World, ev: Metered): World
  {
    w.(metered := w.metered + {ev})
  }
}
