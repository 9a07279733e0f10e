// The chunk rows of one session as other handlers update them
// (services/upload/postgres.go). ClaimChunk issues two statements, and any
// updates of other handlers may land between them.
module ChunkTable {
  import opened Basics
  import opened ObjectStorage
  import opened UploadWorld

  /** The three guarded updates of a row. */
  datatype Update = Claim(n: int) | Requeue(n: int) | Record(n: int, sha: Digest, etag: ETag, size: int)

  function Updated(rows: seq<Chunk>, u: Update): (r: seq<Chunk>)
    ensures |r| == |rows|
  {
    if !(0 <= u.n < |rows|) then rows
    else match u
      case Claim(n) => if rows[n].state.Done? then rows else rows[n := rows[n].(state := Inflight)]
      case Requeue(n) => if rows[n].state.Done? then rows else rows[n := rows[n].(state := Retry)]
      case Record(n, sha, etag, size) => rows[n := Chunk(Done, Some(sha), Some(etag), size)]
  }

  function AfterAll(rows: seq<Chunk>, us: seq<Update>): (r: seq<Chunk>)
    ensures |r| == |rows|
  {
    if us == [] then rows else Updated(AfterAll(rows, us[..|us| - 1]), us[|us| - 1])
  }

  /** The rows of the whole world are updated in just this way. */
  lemma UpdatesAreTheWorlds(w: World, sid: Sid, n: int, sha: Digest, etag: ETag, size: int)
    requires sid in w.chunks
    ensures sid in UploadWorld.ClaimChunk(w, sid, n).chunks
            && UploadWorld.ClaimChunk(w, sid, n).chunks[sid] == Updated(w.chunks[sid], Claim(n))
    ensures sid in UploadWorld.MarkChunkRetry(w, sid, n).chunks
            && UploadWorld.MarkChunkRetry(w, sid, n).chunks[sid] == Updated(w.chunks[sid], Requeue(n))
    ensures sid in UploadWorld.MarkChunkDone(w, sid, n, sha, etag, size).chunks
            && UploadWorld.MarkChunkDone(w, sid, n, sha, etag, size).chunks[sid] == Updated(w.chunks[sid], Record(n, sha, etag, size))
  {
  }

  /**
   * DONE is absorbing under any sequence of the three updates, and a DONE row keeps its recorded part until another is
   * recorded.
   */
  lemma {:induction false} DoneStays(rows: seq<Chunk>, us: seq<Update>, n: nat)
    requires n < |rows| && rows[n].state.Done?
    ensures AfterAll(rows, us)[n].state.Done?
    ensures (forall u :: u in us ==> !u.Record?) ==> AfterAll(rows, us)[n] == rows[n]
  {
    if us != [] {
      DoneStays(rows, us[..|us| - 1], n);
    }
  }

  datatype ClaimResult = Acquired | AlreadyDone | Missing | UnexpectedState(state: ChunkState)

  class Table {
    var rows: seq<Chunk>

    constructor (rows: seq<Chunk>)
      ensures this.rows == rows
    {
      this.rows := rows;
    }

    method Interfere(us: seq<Update>)
      modifies this
      ensures rows == AfterAll(old(rows), us)
    {
      for i := 0 to |us|
        invariant rows == AfterAll(old(rows), us[..i])
      {
        assert us[..i + 1][..i] == us[..i];
        rows := Updated(rows, us[i]);
      }
      assert us[..|us|] == us;
    }

    /**
     * ClaimChunk: an UPDATE guarded by state <> DONE, and, when it touched no row, a SELECT to say why.
     * Whatever happens in between, the branch for an unexpected state is never taken.
     */
    method ClaimChunk(n: int, between: seq<Update>) returns (r: ClaimResult)
      modifies this
      ensures !r.UnexpectedState?
      ensures r == Missing <==> !(0 <= n < |old(rows)|)
      ensures r == AlreadyDone <==> 0 <= n < |old(rows)| && old(rows)[n].state.Done?
      ensures r == Acquired ==> rows == old(rows)[n := old(rows)[n].(state := Inflight)]
      ensures r != Acquired ==> rows == AfterAll(old(rows), between)
    {
      if 0 <= n < |rows| && !rows[n].state.Done? {
        rows := rows[n := rows[n].(state := Inflight)];
        return Acquired;
      }
      ghost var before := rows;
      Interfere(between);
      if !(0 <= n < |rows|) {
        return Missing;
      }
      var state := rows[n].state;
      DoneStays(before, between, n);
      if state.Done? {
        return AlreadyDone;
      }
      return UnexpectedState(state);
    }
  }
}
