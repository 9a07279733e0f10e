// The browser's engine against the whole upload service: PUTs travel to handlers,
// replies and chunk-map reads travel back and may arrive late, after a pause or a resync.
module UploadLink {
  import opened Basics
  import opened GoInt
  import opened ObjectStorage
  import opened UploadWorld
  import opened UploadHandlers
  import opened UploadInvariant
  import U = UploadSystem
  import E = UploadEngine

  // ---- server DONE is absorbing ----

  lemma CreateKeepsDone(w: World, tid: nat, pc: CreatePc, e: Env, sid: Sid, n: int)
    requires WorldInv(w) && LocalCreate(w, tid, pc) && ChunkIsDone(w, sid, n)
    ensures ChunkIsDone(CreateStep(w, tid, pc, e).0, sid, n)
  {
    assert sid in w.sessions;
    hide WorldInv, ValidCreate, NextSid;
  }

  lemma PutKeepsDone(w: World, pc: PutPc, e: Env, sid: Sid, n: int)
    requires ChunkIsDone(w, sid, n)
    ensures ChunkIsDone(PutStep(w, pc, e).0, sid, n)
  {
  }

  lemma CompleteKeepsRows(w: World, pc: CompletePc, e: Env)
    ensures CompleteStep(w, pc, e).0.chunks == w.chunks
  {
  }

  lemma CancelKeepsRows(w: World, pc: CancelPc, e: Env)
    ensures CancelStep(w, pc, e).0.chunks == w.chunks
  {
  }

  /** A DONE chunk row stays DONE under every step of every handler. */
  lemma StepKeepsDone(w: World, tid: nat, pc: Pc, e: Env, sid: Sid, n: int)
    requires WorldInv(w) && Local(w, tid, pc) && ChunkIsDone(w, sid, n)
    ensures ChunkIsDone(Step(w, tid, pc, e).0, sid, n)
  {
    hide WorldInv, ChunkIsDone, CreateStep, PutStep, CompleteStep, CancelStep, LocalCreate, LocalPut, LocalComplete;
    match pc
    case InCreate(c) => CreateKeepsDone(w, tid, c, e, sid, n);
    case InPut(p) => PutKeepsDone(w, p, e, sid, n);
    case InComplete(k) => CompleteKeepsRows(w, k, e); SameRows(w, CompleteStep(w, k, e).0, sid, n);
    case InCancel(x) => CancelKeepsRows(w, x, e); SameRows(w, CancelStep(w, x, e).0, sid, n);
  }

  lemma SameRows(w: World, w': World, sid: Sid, n: int)
    requires w.chunks == w'.chunks
    ensures ChunkIsDone(w, sid, n) == ChunkIsDone(w', sid, n)
  {
  }

  lemma NextKeepsDone(s: U.Sys, a: U.Action, sid: Sid, n: int)
    requires U.SysInv(s) && ChunkIsDone(s.w, sid, n)
    ensures ChunkIsDone(U.Next(s, a).w, sid, n)
  {
    hide WorldInv, ChunkIsDone, Step, Local;
    if a.Call? && a.tid in s.handlers {
      StepKeepsDone(s.w, a.tid, s.handlers[a.tid], a.e, sid, n);
    }
  }

  /** ... and so under every continuation of a run. */
  lemma {:induction false} DoneIsAbsorbing(s: U.Sys, run: seq<U.Action>, sid: Sid, n: int)
    requires U.SysInv(s) && ChunkIsDone(s.w, sid, n)
    ensures ChunkIsDone(U.Exec(s, run).w, sid, n)
    decreases |run|
  {
    if run != [] {
      U.NextKeeps(s, run[0]);
      NextKeepsDone(s, run[0], sid, n);
      DoneIsAbsorbing(U.Next(s, run[0]), run[1..], sid, n);
    }
  }

  // ---- what a PUT handler answers ----

  predicate Stored(pc: Pc)
  {
    pc == InPut(PutEnd(ChunkStored)) || pc == InPut(PutEnd(AlreadyDone))
  }

  /** The handler works on chunk n of the session, or has answered and told the truth. */
  predicate Serves(w: World, pc: Pc, sid: Sid, n: int)
  {
    && pc.InPut?
    && (pc.put.PutEnd? ==> Stored(pc) ==> ChunkIsDone(w, sid, n))
    && (!pc.put.PutEnd? ==> pc.put.sid == sid && pc.put.n == n)
    && (pc.put.Reject? ==> pc.put.why != ChunkStored && pc.put.why != AlreadyDone)
  }

  lemma PutStepServes(w: World, tid: nat, pc: Pc, e: Env, sid: Sid, n: int)
    requires Serves(w, pc, sid, n)
    ensures Serves(Step(w, tid, pc, e).0, Step(w, tid, pc, e).1, sid, n)
  {
  }

  // ---- the composed system ----

  /** `asked`: the chunk each PUT handler was asked for. `requests`: which handler a moveChunk waits on. */
  datatype Link = Link(
    engine: E.Engine, server: U.Sys, sid: Option<Sid>, asked: map<nat, nat>, requests: map<E.Wid, nat>,
    granted: set<nat>, seen: set<seq<bool>>)

  datatype Act =
    | Server(a: U.Action)                                              // any handler of any client
    | Send(wid: E.Wid, tid: nat, ws: string, length: int, want: Digest)  // a moveChunk's PUT arrives
    | Grant(tid: nat)                                                  // its 200 leaves
    | Read                                                             // a GET of the chunk map is answered
    | SessionOpened(sid: Sid, now: int)                                      // the create response reaches the engine
    | Client(ev: E.Event)

  function DoneMap(chunks: seq<Chunk>): (done: seq<bool>)
    ensures |done| == |chunks| && forall i :: 0 <= i < |done| ==> (done[i] <==> chunks[i].state.Done?)
  {
    seq(|chunks|, i requires 0 <= i < |chunks| => chunks[i].state.Done?)
  }

  /**
   * What an answer needs behind it: a stored PUT a 200 that left, a resync a chunk map that was read. The rest may just
   * happen.
   */
  predicate Justified(l: Link, ev: E.Event)
  {
    match ev
    case StartOk(_, _) => false
    case PutStored(wid, _) => wid in l.requests && l.requests[wid] in l.granted
    case FinishResync(done, _) => done in l.seen
    case ResumeResync(adopted, _) => adopted.Some? ==> adopted.value in l.seen
    case _ => true
  }

  function Move(l: Link, a: Act): Link
  {
    match a
    case Server(b) => if b.Arrive? && b.tid in l.asked then l else l.(server := U.Next(l.server, b))
    case Send(wid, tid, ws, length, want) =>
      if l.sid.None? || wid !in l.engine.board.workers || wid in l.requests || tid in l.asked || tid in l.server.handlers then l
      else
        var index := l.engine.board.workers[wid].index;
        l.(server := U.Next(l.server, U.Arrive(tid, InPut(PutStart(l.sid.value, ws, index, length, Some(want))))),
           asked := l.asked[tid := index], requests := l.requests[wid := tid])
    case Grant(tid) =>
      if tid in l.asked && tid in l.server.handlers && Stored(l.server.handlers[tid])
      then l.(granted := l.granted + {tid}) else l
    case Read =>
      if l.sid.Some? && l.sid.value in l.server.w.chunks
      then l.(seen := l.seen + {DoneMap(l.server.w.chunks[l.sid.value])}) else l
    case SessionOpened(sid, now) =>
      if l.sid.Some? || !l.engine.starting || sid !in l.server.w.chunks || |l.server.w.chunks[sid]| == 0 then l
      else l.(sid := Some(sid), engine := E.Step(l.engine, E.StartOk(|l.server.w.chunks[sid]|, now)))
    case Client(ev) => if Justified(l, ev) then l.(engine := E.Step(l.engine, ev)) else l
  }

  function Begin(chunkSize: int, maxObjectBytes: int): Link
  {
    Link(E.Init(), U.Boot(chunkSize, maxObjectBytes), None, map[], map[], {}, {})
  }

  function Run(chunkSize: int, maxObjectBytes: int, acts: seq<Act>): Link
  {
    if acts == [] then Begin(chunkSize, maxObjectBytes)
    else Move(Run(chunkSize, maxObjectBytes, acts[..|acts| - 1]), acts[|acts| - 1])
  }

  // ---- the simulation relation ----

  /** Chunk i of this client's session is DONE on the server. */
  predicate ServerDone(w: World, sid: Option<Sid>, i: nat)
  {
    sid.Some? && ChunkIsDone(w, sid.value, i)
  }

  ghost predicate EngineAgrees(engine: E.Engine, w: World, sid: Option<Sid>)
  {
    && (forall i :: 0 <= i < |engine.board.chunks| && engine.board.chunks[i] == E.Done ==> ServerDone(w, sid, i))
    && E.FreshWids(engine.board)
  }

  ghost predicate HandlersServe(server: U.Sys, sid: Option<Sid>, asked: map<nat, nat>)
  {
    forall t :: t in asked && t in server.handlers ==> sid.Some? && Serves(server.w, server.handlers[t], sid.value, asked[t])
  }

  ghost predicate GrantsTrue(l: Link)
  {
    forall t :: t in l.granted ==> t in l.asked && ServerDone(l.server.w, l.sid, l.asked[t])
  }

  ghost predicate RequestsFit(l: Link)
  {
    forall wid :: wid in l.requests ==>
      wid < l.engine.board.nextWid && l.requests[wid] in l.asked
      && (wid in l.engine.board.workers ==> l.engine.board.workers[wid].index == l.asked[l.requests[wid]])
  }

  ghost predicate ReadsTrue(seen: set<seq<bool>>, w: World, sid: Option<Sid>)
  {
    forall r, i :: r in seen && 0 <= i < |r| && r[i] ==> ServerDone(w, sid, i)
  }

  /** One cell per chunk row. */
  ghost predicate SameCells(engine: E.Engine, w: World, sid: Option<Sid>)
  {
    sid.Some? ==> sid.value in w.sessions && |engine.board.chunks| == w.sessions[sid.value].count
  }

  ghost predicate LinkInv(l: Link)
  {
    && U.SysInv(l.server) && EngineAgrees(l.engine, l.server.w, l.sid) && HandlersServe(l.server, l.sid, l.asked)
    && GrantsTrue(l) && RequestsFit(l) && ReadsTrue(l.seen, l.server.w, l.sid)
    && (l.sid.None? ==> l.engine.board.chunks == [] && l.asked == map[] && l.seen == {})
    && SameCells(l.engine, l.server.w, l.sid)
  }

  // ---- the steps ----

  lemma ServerMoveKeeps(l: Link, b: U.Action)
    requires LinkInv(l) && !(b.Arrive? && b.tid in l.asked)
    ensures LinkInv(l.(server := U.Next(l.server, b)))
  {
    hide U.SysInv, ChunkIsDone, Serves, Step;
    U.NextKeeps(l.server, b);
    var l' := l.(server := U.Next(l.server, b));
    forall i: nat | ServerDone(l.server.w, l.sid, i) ensures ServerDone(l'.server.w, l.sid, i) {
      NextKeepsDone(l.server, b, l.sid.value, i);
    }
    forall t | t in l'.asked && t in l'.server.handlers
      ensures l'.sid.Some? && Serves(l'.server.w, l'.server.handlers[t], l'.sid.value, l'.asked[t]) {
      assert Serves(l.server.w, l.server.handlers[t], l.sid.value, l.asked[t]);
      if b.Call? && b.tid == t {
        PutStepServes(l.server.w, t, l.server.handlers[t], b.e, l.sid.value, l.asked[t]);
      } else {
        if ChunkIsDone(l.server.w, l.sid.value, l.asked[t]) {
          NextKeepsDone(l.server, b, l.sid.value, l.asked[t]);
        }
        ServesStays(l.server.w, l'.server.w, l.server.handlers[t], l.sid.value, l.asked[t]);
      }
    }
  }

  lemma ServesStays(w: World, w': World, pc: Pc, sid: Sid, n: nat)
    requires Serves(w, pc, sid, n) && (ChunkIsDone(w, sid, n) ==> ChunkIsDone(w', sid, n))
    ensures Serves(w', pc, sid, n)
  {
  }

  lemma SendKeeps(l: Link, wid: E.Wid, tid: nat, ws: string, length: int, want: Digest)
    requires LinkInv(l) && l.sid.Some? && wid in l.engine.board.workers && wid !in l.requests
    requires tid !in l.asked && tid !in l.server.handlers
    ensures LinkInv(Move(l, Send(wid, tid, ws, length, want)))
  {
    hide U.SysInv, ChunkIsDone;
    var request := InPut(PutStart(l.sid.value, ws, l.engine.board.workers[wid].index, length, Some(want)));
    U.NextKeeps(l.server, U.Arrive(tid, request));
    assert IsStart(request);
    assert Serves(l.server.w, request, l.sid.value, l.engine.board.workers[wid].index);
  }

  lemma GrantKeeps(l: Link, tid: nat)
    requires LinkInv(l)
    ensures LinkInv(Move(l, Grant(tid)))
  {
    hide U.SysInv, ChunkIsDone;
  }

  lemma ReadKeeps(l: Link)
    requires LinkInv(l)
    ensures LinkInv(Move(l, Read))
  {
    hide U.SysInv;
  }

  lemma RowsHaveSessions(s: U.Sys)
    requires U.SysInv(s)
    ensures forall sid :: sid in s.w.chunks <==> sid in s.w.sessions
    ensures forall sid :: sid in s.w.chunks ==> |s.w.chunks[sid]| == s.w.sessions[sid].count
  {
  }

  lemma OpenedEngine(e: E.Engine, count: nat, now: int)
    requires e.starting && count > 0 && e.board.chunks == [] && E.FreshWids(e.board)
    ensures var r := E.Step(e, E.StartOk(count, now)).board;
            |r.chunks| == count && E.FreshWids(r) && r.nextWid >= e.board.nextWid
            && (forall i :: 0 <= i < count ==> r.chunks[i] != E.Done)
            && (forall w :: w in r.workers ==> w >= e.board.nextWid || (w in e.board.workers && r.workers[w] == e.board.workers[w]))
  {
    hide E.Apply;
    E.StepOnlyDone(e, E.StartOk(count, now));
    E.StepKeepsLength(e, E.StartOk(count, now));
  }

  lemma OpenedKeeps(l: Link, sid: Sid, now: int)
    requires LinkInv(l)
    ensures LinkInv(Move(l, SessionOpened(sid, now)))
  {
    RowsHaveSessions(l.server);
    hide U.SysInv, ChunkIsDone, E.Step, Serves;
    var l' := Move(l, SessionOpened(sid, now));
    if l' != l {
      OpenedEngine(l.engine, |l.server.w.chunks[sid]|, now);
      assert forall t :: t in l.granted ==> t in l.asked;
      assert l.granted == {};
    }
  }

  lemma ClientKeeps(l: Link, ev: E.Event)
    requires LinkInv(l) && Justified(l, ev)
    ensures LinkInv(l.(engine := E.Step(l.engine, ev)))
  {
    hide U.SysInv, ChunkIsDone, E.Apply, Serves;
    if E.Enabled(l.engine, ev) {
      E.StepOnlyDone(l.engine, ev);
      E.StepKeepsLength(l.engine, ev);
      MayBecomeDoneIsDone(l, ev);
      if l.sid.None? {
        NothingBeforeSession(l, ev);
      }
    }
  }

  lemma MayBecomeDoneIsDone(l: Link, ev: E.Event)
    requires LinkInv(l) && Justified(l, ev) && E.Enabled(l.engine, ev)
    ensures forall i :: i in E.MayBecomeDone(l.engine, ev) ==> ServerDone(l.server.w, l.sid, i)
  {
    hide U.SysInv, ChunkIsDone, Serves;
  }

  /** Until the create response arrives the engine has no cells. */
  lemma NothingBeforeSession(l: Link, ev: E.Event)
    requires l.engine.board.chunks == [] && Justified(l, ev) && l.seen == {} && E.Enabled(l.engine, ev)
    ensures E.Apply(l.engine, ev).board.chunks == []
  {
  }

  lemma MoveKeeps(l: Link, a: Act)
    requires LinkInv(l)
    ensures LinkInv(Move(l, a))
  {
    hide LinkInv, E.Step, Stored, Justified;
    match a
    case Server(b) => if !(b.Arrive? && b.tid in l.asked) { ServerMoveKeeps(l, b); }
    case Send(wid, tid, ws, length, want) =>
      if l.sid.Some? && wid in l.engine.board.workers && wid !in l.requests && tid !in l.asked && tid !in l.server.handlers {
        SendKeeps(l, wid, tid, ws, length, want);
      }
    case Grant(tid) => GrantKeeps(l, tid);
    case Read => ReadKeeps(l);
    case SessionOpened(sid, now) => OpenedKeeps(l, sid, now);
    case Client(ev) => if Justified(l, ev) { ClientKeeps(l, ev); }
  }

  lemma {:induction false} ReachableInv(chunkSize: int, maxObjectBytes: int, acts: seq<Act>)
    requires 0 < chunkSize <= MAX_INT64 && maxObjectBytes <= MAX_INT64
    ensures LinkInv(Run(chunkSize, maxObjectBytes, acts))
  {
    if acts == [] {
      U.ReachableInv(chunkSize, maxObjectBytes, []);
    } else {
      ReachableInv(chunkSize, maxObjectBytes, acts[..|acts| - 1]);
      MoveKeeps(Run(chunkSize, maxObjectBytes, acts[..|acts| - 1]), acts[|acts| - 1]);
    }
  }

  // ---- main results ----

  /**
   * DONE soundness: in every run, with pauses, resumes, resyncs, stale PUTs that return late and any other
   * handlers at work, a chunk the client shows DONE is DONE in the server's table.
   */
  lemma DoneIsSound(chunkSize: int, maxObjectBytes: int, acts: seq<Act>, i: nat)
    requires 0 < chunkSize <= MAX_INT64 && maxObjectBytes <= MAX_INT64
    requires var chunks := Run(chunkSize, maxObjectBytes, acts).engine.board.chunks; i < |chunks| && chunks[i] == E.Done
    ensures var l := Run(chunkSize, maxObjectBytes, acts); l.sid.Some? && ChunkIsDone(l.server.w, l.sid.value, i)
  {
    ReachableInv(chunkSize, maxObjectBytes, acts);
    assert ServerDone(Run(chunkSize, maxObjectBytes, acts).server.w, Run(chunkSize, maxObjectBytes, acts).sid, i);
  }

  /**
   * ... so whenever the engine's every cell is DONE, which is when it asks for completion, the
   * server's own completeness check is met: complete is never refused for missing chunks.
   */
  lemma CompleteIsNeverPremature(chunkSize: int, maxObjectBytes: int, acts: seq<Act>)
    requires 0 < chunkSize <= MAX_INT64 && maxObjectBytes <= MAX_INT64
    requires E.AllDone(Run(chunkSize, maxObjectBytes, acts).engine.board)
    ensures var l := Run(chunkSize, maxObjectBytes, acts);
            && l.sid.Some? && l.sid.value in l.server.w.chunks && l.sid.value in l.server.w.sessions
            && AllDone(l.server.w.chunks[l.sid.value])
            && |l.server.w.chunks[l.sid.value]| == l.server.w.sessions[l.sid.value].count
  {
    ReachableInv(chunkSize, maxObjectBytes, acts);
    var l := Run(chunkSize, maxObjectBytes, acts);
    RowsHaveSessions(l.server);
    var rows := l.server.w.chunks[l.sid.value];
    forall i | 0 <= i < |rows| ensures rows[i].state.Done? && rows[i].etag.Some? {
      assert ServerDone(l.server.w, l.sid, i);
      assert DoneOk(rows[i], l.sid.value, i, l.server.w.verified);
    }
  }

  lemma RunAppends(chunkSize: int, maxObjectBytes: int, acts: seq<Act>, a: Act)
    ensures Run(chunkSize, maxObjectBytes, acts + [a]) == Move(Run(chunkSize, maxObjectBytes, acts), a)
  {
    assert (acts + [a])[..|acts|] == acts;
  }

  /** Every row of the session is DONE, one for each chunk. */
  ghost predicate ReadyAt(w: World, sid: Sid)
  {
    && sid in w.sessions && sid in w.chunks && |w.chunks[sid]| == w.sessions[sid].count
    && forall n :: 0 <= n < |w.chunks[sid]| ==> ChunkIsDone(w, sid, n)
  }

  ghost predicate Ready(l: Link, sid: Sid)
  {
    l.sid == Some(sid) && ReadyAt(l.server.w, sid)
  }

  lemma NextKeepsReady(s: U.Sys, b: U.Action, sid: Sid)
    requires U.SysInv(s) && ReadyAt(s.w, sid)
    ensures ReadyAt(U.Next(s, b).w, sid)
  {
    U.NextKeeps(s, b);
    RowsHaveSessions(s);
    RowsHaveSessions(U.Next(s, b));
    hide U.SysInv, ChunkIsDone, U.Next;
    var w, w' := s.w, U.Next(s, b).w;
    forall n | 0 <= n < |w.chunks[sid]| ensures ChunkIsDone(w', sid, n) {
      NextKeepsDone(s, b, sid, n);
    }
  }

  lemma MoveKeepsReady(l: Link, a: Act, sid: Sid)
    requires LinkInv(l) && Ready(l, sid)
    ensures Ready(Move(l, a), sid)
  {
    assert U.SysInv(l.server);
    hide LinkInv, ReadyAt, U.SysInv, U.Next, DoneMap, E.Step, Stored, Justified;
    match a
    case Server(b) => NextKeepsReady(l.server, b, sid);
    case Send(wid, tid, ws, length, want) =>
      if wid in l.engine.board.workers {
        var index := l.engine.board.workers[wid].index;
        NextKeepsReady(l.server, U.Arrive(tid, InPut(PutStart(sid, ws, index, length, Some(want)))), sid);
      }
    case _ =>
  }

  lemma {:induction false} StaysReady(chunkSize: int, maxObjectBytes: int, acts: seq<Act>, more: seq<Act>, sid: Sid)
    requires 0 < chunkSize <= MAX_INT64 && maxObjectBytes <= MAX_INT64
    requires Ready(Run(chunkSize, maxObjectBytes, acts), sid)
    ensures Ready(Run(chunkSize, maxObjectBytes, acts + more), sid)
    decreases |more|
  {
    hide Run, Ready, Move;
    if more == [] {
      assert acts + more == acts;
    } else {
      var front, a := more[..|more| - 1], more[|more| - 1];
      StaysReady(chunkSize, maxObjectBytes, acts, front, sid);
      assert acts + more == (acts + front) + [a];
      RunAppends(chunkSize, maxObjectBytes, acts + front, a);
      ReachableInv(chunkSize, maxObjectBytes, acts + front);
      hide LinkInv;
      MoveKeepsReady(Run(chunkSize, maxObjectBytes, acts + front), a, sid);
    }
  }

  lemma ReadyIsAllDone(w: World, sid: Sid)
    requires WorldInv(w) && ReadyAt(w, sid)
    ensures AllDone(w.chunks[sid])
  {
    forall n | 0 <= n < |w.chunks[sid]| ensures w.chunks[sid][n].state.Done? && w.chunks[sid][n].etag.Some? {
      assert ChunkIsDone(w, sid, n) && DoneOk(w.chunks[sid][n], sid, n, w.verified);
    }
  }

  lemma AssemblyRefusesNothing(w: World, pc: CompletePc, e: Env)
    requires !pc.CompleteEnd?
    ensures AssembleStep(w, pc, e).1 != CompleteEnd(UploadIncomplete)
    ensures AssembleStep(w, pc, e).1 != CompleteEnd(SessionCancelled)
  {
  }

  /** No step of a complete request answers that chunks are missing, or that the session is cancelled when it is not. */
  lemma ReadyStep(w: World, pc: CompletePc, e: Env, sid: Sid)
    requires WorldInv(w) && ReadyAt(w, sid) && LocalComplete(w, pc) && !pc.CompleteEnd? && pc.sid == sid
    ensures CompleteStep(w, pc, e).1 != CompleteEnd(UploadIncomplete)
    ensures CompleteStep(w, pc, e).1 == CompleteEnd(SessionCancelled) ==> w.sessions[sid].state.Cancelled?
  {
    ReadyIsAllDone(w, sid);
    AssemblyRefusesNothing(w, pc, e);
    hide AllDone, AssembleStep, WorldInv, ChunkIsDone;
  }

  /**
   * Once an engine's every cell is DONE, no complete request on its session is refused for missing chunks, at any of
   * its steps, then or later, whatever else the engine, its PUTs and the other handlers do; and one is refused as
   * cancelled only while the session is.
   */
  lemma ConflictMeansCancelled(
      chunkSize: int, maxObjectBytes: int, acts: seq<Act>, more: seq<Act>, tid: nat, e: Env)
    requires 0 < chunkSize <= MAX_INT64 && maxObjectBytes <= MAX_INT64
    requires E.AllDone(Run(chunkSize, maxObjectBytes, acts).engine.board)
    ensures var sid := Run(chunkSize, maxObjectBytes, acts).sid;
      var s := Run(chunkSize, maxObjectBytes, acts + more).server;
      && sid.Some? && sid.value in s.w.sessions
      && (tid in s.handlers && s.handlers[tid].InComplete? && !s.handlers[tid].complete.CompleteEnd?
          && s.handlers[tid].complete.sid == sid.value ==>
            var pc := CompleteStep(s.w, s.handlers[tid].complete, e).1;
            && pc != CompleteEnd(UploadIncomplete)
            && (pc == CompleteEnd(SessionCancelled) ==> s.w.sessions[sid.value].state.Cancelled?))
  {
    CompleteIsNeverPremature(chunkSize, maxObjectBytes, acts);
    var sid := Run(chunkSize, maxObjectBytes, acts).sid.value;
    assert Ready(Run(chunkSize, maxObjectBytes, acts), sid);
    StaysReady(chunkSize, maxObjectBytes, acts, more, sid);
    ReachableInv(chunkSize, maxObjectBytes, acts + more);
    var l := Run(chunkSize, maxObjectBytes, acts + more);
    assert U.SysInv(l.server);
    hide Run, LinkInv, CompleteStep, AllDone, ReadyAt, WorldInv, LocalComplete;
    if tid in l.server.handlers && l.server.handlers[tid].InComplete? && !l.server.handlers[tid].complete.CompleteEnd?
      && l.server.handlers[tid].complete.sid == sid {
      assert Local(l.server.w, tid, l.server.handlers[tid]);
      ReadyStep(l.server.w, l.server.handlers[tid].complete, e, sid);
    }
  }

  /** Conflict, read, resync, as moves of the composed system. */
  lemma RoundOnEngine(l: Link, now: int)
    requires l.sid.Some? && l.sid.value in l.server.w.chunks
    ensures var done := DoneMap(l.server.w.chunks[l.sid.value]);
      Move(Move(Move(l, Client(E.CompleteConflict)), Read), Client(E.FinishResync(done, now))).engine
        == E.Step(E.Step(l.engine, E.CompleteConflict), E.FinishResync(done, now))
  {
    hide E.Step, DoneMap;
  }

  lemma RunAppendsRound(chunkSize: int, maxObjectBytes: int, acts: seq<Act>, a: Act, b: Act, c: Act)
    ensures Run(chunkSize, maxObjectBytes, acts + [a] + [b] + [c])
         == Move(Move(Move(Run(chunkSize, maxObjectBytes, acts), a), b), c)
  {
    hide Run, Move;
    RunAppends(chunkSize, maxObjectBytes, acts, a);
    RunAppends(chunkSize, maxObjectBytes, acts + [a], b);
    RunAppends(chunkSize, maxObjectBytes, acts + [a] + [b], c);
  }

  lemma AllRowsDone(rows: seq<Chunk>)
    requires AllDone(rows)
    ensures forall i :: 0 <= i < |rows| ==> DoneMap(rows)[i]
  {
  }

  lemma CellsMatchRows(l: Link)
    requires LinkInv(l) && l.sid.Some? && l.sid.value in l.server.w.chunks
    ensures |l.server.w.chunks[l.sid.value]| == |l.engine.board.chunks|
  {
    RowsHaveSessions(l.server);
  }

  /**
   * The livelock behind a cancelled session: when its completion is refused, the engine resyncs, finds every chunk
   * still DONE, and asks again; three moves later it is exactly where it was.
   */
  lemma RefusedCompletionLoops(chunkSize: int, maxObjectBytes: int, acts: seq<Act>, now: int)
    requires 0 < chunkSize <= MAX_INT64 && maxObjectBytes <= MAX_INT64
    requires var e := Run(chunkSize, maxObjectBytes, acts).engine;
      e.state == E.Verifying && e.awaited.completes > 0 && E.AllDone(e.board)
    ensures var l := Run(chunkSize, maxObjectBytes, acts);
      && l.sid.Some? && l.sid.value in l.server.w.chunks
      && var done := DoneMap(l.server.w.chunks[l.sid.value]);
         var round := acts + [Client(E.CompleteConflict)] + [Read] + [Client(E.FinishResync(done, now))];
         var resting := l.engine.board.streams == E.IDLE && !l.engine.disposed && now >= l.engine.parkedUntil;
         (Run(chunkSize, maxObjectBytes, round).engine == l.engine <==> resting)
  {
    CompleteIsNeverPremature(chunkSize, maxObjectBytes, acts);
    ReachableInv(chunkSize, maxObjectBytes, acts);
    hide Run, Move, E.Step, LinkInv, E.AllDone, AllDone, DoneMap;
    var l := Run(chunkSize, maxObjectBytes, acts);
    CellsMatchRows(l);
    AllRowsDone(l.server.w.chunks[l.sid.value]);
    var done := DoneMap(l.server.w.chunks[l.sid.value]);
    E.ConflictLoopIff(l.engine, done, now);
    RoundOnEngine(l, now);
    RunAppendsRound(chunkSize, maxObjectBytes, acts, Client(E.CompleteConflict), Read, Client(E.FinishResync(done, now)));
  }
}
