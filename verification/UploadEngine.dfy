// The browser's transfer engine (packages/console/src/upload/engine.ts). Code
// between two awaits is one atomic step; what is awaited (a PUT, a timer, a
// complete call, a resync) is an item still to come, and any of them may come next.
module UploadEngine {
  import opened Basics

  const MAX_PARALLEL: nat := 8
  const MAX_CHUNK_ATTEMPTS: nat := 5

  type Wid = nat

  datatype EngineState = Uploading | Paused | Errored | Verifying | HasLanded | Canceled

  datatype ChunkState = Pending | Inflight | Done | Retry

  /** One moveChunk call that has not returned. */
  datatype Worker = Worker(slot: nat, index: nat)

  /** chunkStates, streams, and the moveChunk calls in progress. */
  datatype Board = Board(chunks: seq<ChunkState>, streams: seq<Option<nat>>, workers: map<Wid, Worker>, nextWid: Wid)

  /** What the event loop still owes: setTimeout callbacks and awaited calls. */
  datatype Awaited = Awaited(pumpTimers: nat, resumeTimers: nat, completes: nat, finishResyncs: nat, resumeResyncs: nat)

  datatype Engine = Engine(
    state: EngineState, disposed: bool, starting: bool, started: bool, aborted: bool, board: Board,
    attempts: map<nat, nat>, parkedUntil: int, landedCalls: nat, awaited: Awaited)

  const IDLE: seq<Option<nat>> := [None, None, None, None, None, None, None, None]

  // ---- the slots ----

  predicate Claimable(c: ChunkState) { c == Pending || c == Retry }

  /** claimNext: the first chunk that is pending or up for retry. */
  function NextChunk(chunks: seq<ChunkState>, from: nat): (i: Option<nat>)
    requires from <= |chunks|
    ensures i.Some? ==> from <= i.value < |chunks| && (chunks[i.value] == Pending || chunks[i.value] == Retry)
    ensures i.Some? ==> forall k :: from <= k < i.value ==> chunks[k] == Inflight || chunks[k] == Done
    ensures i.None? ==> forall k :: from <= k < |chunks| ==> chunks[k] == Inflight || chunks[k] == Done
    decreases |chunks| - from
  {
    if from == |chunks| then None
    else if Claimable(chunks[from]) then Some(from)
    else NextChunk(chunks, from + 1)
  }

  function Launch(b: Board, slot: nat, index: nat): Board
    requires slot < |b.streams| && index < |b.chunks|
  {
    Board(b.chunks[index := Inflight], b.streams[slot := Some(index)], b.workers[b.nextWid := Worker(slot, index)], b.nextWid + 1)
  }

  /** The slot loop of pump, from slot s on. */
  function Fill(b: Board, s: nat): (r: Board)
    requires s <= |b.streams|
    ensures |r.streams| == |b.streams| && |r.chunks| == |b.chunks|
    decreases |b.streams| - s
  {
    if s == |b.streams| then b
    else if b.streams[s].Some? then Fill(b, s + 1)
    else
      var next := NextChunk(b.chunks, 0);
      if next.None? then b else Fill(Launch(b, s, next.value), s + 1)
  }

  predicate AllIdle(b: Board)
  {
    forall s :: 0 <= s < |b.streams| ==> b.streams[s].None?
  }

  predicate AllDone(b: Board)
  {
    |b.chunks| > 0 && forall i :: 0 <= i < |b.chunks| ==> b.chunks[i] == Done
  }

  /** A worker that returns gives its slot back and says what became of its chunk. */
  function Return(b: Board, wid: Wid, c: ChunkState): Board
    requires wid in b.workers && b.workers[wid].slot < |b.streams| && b.workers[wid].index < |b.chunks|
  {
    var w := b.workers[wid];
    Board(b.chunks[w.index := c], b.streams[w.slot := None], b.workers - {wid}, b.nextWid)
  }

  function Reverted(chunks: seq<ChunkState>): seq<ChunkState>
  {
    seq(|chunks|, i requires 0 <= i < |chunks| => if chunks[i] == Inflight then Pending else chunks[i])
  }

  /** resyncFromServer's map: the server is trusted for DONE only. */
  function Adopted(done: seq<bool>): seq<ChunkState>
  {
    seq(|done|, i requires 0 <= i < |done| => if done[i] then Done else Pending)
  }

  function AllPending(count: nat): seq<ChunkState>
  {
    seq(count, _ => Pending)
  }

  // ---- the steps ----

  function Init(): Engine
  {
    Engine(Uploading, false, true, false, false, Board([], IDLE, map[], 0), map[], 0, 0, Awaited(0, 0, 0, 0, 0))
  }

  function Finish(e: Engine): Engine
  {
    if e.state == Verifying || e.state == HasLanded then e
    else e.(state := Verifying, awaited := e.awaited.(completes := e.awaited.completes + 1))
  }

  function Pump(e: Engine, now: int): (r: Engine)
    ensures |r.board.chunks| == |e.board.chunks| && r.parkedUntil == e.parkedUntil && r.attempts == e.attempts
  {
    if e.state != Uploading || e.disposed then e
    else if now < e.parkedUntil then e.(awaited := e.awaited.(pumpTimers := e.awaited.pumpTimers + 1))
    else
      var filled := e.(board := Fill(e.board, 0));
      if AllIdle(filled.board) && AllDone(filled.board) then Finish(filled) else filled
  }

  function Revert(e: Engine): Engine
  {
    e.(board := e.board.(chunks := Reverted(e.board.chunks), streams := IDLE))
  }

  function Failed(e: Engine): Engine
  {
    Revert(e.(state := Errored))
  }

  function EnterError(e: Engine): Engine
  {
    var r := Failed(e);
    r.(awaited := r.awaited.(resumeTimers := r.awaited.resumeTimers + 1))
  }

  function Attempts(e: Engine, index: nat): nat
  {
    if index in e.attempts then e.attempts[index] else 0
  }

  predicate Known(e: Engine, wid: Wid)
  {
    && wid in e.board.workers
    && e.board.workers[wid].slot < |e.board.streams| && e.board.workers[wid].index < |e.board.chunks|
  }

  function ChunkStored(e: Engine, wid: Wid, now: int): Engine
    requires Known(e, wid)
  {
    Pump(e.(board := Return(e.board, wid, Done)), now)
  }

  function Saturated(e: Engine, wid: Wid, now: int, retryAfter: int): Engine
    requires Known(e, wid)
  {
    Pump(e.(board := Return(e.board, wid, Pending), parkedUntil := now + retryAfter), now)
  }

  /** The catch of moveChunk. It looks at the controller of the moment, not the one its PUT was sent with. */
  function ChunkFailed(e: Engine, wid: Wid, transport: bool, now: int): Engine
    requires Known(e, wid)
  {
    var w := e.board.workers[wid];
    if e.aborted then e.(board := e.board.(workers := e.board.workers - {wid}))
    else
      var n := Attempts(e, w.index) + 1;
      var counted := e.(attempts := e.attempts[w.index := n]);
      if n >= MAX_CHUNK_ATTEMPTS then
        var freed := counted.(board := Return(e.board, wid, e.board.chunks[w.index]));
        if transport then EnterError(freed) else Failed(freed)
      else Pump(counted.(board := Return(e.board, wid, Retry)), now)
  }

  function Resynced(e: Engine, done: Option<seq<bool>>): Engine
  {
    if done.None? then e else e.(board := e.board.(chunks := Adopted(done.value), streams := IDLE))
  }

  datatype Event =
    | StartOk(count: nat, now: int)
    | StartRefused                                       // createUpload failed, or its answer is incoherent
    | PutStored(wid: Wid, now: int)
    | PutSaturated(wid: Wid, now: int, retryAfter: int)
    | PutFailed(wid: Wid, transport: bool, now: int)
    | PumpTimer(now: int)
    | ResumeTimer
    | CompleteOk
    | CompleteConflict
    | CompleteFailed
    | FinishResync(done: seq<bool>, now: int)
    | FinishResyncFailed
    | ResumeResync(adopted: Option<seq<bool>>, now: int) // None: there was no session to fetch yet
    | ResumeResyncFailed
    | Pause
    | Resume
    | Cancel
    | Dispose

  function Resumes(e: Engine): Engine
  {
    if e.state == Paused || e.state == Errored
    then e.(awaited := e.awaited.(resumeResyncs := e.awaited.resumeResyncs + 1)) else e
  }

  /** The event can happen now: what it answers was asked. The server's chunk count never changes. */
  predicate Enabled(e: Engine, ev: Event)
  {
    match ev
    case StartOk(count, _) => e.starting && count > 0
    case StartRefused => e.starting
    case PutStored(wid, _) => Known(e, wid)
    case PutSaturated(wid, _, _) => Known(e, wid)
    case PutFailed(wid, _, _) => Known(e, wid)
    case PumpTimer(_) => e.awaited.pumpTimers > 0
    case ResumeTimer => e.awaited.resumeTimers > 0
    case CompleteOk => e.awaited.completes > 0
    case CompleteConflict => e.awaited.completes > 0
    case CompleteFailed => e.awaited.completes > 0
    case FinishResync(done, _) => e.awaited.finishResyncs > 0 && |done| == |e.board.chunks|
    case FinishResyncFailed => e.awaited.finishResyncs > 0
    case ResumeResync(done, _) =>
      e.awaited.resumeResyncs > 0 && (done.Some? ==> e.started && |done.value| == |e.board.chunks|)
    case ResumeResyncFailed => e.awaited.resumeResyncs > 0
    case _ => true
  }

  function Apply(e: Engine, ev: Event): Engine
    requires Enabled(e, ev)
  {
    var a := e.awaited;
    match ev
    case StartOk(count, now) =>
      Pump(e.(starting := false, started := true, board := e.board.(chunks := AllPending(count))), now)
    case StartRefused => Failed(e.(starting := false))
    case PutStored(wid, now) => ChunkStored(e, wid, now)
    case PutSaturated(wid, now, retryAfter) => Saturated(e, wid, now, retryAfter)
    case PutFailed(wid, transport, now) => ChunkFailed(e, wid, transport, now)
    case PumpTimer(now) => Pump(e.(awaited := a.(pumpTimers := a.pumpTimers - 1)), now)
    case ResumeTimer =>
      var e1 := e.(awaited := a.(resumeTimers := a.resumeTimers - 1));
      if e1.state == Errored && !e1.disposed then Resumes(e1) else e1
    case CompleteOk =>
      e.(state := HasLanded, landedCalls := e.landedCalls + 1, awaited := a.(completes := a.completes - 1))
    case CompleteConflict =>
      e.(awaited := a.(completes := a.completes - 1, finishResyncs := a.finishResyncs + 1))
    case CompleteFailed => Failed(e.(awaited := a.(completes := a.completes - 1)))
    case FinishResync(done, now) =>
      Pump(Resynced(e, Some(done)).(state := Uploading, awaited := a.(finishResyncs := a.finishResyncs - 1)), now)
    case FinishResyncFailed => e.(awaited := a.(finishResyncs := a.finishResyncs - 1))
    case ResumeResync(done, now) =>
      Pump(Resynced(e, done).(state := Uploading, awaited := a.(resumeResyncs := a.resumeResyncs - 1)), now)
    case ResumeResyncFailed => Failed(e.(awaited := a.(resumeResyncs := a.resumeResyncs - 1)))
    case Pause => if e.state == Uploading then Revert(e.(state := Paused, aborted := false)) else e
    case Resume => Resumes(e)
    case Cancel => e.(state := Canceled, disposed := true, aborted := true)
    case Dispose => e.(disposed := true, aborted := true)
  }

  function Step(e: Engine, ev: Event): Engine
  {
    if Enabled(e, ev) then Apply(e, ev) else e
  }

  function Run(events: seq<Event>): Engine
  {
    if events == [] then Init() else Step(Run(events[..|events| - 1]), events[|events| - 1])
  }

  /** A run without a pause in which the session never entered the error state. */
  predicate Calm(events: seq<Event>)
  {
    if events == [] then true
    else Calm(events[..|events| - 1]) && !events[|events| - 1].Pause? && Run(events).state != Errored
  }

  // ---- slot discipline ----

  /** Busy slots and INFLIGHT chunks are in bijection. */
  ghost predicate SlotsMatch(b: Board)
  {
    && |b.streams| == MAX_PARALLEL
    && (forall s :: 0 <= s < |b.streams| && b.streams[s].Some? ==>
          b.streams[s].value < |b.chunks| && b.chunks[b.streams[s].value] == Inflight)
    && (forall s, t :: 0 <= s < t < |b.streams| && b.streams[s].Some? && b.streams[t].Some? ==>
          b.streams[s].value != b.streams[t].value)
    && (forall i :: 0 <= i < |b.chunks| && b.chunks[i] == Inflight ==> HasSlot(b, i))
  }

  ghost predicate HasSlot(b: Board, i: nat)
  {
    exists s :: 0 <= s < |b.streams| && b.streams[s] == Some(i)
  }

  /** Every PUT in progress owns its slot. */
  ghost predicate WorkersOwnSlots(b: Board)
  {
    && (forall w :: w in b.workers ==>
          w < b.nextWid && b.workers[w].slot < |b.streams| && b.streams[b.workers[w].slot] == Some(b.workers[w].index))
    && (forall v, w :: v in b.workers && w in b.workers && v != w ==> b.workers[v].slot != b.workers[w].slot)
  }

  ghost predicate HasWorker(b: Board, s: nat)
  {
    exists w :: w in b.workers && b.workers[w].slot == s
  }

  /** ... and until the engine is aborted, every busy slot has a PUT behind it. */
  ghost predicate SlotsHaveWorkers(b: Board)
  {
    forall s :: 0 <= s < |b.streams| && b.streams[s].Some? ==> HasWorker(b, s)
  }

  ghost predicate BoardOk(b: Board, aborted: bool)
  {
    SlotsMatch(b) && WorkersOwnSlots(b) && (!aborted ==> SlotsHaveWorkers(b))
  }

  lemma LaunchKeepsSlots(b: Board, s: nat, i: nat)
    requires SlotsMatch(b) && s < |b.streams| && b.streams[s].None?
    requires i < |b.chunks| && Claimable(b.chunks[i])
    ensures SlotsMatch(Launch(b, s, i))
  {
    var r := Launch(b, s, i);
    forall j | 0 <= j < |r.chunks| && r.chunks[j] == Inflight ensures HasSlot(r, j) {
      if j == i {
        assert r.streams[s] == Some(j);
      } else {
        assert HasSlot(b, j);
        var t :| 0 <= t < |b.streams| && b.streams[t] == Some(j);
        assert r.streams[t] == Some(j);
      }
    }
  }

  lemma LaunchKeepsWorkers(b: Board, s: nat, i: nat)
    requires WorkersOwnSlots(b) && s < |b.streams| && b.streams[s].None? && i < |b.chunks|
    ensures WorkersOwnSlots(Launch(b, s, i))
  {
    assert forall w :: w in b.workers ==> b.workers[w].slot != s;
  }

  lemma LaunchKeepsCover(b: Board, s: nat, i: nat)
    requires WorkersOwnSlots(b) && SlotsHaveWorkers(b) && s < |b.streams| && i < |b.chunks|
    ensures SlotsHaveWorkers(Launch(b, s, i))
  {
    var r := Launch(b, s, i);
    forall t | 0 <= t < |r.streams| && r.streams[t].Some? ensures HasWorker(r, t) {
      if t == s {
        assert r.workers[b.nextWid].slot == t;
      } else {
        assert HasWorker(b, t);
        var w :| w in b.workers && b.workers[w].slot == t;
        assert w in r.workers && r.workers[w].slot == t;
      }
    }
  }

  lemma LaunchKeeps(b: Board, s: nat, i: nat, aborted: bool)
    requires BoardOk(b, aborted) && s < |b.streams| && b.streams[s].None?
    requires i < |b.chunks| && Claimable(b.chunks[i])
    ensures BoardOk(Launch(b, s, i), aborted)
  {
    LaunchKeepsSlots(b, s, i);
    LaunchKeepsWorkers(b, s, i);
    if !aborted {
      LaunchKeepsCover(b, s, i);
    }
  }

  /** No chunk is left to claim. */
  predicate NothingClaimable(b: Board)
  {
    forall i :: 0 <= i < |b.chunks| ==> !Claimable(b.chunks[i])
  }

  predicate BusyFrom(b: Board, s: nat)
  {
    forall t :: s <= t < |b.streams| ==> b.streams[t].Some?
  }

  lemma {:induction false} FillKeeps(b: Board, s: nat, aborted: bool)
    requires BoardOk(b, aborted) && s <= |b.streams|
    ensures BoardOk(Fill(b, s), aborted)
    ensures NothingClaimable(Fill(b, s)) || BusyFrom(Fill(b, s), s)
    ensures forall t :: 0 <= t < |b.streams| && b.streams[t].Some? ==> Fill(b, s).streams[t] == b.streams[t]
    ensures forall i :: 0 <= i < |b.chunks| ==> (Fill(b, s).chunks[i] == Done <==> b.chunks[i] == Done)
    decreases |b.streams| - s
  {
    hide BoardOk, NextChunk;
    FillBounds(b, s);
    if s < |b.streams| {
      if b.streams[s].Some? {
        FillKeeps(b, s + 1, aborted);
      } else {
        var next := NextChunk(b.chunks, 0);
        if next.Some? {
          LaunchKeeps(b, s, next.value, aborted);
          FillKeeps(Launch(b, s, next.value), s + 1, aborted);
        }
      }
    }
  }

  lemma FillBounds(b: Board, s: nat)
    ensures s <= |b.streams| ==> (NextChunk(b.chunks, 0).None? ==> NothingClaimable(b))
  {
  }

  lemma ReturnKeepsSlots(b: Board, wid: Wid, c: ChunkState)
    requires SlotsMatch(b) && WorkersOwnSlots(b) && wid in b.workers && c != Inflight
    ensures SlotsMatch(Return(b, wid, c))
  {
    var r, w := Return(b, wid, c), b.workers[wid];
    forall j | 0 <= j < |r.chunks| && r.chunks[j] == Inflight ensures HasSlot(r, j) {
      assert HasSlot(b, j);
      var t :| 0 <= t < |b.streams| && b.streams[t] == Some(j);
      assert r.streams[t] == Some(j);
    }
  }

  lemma ReturnKeepsWorkers(b: Board, wid: Wid, c: ChunkState)
    requires SlotsMatch(b) && WorkersOwnSlots(b) && wid in b.workers
    ensures WorkersOwnSlots(Return(b, wid, c))
  {
  }

  lemma ReturnKeepsCover(b: Board, wid: Wid, c: ChunkState)
    requires SlotsMatch(b) && WorkersOwnSlots(b) && SlotsHaveWorkers(b) && wid in b.workers
    ensures SlotsHaveWorkers(Return(b, wid, c))
  {
    var r := Return(b, wid, c);
    forall t | 0 <= t < |r.streams| && r.streams[t].Some? ensures HasWorker(r, t) {
      assert HasWorker(b, t);
      var v :| v in b.workers && b.workers[v].slot == t;
      assert v in r.workers && r.workers[v].slot == t;
    }
  }

  lemma ReturnKeeps(b: Board, wid: Wid, c: ChunkState, aborted: bool)
    requires BoardOk(b, aborted) && wid in b.workers && c != Inflight
    ensures BoardOk(Return(b, wid, c), aborted)
  {
    ReturnKeepsSlots(b, wid, c);
    ReturnKeepsWorkers(b, wid, c);
    if !aborted {
      ReturnKeepsCover(b, wid, c);
    }
  }

  lemma DropKeeps(b: Board, wid: Wid)
    requires BoardOk(b, true)
    ensures BoardOk(b.(workers := b.workers - {wid}), true)
  {
    assert forall j :: HasSlot(b, j) ==> HasSlot(b.(workers := b.workers - {wid}), j);
  }

  lemma IdleBoardOk(chunks: seq<ChunkState>, nextWid: Wid, aborted: bool)
    requires forall i :: 0 <= i < |chunks| ==> chunks[i] != Inflight
    ensures BoardOk(Board(chunks, IDLE, map[], nextWid), aborted)
  {
  }

  /** Idle slots mean nothing is INFLIGHT and no PUT is in progress. */
  lemma IdleMeansNoWork(b: Board, aborted: bool)
    requires BoardOk(b, aborted) && AllIdle(b)
    ensures b.streams == IDLE && b.workers == map[]
    ensures forall i :: 0 <= i < |b.chunks| ==> b.chunks[i] != Inflight
  {
    assert forall i :: !HasSlot(b, i);
    assert forall w :: w !in b.workers;
  }

  /** One complete request, its resync, or the landing: at most one of them, once, and only outside uploading. */
  ghost predicate CompletesOk(e: Engine)
  {
    && e.awaited.completes + e.awaited.finishResyncs + e.landedCalls <= 1
    && (e.state == Uploading ==> e.awaited.completes + e.awaited.finishResyncs + e.landedCalls == 0)
    && (e.awaited.completes + e.awaited.finishResyncs + e.landedCalls > 0 ==> AllIdle(e.board))
    && (e.state == Verifying || e.state == HasLanded ==> AllIdle(e.board))
  }

  ghost predicate QuietOk(e: Engine)
  {
    && e.state != Errored && e.state != Paused
    && e.awaited.resumeResyncs == 0 && e.awaited.resumeTimers == 0
    && (forall i :: i in e.attempts ==> e.attempts[i] < MAX_CHUNK_ATTEMPTS)
    && (e.starting ==> !e.started) && (e.started ==> |e.board.chunks| > 0) && (!e.started ==> AllIdle(e.board))
    && (!e.started ==> e.awaited.completes + e.awaited.finishResyncs + e.landedCalls == 0 && e.board.chunks == [])
    && (e.aborted ==> e.disposed)
  }

  /** An uploading engine with no busy slot has a timer that will pump it. */
  ghost predicate NeverStalls(e: Engine)
  {
    e.state == Uploading && e.started && !e.disposed && AllIdle(e.board) ==> e.awaited.pumpTimers > 0
  }

  ghost predicate Disciplined(e: Engine)
  {
    BoardOk(e.board, e.aborted) && CompletesOk(e) && QuietOk(e) && NeverStalls(e)
  }

  /** Pump needs everything but the timer, and provides it. */
  lemma PumpKeeps(e: Engine, now: int)
    requires BoardOk(e.board, e.aborted) && CompletesOk(e) && QuietOk(e)
    requires e.state == Uploading ==> e.started
    ensures Disciplined(Pump(e, now)) || e.state == Verifying || e.state == HasLanded || e.state == Canceled
    ensures e.state != Uploading || e.disposed ==> Pump(e, now) == e
  {
    hide BoardOk;
    if e.state == Uploading && !e.disposed && now >= e.parkedUntil {
      BoardStreams(e.board, e.aborted);
      FillKeeps(e.board, 0, e.aborted);
      var filled := Fill(e.board, 0);
      if AllIdle(filled) {
        IdleMeansNoWork(filled, e.aborted);
        DoneIfNothingLeft(filled);
      }
    }
  }

  lemma BoardStreams(b: Board, aborted: bool)
    requires BoardOk(b, aborted)
    ensures |b.streams| == MAX_PARALLEL
    ensures forall w :: w in b.workers ==> b.workers[w].slot < |b.streams| && b.workers[w].index < |b.chunks|
  {
  }

  lemma DoneIfNothingLeft(b: Board)
    requires NothingClaimable(b) || (BusyFrom(b, 0) && |b.streams| > 0)
    requires AllIdle(b) && |b.chunks| > 0 && forall i :: 0 <= i < |b.chunks| ==> b.chunks[i] != Inflight
    ensures AllDone(b)
  {
    assert |b.streams| > 0 ==> b.streams[0].None?;
    forall i | 0 <= i < |b.chunks| ensures b.chunks[i] == Done {
      assert !Claimable(b.chunks[i]);
    }
  }

  // ---- each event keeps it ----

  lemma StartKeeps(e: Engine, count: nat, now: int)
    requires Disciplined(e) && Enabled(e, StartOk(count, now))
    ensures Disciplined(Apply(e, StartOk(count, now)))
  {
    IdleMeansNoWork(e.board, e.aborted);
    var chunks := AllPending(count);
    IdleBoardOk(chunks, e.board.nextWid, e.aborted);
    var ready := e.(starting := false, started := true, board := e.board.(chunks := chunks));
    assert ready.board == Board(chunks, IDLE, map[], e.board.nextWid);
    hide BoardOk;
    PumpKeeps(ready, now);
  }

  lemma ReturnsKeep(e: Engine, wid: Wid, c: ChunkState, parkedUntil: int, attempts: map<nat, nat>, now: int)
    requires Disciplined(e) && Known(e, wid) && c != Inflight
    requires forall i :: i in attempts ==> attempts[i] < MAX_CHUNK_ATTEMPTS
    ensures Disciplined(Pump(e.(board := Return(e.board, wid, c), parkedUntil := parkedUntil, attempts := attempts), now))
  {
    ReturnKeeps(e.board, wid, c, e.aborted);
    var w := e.board.workers[wid];
    assert e.board.streams[w.slot].Some?;
    var back := e.(board := Return(e.board, wid, c), parkedUntil := parkedUntil, attempts := attempts);
    hide BoardOk;
    PumpKeeps(back, now);
  }

  lemma StoredKeeps(e: Engine, wid: Wid, now: int)
    requires Disciplined(e) && Known(e, wid)
    ensures Disciplined(ChunkStored(e, wid, now))
  {
    ReturnsKeep(e, wid, Done, e.parkedUntil, e.attempts, now);
  }

  lemma SaturatedKeeps(e: Engine, wid: Wid, now: int, retryAfter: int)
    requires Disciplined(e) && Known(e, wid)
    ensures Disciplined(Saturated(e, wid, now, retryAfter))
  {
    ReturnsKeep(e, wid, Pending, now + retryAfter, e.attempts, now);
  }

  lemma FailureKeeps(e: Engine, wid: Wid, transport: bool, now: int)
    requires Disciplined(e) && Known(e, wid) && ChunkFailed(e, wid, transport, now).state != Errored
    ensures Disciplined(ChunkFailed(e, wid, transport, now))
  {
    if e.aborted {
      DropKeeps(e.board, wid);
    } else {
      var w := e.board.workers[wid];
      ReturnsKeep(e, wid, Retry, e.parkedUntil, e.attempts[w.index := Attempts(e, w.index) + 1], now);
    }
  }

  lemma ResyncedBoard(e: Engine, done: seq<bool>)
    requires BoardOk(e.board, e.aborted) && AllIdle(e.board)
    ensures BoardOk(Resynced(e, Some(done)).board, e.aborted)
  {
    IdleMeansNoWork(e.board, e.aborted);
    IdleBoardOk(Adopted(done), e.board.nextWid, e.aborted);
    hide BoardOk;
    assert Resynced(e, Some(done)).board == Board(Adopted(done), IDLE, map[], e.board.nextWid);
  }

  lemma ResyncKeeps(e: Engine, done: seq<bool>, now: int)
    requires Disciplined(e) && Enabled(e, FinishResync(done, now))
    ensures Disciplined(Apply(e, FinishResync(done, now)))
  {
    hide BoardOk, Fill;
    ResyncedBoard(e, done);
    var back := Resynced(e, Some(done)).(
      state := Uploading, awaited := e.awaited.(finishResyncs := e.awaited.finishResyncs - 1));
    PumpKeeps(back, now);
  }

  lemma TimerKeeps(e: Engine, now: int)
    requires Disciplined(e) && e.awaited.pumpTimers > 0
    ensures Disciplined(Apply(e, PumpTimer(now)))
  {
    hide BoardOk;
    var back := e.(awaited := e.awaited.(pumpTimers := e.awaited.pumpTimers - 1));
    if e.started {
      PumpKeeps(back, now);
    } else {
      UnstartedPump(back, now);
    }
  }

  /** Before the session exists there is nothing to claim and nothing to finish. */
  lemma UnstartedPump(e: Engine, now: int)
    requires e.board.chunks == [] && AllIdle(e.board)
    ensures Pump(e, now).board == e.board && Pump(e, now) == e.(awaited := Pump(e, now).awaited)
    ensures Pump(e, now).awaited == e.awaited.(pumpTimers := Pump(e, now).awaited.pumpTimers)
    ensures Pump(e, now).state == e.state
  {
    assert NextChunk(e.board.chunks, 0).None?;
  }

  lemma StopKeeps(e: Engine, ev: Event)
    requires Disciplined(e) && (ev.Cancel? || ev.Dispose?)
    ensures Disciplined(Apply(e, ev))
  {
  }

  lemma StepDisciplined(e: Engine, ev: Event)
    requires Disciplined(e) && !ev.Pause? && Step(e, ev).state != Errored
    ensures Disciplined(Step(e, ev))
  {
    if Enabled(e, ev) {
      hide BoardOk, CompletesOk, QuietOk, NeverStalls, Pump, Return;
      match ev
      case StartOk(count, now) => StartKeeps(e, count, now);
      case PutStored(wid, now) => StoredKeeps(e, wid, now);
      case PutSaturated(wid, now, retryAfter) => SaturatedKeeps(e, wid, now, retryAfter);
      case PutFailed(wid, transport, now) => FailureKeeps(e, wid, transport, now);
      case PumpTimer(now) => TimerKeeps(e, now);
      case FinishResync(done, now) => ResyncKeeps(e, done, now);
      case Cancel => StopKeeps(e, ev);
      case Dispose => StopKeeps(e, ev);
      case _ => AnswerKeeps(e, ev);
    }
  }

  lemma AnswerKeeps(e: Engine, ev: Event)
    requires Disciplined(e) && Enabled(e, ev) && Apply(e, ev).state != Errored
    requires ev.StartRefused? || ev.ResumeTimer? || ev.CompleteOk? || ev.CompleteConflict? || ev.CompleteFailed?
          || ev.FinishResyncFailed? || ev.ResumeResync? || ev.ResumeResyncFailed? || ev.Resume?
    ensures Disciplined(Apply(e, ev))
  {
    hide BoardOk, Pump;
  }

  lemma {:induction false} CalmIsDisciplined(events: seq<Event>)
    requires Calm(events)
    ensures Disciplined(Run(events))
  {
    if events == [] {
      IdleBoardOk([], 0, false);
    } else {
      CalmIsDisciplined(events[..|events| - 1]);
      StepDisciplined(Run(events[..|events| - 1]), events[|events| - 1]);
    }
  }

  // ---- main results ----

  /**
   * In a calm run: busy slots and INFLIGHT chunks match one to one, and no chunk is sent twice at once, on at most 8
   * PUTs.
   */
  lemma SlotDiscipline(events: seq<Event>)
    requires Calm(events)
    ensures var b := Run(events).board;
            && SlotsMatch(b) && |b.workers| <= 8
            && (forall v, w :: v in b.workers && w in b.workers && v != w ==> b.workers[v].index != b.workers[w].index)
  {
    CalmIsDisciplined(events);
    var b := Run(events).board;
    AtMostOnePerSlot(b, b.workers.Keys, MAX_PARALLEL);
  }

  lemma {:induction false} AtMostOnePerSlot(b: Board, ids: set<Wid>, n: nat)
    requires WorkersOwnSlots(b) && ids <= b.workers.Keys
    requires forall w :: w in ids ==> b.workers[w].slot < n
    ensures |ids| <= n
    decreases n
  {
    if n == 0 {
      assert forall w :: w !in ids;
    } else if w :| w in ids && b.workers[w].slot == n - 1 {
      AtMostOnePerSlot(b, ids - {w}, n - 1);
    } else {
      AtMostOnePerSlot(b, ids, n - 1);
    }
  }

  /** In a calm run an uploading engine is never stuck: a slot is busy or a pump timer is pending. */
  lemma UploadingMakesProgress(events: seq<Event>)
    requires Calm(events) && Run(events).state == Uploading && Run(events).started && !Run(events).disposed
    ensures Run(events).awaited.pumpTimers > 0 || exists w :: w in Run(events).board.workers
  {
    CalmIsDisciplined(events);
    var e := Run(events);
    if !AllIdle(e.board) {
      var s :| 0 <= s < |e.board.streams| && e.board.streams[s].Some?;
      assert HasWorker(e.board, s);
    }
  }

  /**
   * In a calm run no chunk has failed five times, at most one complete request is outstanding, and onLanded fires at
   * most once.
   */
  lemma RetriesAndCompletion(events: seq<Event>)
    requires Calm(events)
    ensures forall i :: i in Run(events).attempts ==> Run(events).attempts[i] < 5
    ensures Run(events).awaited.completes <= 1 && Run(events).landedCalls <= 1
    ensures Run(events).awaited.completes == 1 ==> Run(events).landedCalls == 0 && AllIdle(Run(events).board)
  {
    CalmIsDisciplined(events);
  }

  /** In any run, with or without pauses: a failure is charged to its chunk, and the fifth one leaves uploading. */
  lemma FifthFailureLeavesUploading(e: Engine, wid: Wid, transport: bool, now: int)
    requires Known(e, wid) && !e.aborted
    ensures var index := e.board.workers[wid].index; var t := ChunkFailed(e, wid, transport, now);
            && Attempts(t, index) == Attempts(e, index) + 1
            && (Attempts(t, index) >= 5 ==> t.state == Errored)
            && (Attempts(t, index) < 5 && e.state != Errored ==> t.state != Errored)
  {
  }

  /**
   * A pause replaces the controller at once, so the PUTs it aborts do not see an aborted one when they
   * return: each of them is charged as a failed attempt of its chunk, and at the limit ends the pause in an error.
   */
  lemma PauseChargesInflightChunks(e: Engine, wid: Wid, now: int)
    requires e.state == Uploading && |e.board.streams| == 8 && Known(e, wid)
    ensures var index := e.board.workers[wid].index; var t := Step(Step(e, Pause), PutFailed(wid, true, now));
            && Attempts(t, index) == Attempts(e, index) + 1
            && t.state == if Attempts(e, index) + 1 >= 5 then Errored else Paused
  {
  }

  function After(e: Engine, events: seq<Event>): Engine
  {
    if events == [] then e else Step(After(e, events[..|events| - 1]), events[|events| - 1])
  }

  /** Verifying, with nothing awaited that could end it. */
  predicate Wedged(e: Engine)
  {
    e.state == Verifying && e.awaited.completes == 0 && e.awaited.finishResyncs == 0
  }

  predicate NeverCancels(events: seq<Event>)
  {
    forall ev :: ev in events ==> !ev.Cancel?
  }

  /** Nothing else can reach a verifying engine: no PUT, no start, no resume. */
  predicate Quiet(e: Engine)
  {
    e.board.workers == map[] && !e.starting && e.awaited.resumeResyncs == 0
  }

  lemma WedgedStays(e: Engine, ev: Event)
    requires Wedged(e) && Quiet(e) && !ev.Cancel?
    ensures Wedged(Step(e, ev)) && Quiet(Step(e, ev))
  {
  }

  lemma {:induction false} WedgedForever(e: Engine, events: seq<Event>)
    requires Wedged(e) && Quiet(e) && NeverCancels(events)
    ensures Wedged(After(e, events)) && Quiet(After(e, events))
  {
    if events != [] {
      WedgedForever(e, events[..|events| - 1]);
      WedgedStays(After(e, events[..|events| - 1]), events[|events| - 1]);
    }
  }

  /** A complete that succeeds, or a resync that finds a chunk missing, leaves verifying. */
  lemma AnswerEndsVerifying(e: Engine) returns (ev: Event)
    requires e.state == Verifying && |e.board.chunks| > 0 && !Wedged(e)
    ensures !ev.Cancel? && Step(e, ev).state != Verifying
  {
    if e.awaited.completes > 0 {
      ev := CompleteOk;
    } else {
      var done := seq(|e.board.chunks|, _ => false);
      ev := FinishResync(done, e.parkedUntil);
      NothingDoneKeepsUploading(e, done);
    }
  }

  lemma NothingDoneKeepsUploading(e: Engine, done: seq<bool>)
    requires |done| == |e.board.chunks| > 0 && !done[0] && e.awaited.finishResyncs > 0
    ensures Step(e, FinishResync(done, e.parkedUntil)).state == Uploading
  {
    hide Fill;
    var back := Resynced(e, Some(done)).(
      state := Uploading, awaited := e.awaited.(finishResyncs := e.awaited.finishResyncs - 1));
    assert back.board.chunks[0] == Pending;
    FillOnlyLaunches(back.board, 0);
  }

  /**
   * When verifying is final. After a run without pause or error, a verifying engine stays verifying in every
   * continuation without a cancel if and only if it awaits neither a complete nor a resync.
   */
  lemma VerifyingIsFinalIff(events: seq<Event>)
    requires Calm(events) && Run(events).state == Verifying
    ensures (forall more :: NeverCancels(more) ==> After(Run(events), more).state == Verifying)
       <==> Run(events).awaited.completes == 0 && Run(events).awaited.finishResyncs == 0
  {
    var e := Run(events);
    CalmIsDisciplined(events);
    IdleMeansNoWork(e.board, e.aborted);
    VerifyingHasStarted(events);
    if Wedged(e) {
      forall more | NeverCancels(more) ensures After(e, more).state == Verifying {
        WedgedForever(e, more);
      }
    } else {
      var ev := AnswerEndsVerifying(e);
      assert After(e, [ev]) == Step(After(e, []), ev) by {
        assert [ev][..0] == [];
      }
      assert NeverCancels([ev]) && After(e, [ev]).state != Verifying;
    }
  }

  /** In a calm run a session is verified only after it was created. */
  lemma {:induction false} VerifyingHasStarted(events: seq<Event>)
    requires Calm(events)
    ensures Run(events).state == Verifying ==> Run(events).started && !Run(events).starting
  {
    hide Step, Disciplined;
    if events != [] {
      var e, ev := Run(events[..|events| - 1]), events[|events| - 1];
      CalmIsDisciplined(events[..|events| - 1]);
      VerifyingHasStarted(events[..|events| - 1]);
      VerifyingStartsStarted(e, ev);
    }
  }

  lemma VerifyingStartsStarted(e: Engine, ev: Event)
    requires Disciplined(e) && (e.state == Verifying ==> e.started && !e.starting)
    ensures Step(e, ev).state == Verifying ==> Step(e, ev).started && !Step(e, ev).starting
  {
    hide Fill, BoardOk;
  }

  /**
   * One round of a refused completion: conflict, resync, pump. It brings the engine back to exactly where it was,
   * asking for completion again, if and only if the server reports every chunk DONE and nothing holds the pump.
   */
  lemma ConflictLoopIff(e: Engine, done: seq<bool>, now: int)
    requires e.state == Verifying && e.awaited.completes > 0 && AllDone(e.board)
    requires |done| == |e.board.chunks|
    ensures Step(Step(e, CompleteConflict), FinishResync(done, now)) == e
       <==> (forall i :: 0 <= i < |done| ==> done[i]) && e.board.streams == IDLE && !e.disposed && now >= e.parkedUntil
  {
    var asked := Step(e, CompleteConflict);
    var back := Resynced(asked, Some(done)).(
      state := Uploading, awaited := asked.awaited.(finishResyncs := asked.awaited.finishResyncs - 1));
    hide Fill;
    assert Step(asked, FinishResync(done, now)) == Pump(back, now);
    if forall i :: 0 <= i < |done| ==> done[i] {
      assert back.board.chunks == e.board.chunks;
      NothingToFill(back.board, 0);
    } else {
      var i :| 0 <= i < |done| && !done[i];
      assert back.board.chunks[i] == Pending;
      FillOnlyLaunches(back.board, 0);
    }
  }

  /** The run that wedges: one chunk stored, the completion refused, the resync failed. */
  const WEDGING_RUN := [StartOk(1, 0), PutStored(0, 0), CompleteConflict, FinishResyncFailed]

  /** It is calm, and from its end nothing but a cancel changes the session's state. */
  lemma WedgingRunWedges(more: seq<Event>)
    requires NeverCancels(more)
    ensures Calm(WEDGING_RUN) && Run(WEDGING_RUN).state == Verifying
    ensures After(Run(WEDGING_RUN), more).state == Verifying
  {
    WedgingStates();
    WedgedForever(Run(WEDGING_RUN), more);
  }

  lemma EmptyRun()
    ensures Calm([]) && Run([]) == Init()
  {
  }

  lemma CalmExtends(events: seq<Event>, ev: Event)
    requires Calm(events) && !ev.Pause? && Step(Run(events), ev).state != Errored
    ensures Calm(events + [ev]) && Run(events + [ev]) == Step(Run(events), ev)
  {
    hide Step;
    assert (events + [ev])[..|events|] == events;
  }

  /** The completion is refused, and then the resync fails. */
  lemma RefusedAndLost(e: Engine)
    requires e.state == Verifying && e.awaited == Awaited(0, 0, 1, 0, 0) && e.board.workers == map[] && !e.starting
    ensures var t := Step(e, CompleteConflict); var u := Step(t, FinishResyncFailed);
      t.state == Verifying && u.state == Verifying && Wedged(u) && Quiet(u)
  {
  }

  lemma WedgingStates()
    ensures Calm(WEDGING_RUN) && Wedged(Run(WEDGING_RUN)) && Quiet(Run(WEDGING_RUN))
  {
    hide Step, Calm, Run;
    FirstPut();
    var e1 := Step(Init(), StartOk(1, 0));
    LastPut(e1);
    var e2 := Step(e1, PutStored(0, 0));
    RefusedAndLost(e2);
    EmptyRun();
    var r1 := [] + [StartOk(1, 0)];
    var r2 := r1 + [PutStored(0, 0)];
    var r3 := r2 + [CompleteConflict];
    CalmExtends([], StartOk(1, 0));
    CalmExtends(r1, PutStored(0, 0));
    CalmExtends(r2, CompleteConflict);
    CalmExtends(r3, FinishResyncFailed);
    assert r3 + [FinishResyncFailed] == WEDGING_RUN;
  }

  /** The only chunk goes out in slot 0. */
  lemma FirstPut()
    ensures var e := Step(Init(), StartOk(1, 0));
      && e.state == Uploading && !e.disposed && !e.aborted && !e.starting && e.parkedUntil == 0
      && e.awaited == Awaited(0, 0, 0, 0, 0)
      && e.board == Board([Inflight], IDLE[0 := Some(0)], map[0 := Worker(0, 0)], 1)
  {
    var b := Board([Pending], IDLE, map[], 0);
    assert AllPending(1) == [Pending];
    var launched := Launch(b, 0, 0);
    assert NextChunk(b.chunks, 0) == Some(0);
    assert launched == Board([Inflight], IDLE[0 := Some(0)], map[0 := Worker(0, 0)], 1);
    NothingToFill(launched, 1);
    assert Fill(b, 0) == launched;
  }

  lemma NothingToFill(b: Board, s: nat)
    requires s < |b.streams| && b.streams[s].None? && NothingClaimable(b)
    ensures Fill(b, s) == b
  {
  }

  /** Its 200 leaves every chunk DONE and every slot idle, so the engine asks for completion. */
  lemma LastPut(e: Engine)
    requires e.state == Uploading && !e.disposed && e.parkedUntil == 0 && e.awaited == Awaited(0, 0, 0, 0, 0)
    requires e.board == Board([Inflight], IDLE[0 := Some(0)], map[0 := Worker(0, 0)], 1)
    ensures var t := Step(e, PutStored(0, 0));
      t == e.(state := Verifying, board := Board([Done], IDLE, map[], 1), awaited := Awaited(0, 0, 1, 0, 0))
  {
    var b := Return(e.board, 0, Done);
    assert IDLE[0 := Some(0)][0 := None] == IDLE;
    assert map[0 := Worker(0, 0)] - {0} == map[];
    assert b == Board([Done], IDLE, map[], 1);
    NothingToFill(b, 0);
  }

  // ---- where a DONE cell comes from ----

  /** The slot loop marks nothing DONE, forgets no PUT, and starts new ones under new ids. */
  lemma {:induction false} FillOnlyLaunches(b: Board, s: nat)
    requires s <= |b.streams|
    ensures forall i :: 0 <= i < |b.chunks| && Fill(b, s).chunks[i] == Done ==> b.chunks[i] == Done
    ensures Fill(b, s).nextWid >= b.nextWid
    ensures forall w :: w in Fill(b, s).workers ==>
              (b.nextWid <= w < Fill(b, s).nextWid) || (w in b.workers && Fill(b, s).workers[w] == b.workers[w])
    decreases |b.streams| - s
  {
    if s < |b.streams| {
      if b.streams[s].Some? {
        FillOnlyLaunches(b, s + 1);
      } else if NextChunk(b.chunks, 0).Some? {
        FillOnlyLaunches(Launch(b, s, NextChunk(b.chunks, 0).value), s + 1);
      }
    }
  }

  /** PUT ids are never reused. */
  predicate FreshWids(b: Board)
  {
    forall w :: w in b.workers ==> w < b.nextWid
  }

  /** What a step may do to the board: DONE only for the given cells, PUTs only gone or new. */
  ghost predicate OnlyDone(b: Board, r: Board, cells: set<nat>)
  {
    && (forall i :: 0 <= i < |r.chunks| && r.chunks[i] == Done ==> i in cells || (i < |b.chunks| && b.chunks[i] == Done))
    && r.nextWid >= b.nextWid
    && (forall w :: w in r.workers ==>
          (b.nextWid <= w < r.nextWid) || (w in b.workers && r.workers[w] == b.workers[w]))
  }

  function Cells(done: seq<bool>): set<nat>
  {
    set i | 0 <= i < |done| && done[i]
  }

  /** The cells an event may turn DONE: the chunk of a stored PUT, or the server's DONE cells of a resync. */
  function MayBecomeDone(e: Engine, ev: Event): set<nat>
  {
    match ev
    case PutStored(wid, _) => if wid in e.board.workers then {e.board.workers[wid].index} else {}
    case FinishResync(done, _) => Cells(done)
    case ResumeResync(adopted, _) => if adopted.Some? then Cells(adopted.value) else {}
    case _ => {}
  }

  lemma PumpOnlyLaunches(e: Engine, now: int)
    ensures OnlyDone(e.board, Pump(e, now).board, {}) && |Pump(e, now).board.chunks| == |e.board.chunks|
    ensures Pump(e, now).started == e.started
  {
    FillOnlyLaunches(e.board, 0);
  }

  lemma OnlyDoneTrans(a: Board, b: Board, c: Board, cells: set<nat>)
    requires OnlyDone(a, b, cells) && OnlyDone(b, c, {})
    ensures OnlyDone(a, c, cells)
  {
  }

  /** Board changes that only drop PUTs. */
  lemma SetsOnly(b: Board, r: Board, cells: set<nat>)
    requires r.nextWid == b.nextWid && forall w :: w in r.workers ==> w in b.workers && r.workers[w] == b.workers[w]
    requires forall i :: 0 <= i < |r.chunks| && r.chunks[i] == Done ==> i in cells || (i < |b.chunks| && b.chunks[i] == Done)
    ensures OnlyDone(b, r, cells)
  {
  }

  lemma Pumped(e: Engine, r: Engine, now: int, cells: set<nat>)
    requires OnlyDone(e.board, r.board, cells)
    ensures OnlyDone(e.board, Pump(r, now).board, cells)
  {
    PumpOnlyLaunches(r, now);
    OnlyDoneTrans(e.board, r.board, Pump(r, now).board, cells);
  }

  lemma StoredOnlyDone(e: Engine, wid: Wid, now: int)
    requires Known(e, wid)
    ensures OnlyDone(e.board, ChunkStored(e, wid, now).board, {e.board.workers[wid].index})
  {
    var r := e.(board := Return(e.board, wid, Done));
    SetsOnly(e.board, r.board, {e.board.workers[wid].index});
    Pumped(e, r, now, {e.board.workers[wid].index});
  }

  lemma RetryOnlyDone(e: Engine, wid: Wid, now: int)
    requires Known(e, wid)
    ensures forall attempts ::
              OnlyDone(e.board, Pump(e.(attempts := attempts).(board := Return(e.board, wid, Retry)), now).board, {})
  {
    hide Pump;
    SetsOnly(e.board, Return(e.board, wid, Retry), {});
    forall attempts
      ensures OnlyDone(e.board, Pump(e.(attempts := attempts).(board := Return(e.board, wid, Retry)), now).board, {}) {
      Pumped(e, e.(attempts := attempts).(board := Return(e.board, wid, Retry)), now, {});
    }
  }

  lemma GiveUpOnlyDone(e: Engine, wid: Wid)
    requires Known(e, wid)
    ensures forall attempts ::
      var freed := e.(attempts := attempts).(board := Return(e.board, wid, e.board.chunks[e.board.workers[wid].index]));
      OnlyDone(e.board, Failed(freed).board, {}) && OnlyDone(e.board, EnterError(freed).board, {})
  {
    var index := e.board.workers[wid].index;
    var b := Return(e.board, wid, e.board.chunks[index]);
    SetsOnly(e.board, b.(chunks := Reverted(b.chunks), streams := IDLE), {});
  }

  lemma FailedOnlyDone(e: Engine, wid: Wid, transport: bool, now: int)
    requires Known(e, wid)
    ensures OnlyDone(e.board, ChunkFailed(e, wid, transport, now).board, {})
  {
    hide Pump, Return, Revert;
    var w := e.board.workers[wid];
    if e.aborted {
      SetsOnly(e.board, e.board.(workers := e.board.workers - {wid}), {});
    } else if Attempts(e, w.index) + 1 < MAX_CHUNK_ATTEMPTS {
      RetryOnlyDone(e, wid, now);
    } else {
      GiveUpOnlyDone(e, wid);
    }
  }

  lemma SaturatedOnlyDone(e: Engine, wid: Wid, now: int, retryAfter: int)
    requires Known(e, wid)
    ensures OnlyDone(e.board, Saturated(e, wid, now, retryAfter).board, {})
  {
    var r := e.(board := Return(e.board, wid, Pending), parkedUntil := now + retryAfter);
    SetsOnly(e.board, r.board, {});
    Pumped(e, r, now, {});
  }

  lemma StartOnlyDone(e: Engine, count: nat, now: int)
    ensures Enabled(e, StartOk(count, now)) ==> OnlyDone(e.board, Apply(e, StartOk(count, now)).board, {})
  {
    var r := e.(starting := false, started := true, board := e.board.(chunks := AllPending(count)));
    SetsOnly(e.board, r.board, {});
    Pumped(e, r, now, {});
  }

  lemma TimerOnlyDone(e: Engine, now: int)
    requires e.awaited.pumpTimers > 0
    ensures OnlyDone(e.board, Apply(e, PumpTimer(now)).board, {})
  {
    var r := e.(awaited := e.awaited.(pumpTimers := e.awaited.pumpTimers - 1));
    Pumped(e, r, now, {});
  }

  lemma ResyncOnlyDone(e: Engine, adopted: Option<seq<bool>>, awaited: Awaited, now: int)
    ensures OnlyDone(e.board, Pump(Resynced(e, adopted).(state := Uploading, awaited := awaited), now).board,
                     if adopted.Some? then Cells(adopted.value) else {})
  {
    hide Pump;
    var cells := if adopted.Some? then Cells(adopted.value) else {};
    var r := Resynced(e, adopted).(state := Uploading, awaited := awaited);
    SetsOnly(e.board, r.board, cells);
    Pumped(e, r, now, cells);
  }

  /** Events after which nothing is pumped. */
  lemma OthersOnlyDone(e: Engine, ev: Event)
    requires Enabled(e, ev)
    requires !ev.StartOk? && !ev.PutStored? && !ev.PutSaturated? && !ev.PutFailed? && !ev.PumpTimer?
    requires !ev.FinishResync? && !ev.ResumeResync?
    ensures OnlyDone(e.board, Apply(e, ev).board, {})
  {
    SetsOnly(e.board, Apply(e, ev).board, {});
  }

  /** In every state, an event turns DONE only the chunk of a stored PUT or cells the server reported DONE. */
  lemma StepOnlyDone(e: Engine, ev: Event)
    requires Enabled(e, ev)
    ensures OnlyDone(e.board, Apply(e, ev).board, MayBecomeDone(e, ev))
  {
    hide Pump, OnlyDone, Return, Resynced, Cells;
    match ev
    case StartOk(count, now) => StartOnlyDone(e, count, now);
    case PutStored(wid, now) => StoredOnlyDone(e, wid, now);
    case PutSaturated(wid, now, retryAfter) => SaturatedOnlyDone(e, wid, now, retryAfter);
    case PutFailed(wid, transport, now) => FailedOnlyDone(e, wid, transport, now);
    case PumpTimer(now) => TimerOnlyDone(e, now);
    case FinishResync(done, now) =>
      ResyncOnlyDone(e, Some(done), e.awaited.(finishResyncs := e.awaited.finishResyncs - 1), now);
    case ResumeResync(adopted, now) =>
      ResyncOnlyDone(e, adopted, e.awaited.(resumeResyncs := e.awaited.resumeResyncs - 1), now);
    case _ => OthersOnlyDone(e, ev);
  }

  /** Only the create response sets the number of cells. */
  lemma StepKeepsLength(e: Engine, ev: Event)
    requires Enabled(e, ev)
    ensures |Apply(e, ev).board.chunks| == if ev.StartOk? then ev.count else |e.board.chunks|
  {
    hide Pump;
  }

  // ---- what the answers of a PUT do ----

  /** The clock an event reads, if it does. */
  function Clock(ev: Event): Option<int>
  {
    match ev
    case StartOk(_, now) => Some(now)
    case PutStored(_, now) => Some(now)
    case PutSaturated(_, now, _) => Some(now)
    case PutFailed(_, _, now) => Some(now)
    case PumpTimer(now) => Some(now)
    case FinishResync(_, now) => Some(now)
    case ResumeResync(_, now) => Some(now)
    case _ => None
  }

  /**
   * A 429 parks the whole engine: it starts no PUT, charges no attempt, puts its chunk back as pending, frees its slot
   * alone, and asks for one timer.
   */
  lemma SaturatedParks(e: Engine, wid: Wid, now: int, retryAfter: int)
    requires e.state == Uploading && !e.disposed && retryAfter > 0
    requires wid in e.board.workers
    requires e.board.workers[wid].slot < |e.board.streams| && e.board.workers[wid].index < |e.board.chunks|
    ensures var t := Step(e, PutSaturated(wid, now, retryAfter));
      var (slot, index) := (e.board.workers[wid].slot, e.board.workers[wid].index);
      && t == Saturated(e, wid, now, retryAfter)
      && t.board.nextWid == e.board.nextWid && t.board.workers == e.board.workers - {wid}
      && t.board.chunks == e.board.chunks[index := Pending] && t.board.streams == e.board.streams[slot := None]
      && t.attempts == e.attempts && t.state == Uploading && t.parkedUntil == now + retryAfter
      && t.awaited == e.awaited.(pumpTimers := e.awaited.pumpTimers + 1)
  {
  }

  /** While the engine is parked no event starts a PUT. */
  lemma ParkedLaunchesNothing(e: Engine, ev: Event)
    requires !ev.PutSaturated? && (Clock(ev).Some? ==> Clock(ev).value < e.parkedUntil)
    ensures Step(e, ev).board.nextWid == e.board.nextWid && Step(e, ev).parkedUntil == e.parkedUntil
  {
    PumpParked();
    hide Pump, ChunkFailed, Known;
    if ev.PutFailed? && Known(e, ev.wid) {
      ParkedFailure(e, ev.wid, ev.transport, ev.now);
    }
  }

  lemma ParkedFailure(e: Engine, wid: Wid, transport: bool, now: int)
    requires Known(e, wid) && now < e.parkedUntil
    ensures var t := ChunkFailed(e, wid, transport, now); t.board.nextWid == e.board.nextWid && t.parkedUntil == e.parkedUntil
  {
    PumpParked();
    hide Pump;
  }

  lemma PumpParked()
    ensures forall e: Engine, now :: now < e.parkedUntil ==> Pump(e, now).board == e.board
  {
  }

  lemma {:induction false} ParkedStays(e: Engine, more: seq<Event>)
    requires forall ev :: ev in more ==> !ev.PutSaturated? && (Clock(ev).Some? ==> Clock(ev).value < e.parkedUntil)
    ensures After(e, more).board.nextWid == e.board.nextWid && After(e, more).parkedUntil == e.parkedUntil
  {
    if more != [] {
      ParkedStays(e, more[..|more| - 1]);
      ParkedLaunchesNothing(After(e, more[..|more| - 1]), more[|more| - 1]);
    }
  }

  /**
   * ... and the delay is kept: from any state, until the clock reaches now + retryAfter, no PUT is started in any
   * continuation in which no other 429 moves the deadline.
   */
  lemma BackpressureHolds(e: Engine, wid: Wid, now: int, retryAfter: int, more: seq<Event>)
    requires retryAfter > 0 && wid in e.board.workers
    requires e.board.workers[wid].slot < |e.board.streams| && e.board.workers[wid].index < |e.board.chunks|
    requires forall ev :: ev in more ==>
      !ev.PutSaturated? && (Clock(ev).Some? ==> Clock(ev).value < now + retryAfter)
    ensures After(Step(e, PutSaturated(wid, now, retryAfter)), more).board.nextWid == e.board.nextWid
  {
    hide Fill;
    var t := Step(e, PutSaturated(wid, now, retryAfter));
    assert t.board.nextWid == e.board.nextWid && t.parkedUntil == now + retryAfter;
    ParkedStays(t, more);
  }

  lemma {:induction false} FillKeepsDone(b: Board, s: nat, i: nat)
    requires s <= |b.streams| && i < |b.chunks| && b.chunks[i] == Done
    ensures Fill(b, s).chunks[i] == Done
    decreases |b.streams| - s
  {
    if s < |b.streams| {
      if b.streams[s].Some? {
        FillKeepsDone(b, s + 1, i);
      } else {
        var next := NextChunk(b.chunks, 0);
        if next.Some? {
          FillKeepsDone(Launch(b, s, next.value), s + 1, i);
        }
      }
    }
  }

  /** A stored PUT makes its chunk DONE, is over, and charges nobody. */
  lemma StoredIsDone(e: Engine, wid: Wid, now: int)
    requires wid in e.board.workers && wid < e.board.nextWid
    requires e.board.workers[wid].slot < |e.board.streams| && e.board.workers[wid].index < |e.board.chunks|
    ensures var t := Step(e, PutStored(wid, now));
      && t.board.chunks[e.board.workers[wid].index] == Done && wid !in t.board.workers
      && t.attempts == e.attempts && t.parkedUntil == e.parkedUntil
  {
    hide Fill;
    FillKeepsDone(Return(e.board, wid, Done), 0, e.board.workers[wid].index);
    FillOnlyLaunches(Return(e.board, wid, Done), 0);
  }

  /**
   * A failed PUT of an engine whose controller is live: one attempt is charged to its chunk. Below the fifth the chunk
   * is up for retry again (or already on its way) and the state stands; the fifth ends in error with every slot freed
   * and nothing INFLIGHT, and arms one auto-resume timer exactly when the transport was lost.
   */
  lemma FailedPutIs(e: Engine, wid: Wid, transport: bool, now: int)
    requires wid in e.board.workers && !e.aborted
    requires e.board.workers[wid].slot < |e.board.streams| && e.board.workers[wid].index < |e.board.chunks|
    ensures var t := Step(e, PutFailed(wid, transport, now)); var i := e.board.workers[wid].index;
      var n := (if i in e.attempts then e.attempts[i] else 0) + 1;
      && t.attempts == e.attempts[i := n] && t.parkedUntil == e.parkedUntil
      && (n < 5 ==> t.board.chunks[i] == Retry || t.board.chunks[i] == Inflight)
      && (n < 5 && (e.state != Uploading || e.disposed) ==> t.state == e.state && t.board.chunks[i] == Retry)
      && (n >= 5 ==>
            && t.state == Errored && t.board.streams == IDLE && t.board.nextWid == e.board.nextWid
            && (forall k :: 0 <= k < |t.board.chunks| ==>
                  t.board.chunks[k] == if e.board.chunks[k] == Inflight then Pending else e.board.chunks[k])
            && t.awaited == if transport then e.awaited.(resumeTimers := e.awaited.resumeTimers + 1) else e.awaited)
  {
    var i := e.board.workers[wid].index;
    hide Fill;
    FillKeepsClaim(Return(e.board, wid, Retry), 0, i);
  }

  lemma {:induction false} FillKeepsClaim(b: Board, s: nat, i: nat)
    requires s <= |b.streams| && i < |b.chunks| && b.chunks[i] in {Retry, Inflight}
    ensures Fill(b, s).chunks[i] in {Retry, Inflight}
    decreases |b.streams| - s
  {
    if s < |b.streams| {
      if b.streams[s].Some? {
        FillKeepsClaim(b, s + 1, i);
      } else {
        var next := NextChunk(b.chunks, 0);
        if next.Some? {
          FillKeepsClaim(Launch(b, s, next.value), s + 1, i);
        }
      }
    }
  }

  /** An aborted engine only forgets a PUT that returns with an error. */
  lemma AbortedPutIsForgotten(e: Engine, wid: Wid, transport: bool, now: int)
    requires wid in e.board.workers && e.aborted
    requires e.board.workers[wid].slot < |e.board.streams| && e.board.workers[wid].index < |e.board.chunks|
    ensures Step(e, PutFailed(wid, transport, now)) == e.(board := e.board.(workers := e.board.workers - {wid}))
  {
  }

  lemma {:induction false} FillSends(b: Board, s: nat)
    requires s <= |b.streams|
    ensures forall i :: 0 <= i < |b.chunks| && Fill(b, s).chunks[i] != b.chunks[i] ==>
              b.chunks[i] in {Pending, Retry} && Fill(b, s).chunks[i] == Inflight
    decreases |b.streams| - s
  {
    if s < |b.streams| {
      if b.streams[s].Some? {
        FillSends(b, s + 1);
      } else if NextChunk(b.chunks, 0).Some? {
        FillSends(Launch(b, s, NextChunk(b.chunks, 0).value), s + 1);
      }
    }
  }

  /**
   * What a pump of an uploading engine that is not parked does: busy slots keep their chunk, pending and retried
   * chunks go out until all eight slots are busy or none is left, and completion is asked for, once, exactly when
   * every chunk is DONE and every slot idle.
   */
  lemma PumpSends(e: Engine, now: int)
    requires e.state == Uploading && !e.disposed && now >= e.parkedUntil && BoardOk(e.board, e.aborted)
    ensures var b, t, r := e.board, Pump(e, now).board, Pump(e, now);
      && (forall s :: 0 <= s < 8 && b.streams[s].Some? ==> t.streams[s] == b.streams[s])
      && (forall i :: 0 <= i < |b.chunks| && t.chunks[i] != b.chunks[i] ==>
            b.chunks[i] in {Pending, Retry} && t.chunks[i] == Inflight)
      && ((forall s :: 0 <= s < 8 ==> t.streams[s] != None)
          || (forall i :: 0 <= i < |t.chunks| ==> t.chunks[i] in {Inflight, Done}))
      && var complete := t.chunks != [] && (forall i :: 0 <= i < |t.chunks| ==> t.chunks[i] == Done) && t.streams == IDLE;
         r == e.(board := t, state := if complete then Verifying else Uploading,
                 awaited := e.awaited.(completes := e.awaited.completes + if complete then 1 else 0))
  {
    FillSends(e.board, 0);
    FillEnds(e.board, e.aborted);
    WholeAndIdle(Fill(e.board, 0));
    hide Fill, BoardOk, AllIdle, AllDone;
  }

  lemma FillEnds(b: Board, aborted: bool)
    requires BoardOk(b, aborted)
    ensures var t := Fill(b, 0);
      && |b.streams| == 8 && |t.streams| == 8
      && (forall s :: 0 <= s < 8 && b.streams[s].Some? ==> t.streams[s] == b.streams[s])
      && ((forall s :: 0 <= s < 8 ==> t.streams[s] != None)
          || (forall i :: 0 <= i < |t.chunks| ==> t.chunks[i] in {Inflight, Done}))
  {
    FillKeeps(b, 0, aborted);
    hide Fill, NextChunk;
  }

  lemma WholeAndIdle(b: Board)
    requires |b.streams| == 8
    ensures AllIdle(b) && AllDone(b) <==>
      b.chunks != [] && (forall i :: 0 <= i < |b.chunks| ==> b.chunks[i] == Done) && b.streams == IDLE
  {
    assert AllIdle(b) <==> b.streams == IDLE;
  }

  // ---- what the controls and the other answers do ----

  /** Only a paused or failed engine resumes, by asking for a resync; the timer resumes only an error nobody disposed of. */
  lemma ResumeAsksForResync(e: Engine)
    ensures Step(e, Resume) == if e.state == Paused || e.state == Errored
                               then e.(awaited := e.awaited.(resumeResyncs := e.awaited.resumeResyncs + 1)) else e
    ensures e.awaited.resumeTimers > 0 ==>
      var fired := e.(awaited := e.awaited.(resumeTimers := e.awaited.resumeTimers - 1));
      Step(e, ResumeTimer) == if e.state == Errored && !e.disposed
                              then fired.(awaited := fired.awaited.(resumeResyncs := fired.awaited.resumeResyncs + 1))
                              else fired
  {
  }

  /** The resync of a resume puts a parked engine back to uploading on exactly the server's DONE cells. */
  lemma ResumeAdopts(e: Engine, done: seq<bool>, now: int)
    requires e.awaited.resumeResyncs > 0 && e.started && |done| == |e.board.chunks|
    requires !e.disposed && now < e.parkedUntil
    ensures var t := Step(e, ResumeResync(Some(done), now));
      && t.state == Uploading && t.board.streams == IDLE && |t.board.chunks| == |done|
      && (forall i :: 0 <= i < |done| ==> t.board.chunks[i] == if done[i] then Done else Pending)
      && t.board.workers == e.board.workers && t.board.nextWid == e.board.nextWid && t.attempts == e.attempts
      && t.awaited == e.awaited.(resumeResyncs := e.awaited.resumeResyncs - 1, pumpTimers := e.awaited.pumpTimers + 1)
  {
  }

  /** The resync after a refused completion does the same, whatever the state was. */
  lemma RefusalAdopts(e: Engine, done: seq<bool>, now: int)
    requires e.awaited.finishResyncs > 0 && |done| == |e.board.chunks|
    requires !e.disposed && now < e.parkedUntil
    ensures var t := Step(e, FinishResync(done, now));
      && t.state == Uploading && t.board.streams == IDLE && |t.board.chunks| == |done|
      && (forall i :: 0 <= i < |done| ==> t.board.chunks[i] == if done[i] then Done else Pending)
      && t.board.workers == e.board.workers && t.board.nextWid == e.board.nextWid && t.attempts == e.attempts
      && t.awaited == e.awaited.(finishResyncs := e.awaited.finishResyncs - 1, pumpTimers := e.awaited.pumpTimers + 1)
  {
  }

  /** Pause stops an uploading engine and nothing else: what was INFLIGHT is pending again, every slot is free. */
  lemma PauseReverts(e: Engine)
    ensures e.state != Uploading ==> Step(e, Pause) == e
    ensures e.state == Uploading ==>
      var t := Step(e, Pause);
      && t == e.(state := Paused, aborted := false, board := e.board.(chunks := t.board.chunks, streams := IDLE))
      && |t.board.chunks| == |e.board.chunks|
      && forall i :: 0 <= i < |e.board.chunks| ==>
           t.board.chunks[i] == if e.board.chunks[i] == Inflight then Pending else e.board.chunks[i]
  {
  }

  /** A completed upload lands once per answer; a refused one asks for a resync; any other error is final for the run. */
  lemma CompletionAnswers(e: Engine)
    requires e.awaited.completes > 0
    ensures var asked := e.(awaited := e.awaited.(completes := e.awaited.completes - 1));
      && Step(e, CompleteOk) == asked.(state := HasLanded, landedCalls := e.landedCalls + 1)
      && Step(e, CompleteConflict) == asked.(awaited := asked.awaited.(finishResyncs := e.awaited.finishResyncs + 1))
      && Step(e, CompleteFailed).state == Errored && Step(e, CompleteFailed).awaited == asked.awaited
  {
  }

  /** Cancel and dispose stop the pump for good, cancel also ends the state. */
  lemma StoppingStops(e: Engine)
    ensures Step(e, Cancel) == e.(state := Canceled, disposed := true, aborted := true)
    ensures Step(e, Dispose) == e.(disposed := true, aborted := true)
  {
  }

  /**
   * The answers that are failures: a refused start and a failed resume end in error with nothing INFLIGHT, a failed
   * resync after a conflict only stops being awaited.
   */
  lemma FailuresEnd(e: Engine)
    ensures e.starting ==>
      var t := Step(e, StartRefused);
      t == e.(starting := false, state := Errored, board := e.board.(chunks := t.board.chunks, streams := IDLE))
      && forall i :: 0 <= i < |t.board.chunks| ==> t.board.chunks[i] != Inflight
    ensures e.awaited.resumeResyncs > 0 ==>
      var t := Step(e, ResumeResyncFailed);
      t == e.(awaited := e.awaited.(resumeResyncs := e.awaited.resumeResyncs - 1), state := Errored,
              board := e.board.(chunks := t.board.chunks, streams := IDLE))
      && forall i :: 0 <= i < |t.board.chunks| ==> t.board.chunks[i] != Inflight
    ensures e.awaited.finishResyncs > 0 ==>
      Step(e, FinishResyncFailed) == e.(awaited := e.awaited.(finishResyncs := e.awaited.finishResyncs - 1))
  {
  }

  /** A pump timer is spent when it fires; an uploading engine that is still parked arms the next one. */
  lemma TimerFires(e: Engine, now: int)
    requires e.awaited.pumpTimers > 0
    ensures e.state != Uploading || e.disposed ==>
      Step(e, PumpTimer(now)) == e.(awaited := e.awaited.(pumpTimers := e.awaited.pumpTimers - 1))
    ensures e.state == Uploading && !e.disposed && now < e.parkedUntil ==> Step(e, PumpTimer(now)) == e
    ensures e.state == Uploading && !e.disposed && now >= e.parkedUntil ==>
      Step(e, PumpTimer(now)).awaited.pumpTimers == e.awaited.pumpTimers - 1
  {
    hide Fill;
  }
}
