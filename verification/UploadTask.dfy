// class UploadTask of engine.ts, its methods updating the fields in place.
module UploadTask {
  import opened Basics
  import opened UploadEngine

  class UploadTask {
    var state: EngineState
    var disposed: bool
    var starting: bool
    var started: bool
    var aborted: bool
    var chunkStates: seq<ChunkState>
    var streams: seq<Option<nat>>
    var workers: map<Wid, Worker>
    var nextWid: Wid
    var attempts: map<nat, nat>
    var parkedUntil: int
    var landedCalls: nat
    var awaited: Awaited

    function View(): Engine
      reads this
    {
      Engine(state, disposed, starting, started, aborted, Board(chunkStates, streams, workers, nextWid),
             attempts, parkedUntil, landedCalls, awaited)
    }

    constructor ()
      ensures View() == Init()
    {
      state, disposed, starting, started, aborted := Uploading, false, true, false, false;
      chunkStates, streams, workers, nextWid := [], IDLE, map[], 0;
      attempts, parkedUntil, landedCalls, awaited := map[], 0, 0, Awaited(0, 0, 0, 0, 0);
    }

    method ClaimNext() returns (i: Option<nat>)
      ensures i == NextChunk(chunkStates, 0)
      ensures i.None? <==> forall k :: 0 <= k < |chunkStates| ==> chunkStates[k] == Inflight || chunkStates[k] == Done
      ensures i.Some? ==> i.value < |chunkStates| && (chunkStates[i.value] == Pending || chunkStates[i.value] == Retry)
    {
      for k := 0 to |chunkStates|
        invariant NextChunk(chunkStates, 0) == NextChunk(chunkStates, k)
      {
        if chunkStates[k] == Pending || chunkStates[k] == Retry {
          return Some(k);
        }
      }
      return None;
    }

    method EveryStreamIdle() returns (idle: bool)
      ensures idle == AllIdle(View().board)
    {
      for k := 0 to |streams|
        invariant forall s :: 0 <= s < k ==> streams[s].None?
      {
        if streams[k].Some? {
          return false;
        }
      }
      return true;
    }

    method EveryChunkDone() returns (done: bool)
      ensures done == AllDone(View().board)
    {
      if |chunkStates| == 0 {
        return false;
      }
      for k := 0 to |chunkStates|
        invariant forall i :: 0 <= i < k ==> chunkStates[i] == Done
      {
        if chunkStates[k] != Done {
          return false;
        }
      }
      return true;
    }

    /** Take the slot, mark the chunk, start moveChunk. */
    method StartMove(slot: nat, index: nat)
      requires slot < |streams| && index < |chunkStates|
      modifies this
      ensures View() == old(View()).(board := Launch(old(View()).board, slot, index))
    {
      streams := streams[slot := Some(index)];
      chunkStates := chunkStates[index := Inflight];
      workers := workers[nextWid := Worker(slot, index)];
      nextWid := nextWid + 1;
    }

    /** The loop of pump over the slots. */
    method FillSlots()
      modifies this
      ensures View() == old(View()).(board := Fill(old(View()).board, 0))
    {
      hide Launch;
      var s := 0;
      while s < |streams|
        invariant 0 <= s <= |streams|
        invariant Fill(View().board, s) == Fill(old(View()).board, 0)
        invariant View() == old(View()).(board := View().board)
        decreases |streams| - s
      {
        if streams[s].None? {
          var next := ClaimNext();
          if next.None? {
            return;
          }
          StartMove(s, next.value);
        }
        s := s + 1;
      }
    }

    method PumpNow(now: int)
      modifies this
      ensures View() == Pump(old(View()), now)
    {
      if state != Uploading || disposed {
        return;
      }
      if now < parkedUntil {
        awaited := awaited.(pumpTimers := awaited.pumpTimers + 1);
        return;
      }
      FillSlots();
      var idle := EveryStreamIdle();
      var done := EveryChunkDone();
      if idle && done {
        state := Verifying;
        awaited := awaited.(completes := awaited.completes + 1);
      }
    }

    method RevertInflight()
      modifies this
      ensures View() == Revert(old(View()))
    {
      var reverted: seq<ChunkState> := [];
      for i := 0 to |chunkStates|
        invariant |reverted| == i && reverted == Reverted(chunkStates)[..i]
        invariant View() == old(View())
      {
        reverted := reverted + [if chunkStates[i] == Inflight then Pending else chunkStates[i]];
      }
      assert reverted == Reverted(chunkStates);
      streams := IDLE;
      chunkStates := reverted;
    }

    method Fail()
      modifies this
      ensures View() == Failed(old(View()))
    {
      state := Errored;
      RevertInflight();
    }

    /** moveChunk after a 200. */
    method OnStored(wid: Wid, now: int)
      requires Known(View(), wid)
      modifies this
      ensures View() == ChunkStored(old(View()), wid, now)
    {
      var w := workers[wid];
      chunkStates := chunkStates[w.index := Done];
      streams := streams[w.slot := None];
      workers := workers - {wid};
      PumpNow(now);
    }

    /** moveChunk after a 429. */
    method OnSaturated(wid: Wid, now: int, retryAfter: int)
      requires Known(View(), wid)
      modifies this
      ensures View() == Saturated(old(View()), wid, now, retryAfter)
      ensures parkedUntil == now + retryAfter && attempts == old(attempts)
      ensures old(state) == Uploading && !old(disposed) && retryAfter > 0 ==>
        && chunkStates == old(chunkStates)[old(workers)[wid].index := Pending]
        && streams == old(streams)[old(workers)[wid].slot := None]
        && workers == old(workers) - {wid} && nextWid == old(nextWid)
        && awaited == old(awaited).(pumpTimers := old(awaited).pumpTimers + 1)
    {
      hide Pump, Step;
      if state == Uploading && !disposed && retryAfter > 0 {
        SaturatedParks(View(), wid, now, retryAfter);
      }
      var w := workers[wid];
      streams := streams[w.slot := None];
      chunkStates := chunkStates[w.index := Pending];
      workers := workers - {wid};
      parkedUntil := now + retryAfter;
      PumpNow(now);
    }

    /** The catch block of moveChunk. */
    method OnFailed(wid: Wid, transport: bool, now: int)
      requires Known(View(), wid)
      modifies this
      ensures View() == ChunkFailed(old(View()), wid, transport, now)
    {
      hide Pump;
      var w := workers[wid];
      workers := workers - {wid};
      if aborted {
        return;
      }
      streams := streams[w.slot := None];
      var n := Attempts(View(), w.index) + 1;
      attempts := attempts[w.index := n];
      if n >= MAX_CHUNK_ATTEMPTS {
        assert chunkStates[w.index := chunkStates[w.index]] == chunkStates;
        Fail();
        if transport {
          awaited := awaited.(resumeTimers := awaited.resumeTimers + 1);
        }
        return;
      }
      chunkStates := chunkStates[w.index := Retry];
      PumpNow(now);
    }

    /** resyncFromServer's loop over the server's cells. */
    method Adopt(done: seq<bool>)
      modifies this
      ensures View() == Resynced(old(View()), Some(done))
    {
      var next: seq<ChunkState> := [];
      for i := 0 to |done|
        invariant |next| == i && next == Adopted(done)[..i]
        invariant View() == old(View())
      {
        next := next + [if done[i] then Done else Pending];
      }
      assert next == Adopted(done);
      chunkStates := next;
      streams := IDLE;
    }

    /** The rest of finish once the resync after a conflict has answered. */
    method OnFinishResync(done: seq<bool>, now: int)
      requires Enabled(View(), FinishResync(done, now))
      modifies this
      ensures View() == Apply(old(View()), FinishResync(done, now))
    {
      awaited := awaited.(finishResyncs := awaited.finishResyncs - 1);
      Adopt(done);
      state := Uploading;
      PumpNow(now);
    }

    method OnPause()
      modifies this
      ensures View() == Apply(old(View()), Pause)
    {
      if state != Uploading {
        return;
      }
      state := Paused;
      aborted := false;
      RevertInflight();
    }

    method OnCancel()
      modifies this
      ensures View() == Apply(old(View()), Cancel)
    {
      aborted := true;
      state := Canceled;
      disposed := true;
    }
  }
}
