// The telemetry aggregator (services/telemetry/internal/jobs/aggregator.go):
// incremental counters over job events, against a recount.
module Aggregator {
  import opened Basics

  type JobId = string

  datatype State = Queued | Running | Completed | Failed | Unknown(text: string)

  datatype Rates = Rates(fps: real, speedX: real, eta: real, pct: real)

  const NO_RATES := Rates(0.0, 0.0, 0.0, 0.0)

  /** An active job: queued or running. */
  datatype Active = Active(running: bool, rates: Rates)

  /** A message body as strictUnmarshal leaves it; `atSet` is !At.IsZero(). */
  datatype Message =
    | Garbage
    | StateMsg(id: JobId, workspace: string, state: State, atSet: bool)
    | ProgressMsg(id: JobId, workspace: string, rates: Rates, atSet: bool)

  predicate InRange(r: Rates)
  {
    r.fps >= 0.0 && r.speedX >= 0.0 && r.eta >= 0.0 && 0.0 <= r.pct <= 100.0
  }

  predicate Accepted(m: Message)
  {
    match m
    case Garbage => false
    case StateMsg(id, ws, state, atSet) => id != "" && ws != "" && atSet && !state.Unknown?
    case ProgressMsg(id, ws, rates, atSet) => id != "" && ws != "" && atSet && InRange(rates)
  }

  datatype Counts = Counts(queued: int, inFlight: int, completed: int, failed: int)

  datatype Aggregate = Aggregate(counts: Counts, farmFps: real, farmSpeedX: real)

  datatype JobEvent = JobEvent(id: JobId, state: State, rates: Rates)

  // ---- the reference: one job at a time ----

  /** What one accepted message does to its own job. */
  function JobAfter(j: Option<Active>, m: Message): Option<Active>
  {
    match m
    case Garbage => j
    case StateMsg(_, _, state, _) =>
      (match state
       case Queued => if j.None? then Some(Active(false, NO_RATES)) else j
       case Running => if j.None? then Some(Active(true, NO_RATES)) else Some(j.value.(running := true))
       case _ => None)
    case ProgressMsg(_, _, rates, _) => Some(Active(true, rates))
  }

  /** A job's state after a run: a fold over the accepted messages that name it, and no others. */
  function JobFold(msgs: seq<Message>, id: JobId): Option<Active>
  {
    if msgs == [] then None
    else
      var m, before := msgs[|msgs| - 1], JobFold(msgs[..|msgs| - 1], id);
      if Accepted(m) && m.id == id then JobAfter(before, m) else before
  }

  /** Accepted terminal events of one kind. */
  function Ended(msgs: seq<Message>, state: State): int
  {
    if msgs == [] then 0
    else
      var m := msgs[|msgs| - 1];
      Ended(msgs[..|msgs| - 1], state) + if Accepted(m) && m.StateMsg? && m.state == state then 1 else 0
  }

  /** The accepted messages, in order. */
  function Kept(msgs: seq<Message>): seq<Message>
  {
    if msgs == [] then []
    else Kept(msgs[..|msgs| - 1]) + if Accepted(msgs[|msgs| - 1]) then [msgs[|msgs| - 1]] else []
  }

  /** The messages that name a job. */
  function About(msgs: seq<Message>, id: JobId): seq<Message>
  {
    if msgs == [] then []
    else
      var m := msgs[|msgs| - 1];
      About(msgs[..|msgs| - 1], id) + if !m.Garbage? && m.id == id then [m] else []
  }

  function WithState(active: map<JobId, Active>, running: bool): set<JobId>
  {
    set id | id in active && active[id].running == running
  }

  /** Farm-wide sum of one rate over the running jobs. */
  ghost function SumRunning(active: map<JobId, Active>, ids: set<JobId>, fps: bool): real
    requires ids <= active.Keys
  {
    if ids == {} then 0.0
    else
      var id :| id in ids;
      RateOf(active[id], fps) + SumRunning(active, ids - {id}, fps)
  }

  function RateOf(j: Active, fps: bool): real
  {
    if !j.running then 0.0 else if fps then j.rates.fps else j.rates.speedX
  }

  lemma {:induction false} SumRemove(active: map<JobId, Active>, ids: set<JobId>, id: JobId, fps: bool)
    requires ids <= active.Keys && id in ids
    ensures SumRunning(active, ids, fps) == RateOf(active[id], fps) + SumRunning(active, ids - {id}, fps)
    decreases |ids|
  {
    var first :| first in ids
      && SumRunning(active, ids, fps) == RateOf(active[first], fps) + SumRunning(active, ids - {first}, fps);
    if first != id {
      SumRemove(active, ids - {first}, id, fps);
      SumRemove(active, ids - {id}, first, fps);
      assert ids - {first} - {id} == ids - {id} - {first};
    }
  }

  /** The farm's rates are those of its running jobs: a job's entry moves the sums by its own rates, if it runs. */
  lemma FarmRatesOf(active: map<JobId, Active>, id: JobId)
    requires id in active
    ensures SumRunning(active, active.Keys, true)
         == (if active[id].running then active[id].rates.fps else 0.0)
            + SumRunning(active - {id}, (active - {id}).Keys, true)
    ensures SumRunning(active, active.Keys, false)
         == (if active[id].running then active[id].rates.speedX else 0.0)
            + SumRunning(active - {id}, (active - {id}).Keys, false)
    ensures SumRunning(active, {}, true) == 0.0 && SumRunning(active, {}, false) == 0.0
  {
    SumRemove(active, active.Keys, id, true);
    SumRemove(active, active.Keys, id, false);
    assert active.Keys - {id} == (active - {id}).Keys;
    SumFrame(active, active - {id}, active.Keys - {id}, true);
    SumFrame(active, active - {id}, active.Keys - {id}, false);
  }

  lemma {:induction false} SumFrame(a: map<JobId, Active>, b: map<JobId, Active>, ids: set<JobId>, fps: bool)
    requires ids <= a.Keys && ids <= b.Keys && forall id :: id in ids ==> a[id] == b[id]
    ensures SumRunning(a, ids, fps) == SumRunning(b, ids, fps)
    decreases |ids|
  {
    if ids != {} {
      var id :| id in ids;
      SumRemove(a, ids, id, fps);
      SumRemove(b, ids, id, fps);
      SumFrame(a, b, ids - {id}, fps);
    }
  }

  /** The recount: every number read off the active map and the history. */
  ghost function Recount(active: map<JobId, Active>, msgs: seq<Message>): Aggregate
  {
    Aggregate(
      Counts(|WithState(active, false)|, |WithState(active, true)|, Ended(msgs, Completed), Ended(msgs, Failed)),
      SumRunning(active, active.Keys, true), SumRunning(active, active.Keys, false))
  }

  // ---- the incremental counters ----

  /** The aggregator's fields as one value. */
  datatype View = View(active: map<JobId, Active>, counts: Counts)

  /** The switch of HandleState and the branches of HandleProgress. */
  function Handle(v: View, m: Message): View
  {
    if !Accepted(m) then v
    else
      var known := m.id in v.active;
      match m
      case StateMsg(id, _, state, _) =>
        (match state
         case Queued =>
           if known then v
           else View(v.active[id := Active(false, NO_RATES)], v.counts.(queued := v.counts.queued + 1))
         case Running =>
           if known && !v.active[id].running
           then View(v.active[id := v.active[id].(running := true)],
                     v.counts.(queued := v.counts.queued - 1, inFlight := v.counts.inFlight + 1))
           else if known then v
           else View(v.active[id := Active(true, NO_RATES)], v.counts.(inFlight := v.counts.inFlight + 1))
         case _ =>
           var left :=
             if !known then v.counts
             else if v.active[id].running then v.counts.(inFlight := v.counts.inFlight - 1)
             else v.counts.(queued := v.counts.queued - 1);
           View(v.active - {id}, if state == Completed then left.(completed := left.completed + 1)
                                 else left.(failed := left.failed + 1)))
      case ProgressMsg(id, _, rates, _) =>
        var counts :=
          if !known then v.counts.(inFlight := v.counts.inFlight + 1)
          else if !v.active[id].running
          then v.counts.(queued := v.counts.queued - 1, inFlight := v.counts.inFlight + 1)
          else v.counts;
        View(v.active[id := Active(true, rates)], counts)
  }

  function Start(): View { View(map[], Counts(0, 0, 0, 0)) }

  function Run(msgs: seq<Message>): View
  {
    if msgs == [] then Start() else Handle(Run(msgs[..|msgs| - 1]), msgs[|msgs| - 1])
  }

  lemma RunExtends(msgs: seq<Message>, m: Message)
    ensures Run(msgs + [m]) == Handle(Run(msgs), m)
  {
    assert (msgs + [m])[..|msgs|] == msgs;
  }

  lemma RejectedIsIdle(v: View, m: Message)
    requires !Accepted(m)
    ensures Handle(v, m) == v
  {
  }

  class Aggregator {
    var active: map<JobId, Active>
    var queued: int
    var inFlight: int
    var completed: int
    var failed: int
    ghost var seen: seq<Message>

    function Now(): View
      reads this
    {
      View(active, Counts(queued, inFlight, completed, failed))
    }

    ghost predicate Valid()
      reads this
    {
      Now() == Run(seen)
    }

    constructor ()
      ensures Valid() && seen == []
    {
      active, queued, inFlight, completed, failed, seen := map[], 0, 0, 0, 0, [];
    }

    /** HandleState: rejected without effect, or applied; reports the job event and the aggregate it publishes. */
    method HandleState(id: JobId, workspace: string, state: State, atSet: bool)
      returns (published: Option<(JobEvent, Aggregate)>)
      requires Valid()
      modifies this
      ensures Valid() && seen == old(seen) + [StateMsg(id, workspace, state, atSet)]
      ensures published.Some? <==> id != "" && workspace != "" && atSet && !state.Unknown?
      ensures published.None? ==> Now() == old(Now())
      ensures published.Some? ==> active == (match state
        case Queued => if id in old(active) then old(active) else old(active)[id := Active(false, Rates(0.0, 0.0, 0.0, 0.0))]
        case Running =>
          if id in old(active) then old(active)[id := Active(true, old(active)[id].rates)]
          else old(active)[id := Active(true, Rates(0.0, 0.0, 0.0, 0.0))]
        case _ => old(active) - {id})
      ensures published.Some? ==>
        completed == old(completed) + Bit(state == Completed) && failed == old(failed) + Bit(state == Failed)
      ensures published.Some? ==> published.value.1 == Recount(active, seen)
      ensures published.Some? ==> published.value.0 == JobEvent(id, state,
                if id in active then active[id].rates
                else if state == Completed then Rates(0.0, 0.0, 0.0, 100.0) else Rates(0.0, 0.0, 0.0, 0.0))
    {
      hide Run, Recount, Handle;
      seen := seen + [StateMsg(id, workspace, state, atSet)];
      RunExtends(old(seen), StateMsg(id, workspace, state, atSet));
      if id == "" || workspace == "" || !atSet || state.Unknown? {
        RejectedIsIdle(Now(), StateMsg(id, workspace, state, atSet));
        return None;
      }
      Switch(id, workspace, state);
      var aggregate := AggregateNow();
      return Some((JobEventNow(id, state), aggregate));
    }

    /** The switch of HandleState, under the lock. */
    method Switch(id: JobId, workspace: string, state: State)
      requires Accepted(StateMsg(id, workspace, state, true))
      modifies this
      ensures Now() == Handle(old(Now()), StateMsg(id, workspace, state, true)) && seen == old(seen)
      ensures active == (match state
        case Queued => if id in old(active) then old(active) else old(active)[id := Active(false, NO_RATES)]
        case Running =>
          if id in old(active) then old(active)[id := Active(true, old(active)[id].rates)]
          else old(active)[id := Active(true, NO_RATES)]
        case _ => old(active) - {id})
      ensures completed == old(completed) + Bit(state == Completed) && failed == old(failed) + Bit(state == Failed)
    {
      var known := id in active;
      if state == Queued {
        if !known {
          active := active[id := Active(false, NO_RATES)];
          queued := queued + 1;
        }
      } else if state == Running {
        if known && !active[id].running {
          queued := queued - 1;
          inFlight := inFlight + 1;
          active := active[id := active[id].(running := true)];
        } else if !known {
          active := active[id := Active(true, NO_RATES)];
          inFlight := inFlight + 1;
        }
      } else {
        if known {
          if active[id].running {
            inFlight := inFlight - 1;
          } else {
            queued := queued - 1;
          }
          active := active - {id};
        }
        if state == Completed {
          completed := completed + 1;
        } else {
          failed := failed + 1;
        }
      }
      assert id !in old(active) && state != Queued && state != Running ==> active == old(active) - {id};
      assert id in old(active) && old(active)[id].running ==>
        old(active)[id := Active(true, old(active)[id].rates)] == old(active);
    }

    /** HandleProgress: news of an unknown or queued job means it is running. */
    method HandleProgress(id: JobId, workspace: string, rates: Rates, atSet: bool)
      returns (published: Option<(JobEvent, Aggregate)>)
      requires Valid()
      modifies this
      ensures Valid() && seen == old(seen) + [ProgressMsg(id, workspace, rates, atSet)]
      ensures published.Some? <==>
        && id != "" && workspace != "" && atSet
        && rates.fps >= 0.0 && rates.speedX >= 0.0 && rates.eta >= 0.0 && 0.0 <= rates.pct <= 100.0
      ensures published.Some? ==> active == old(active)[id := Active(true, rates)]
      ensures published.Some? ==> completed == old(completed) && failed == old(failed)
      ensures published.None? ==> Now() == old(Now())
      ensures published.Some? ==> published.value == (JobEvent(id, Running, rates), Recount(active, seen))
    {
      hide Run, Recount;
      seen := seen + [ProgressMsg(id, workspace, rates, atSet)];
      RunExtends(old(seen), ProgressMsg(id, workspace, rates, atSet));
      if id == "" || workspace == "" || !atSet || !InRange(rates) {
        return None;
      }
      if id !in active {
        inFlight := inFlight + 1;
      } else if !active[id].running {
        queued := queued - 1;
        inFlight := inFlight + 1;
      }
      active := active[id := Active(true, rates)];
      var aggregate := AggregateNow();
      return Some((JobEventNow(id, Running), aggregate));
    }

    function JobEventNow(id: JobId, state: State): JobEvent
      reads this
    {
      JobEvent(id, state,
               if id in active then active[id].rates
               else if state == Completed then NO_RATES.(pct := 100.0) else NO_RATES)
    }

    /** aggregateLocked: the four counters, and the rates summed over the active jobs in map order. */
    method AggregateNow() returns (a: Aggregate)
      requires Valid()
      ensures a == Recount(active, seen)
    {
      var fps, speedX := 0.0, 0.0;
      var left := active.Keys;
      while left != {}
        invariant left <= active.Keys
        invariant fps + SumRunning(active, left, true) == SumRunning(active, active.Keys, true)
        invariant speedX + SumRunning(active, left, false) == SumRunning(active, active.Keys, false)
        decreases |left|
      {
        var id :| id in left;
        SumRemove(active, left, id, true);
        SumRemove(active, left, id, false);
        if active[id].running {
          fps := fps + active[id].rates.fps;
          speedX := speedX + active[id].rates.speedX;
        }
        left := left - {id};
      }
      CountersAreRecount(seen);
      return Aggregate(Counts(queued, inFlight, completed, failed), fps, speedX);
    }
  }

  // ---- counters equal the recount ----

  predicate Is(active: map<JobId, Active>, id: JobId, running: bool)
  {
    id in active && active[id].running == running
  }

  /** Sets that differ at most in x differ in size by whether they hold x. */
  lemma SizeMoves<T>(before: set<T>, after: set<T>, x: T)
    requires forall y :: y != x ==> (y in before <==> y in after)
    ensures |after| == |before| + Bit(x in after) - Bit(x in before)
  {
    var others := before - {x};
    assert others == after - {x};
    assert before == if x in before then others + {x} else others;
    assert after == if x in after then others + {x} else others;
  }

  lemma WithStatePut(active: map<JobId, Active>, id: JobId, j: Active, running: bool)
    ensures |WithState(active[id := j], running)|
         == |WithState(active, running)| + Bit(j.running == running) - Bit(Is(active, id, running))
  {
    SizeMoves(WithState(active, running), WithState(active[id := j], running), id);
  }

  lemma WithStateDrop(active: map<JobId, Active>, id: JobId, running: bool)
    ensures |WithState(active - {id}, running)| == |WithState(active, running)| - Bit(Is(active, id, running))
  {
    SizeMoves(WithState(active, running), WithState(active - {id}, running), id);
  }

  ghost predicate CountsActive(v: View)
  {
    v.counts.queued == |WithState(v.active, false)| && v.counts.inFlight == |WithState(v.active, true)|
  }

  lemma HandleKeepsCounts(v: View, m: Message)
    requires CountsActive(v)
    ensures CountsActive(Handle(v, m))
  {
    if Accepted(m) {
      hide WithState;
      var after := Handle(v, m);
      if m.id in after.active {
        WithStatePut(v.active, m.id, after.active[m.id], false);
        WithStatePut(v.active, m.id, after.active[m.id], true);
      } else {
        WithStateDrop(v.active, m.id, false);
        WithStateDrop(v.active, m.id, true);
      }
      if after.active == v.active {
      } else if m.id in after.active {
        assert after.active == v.active[m.id := after.active[m.id]];
      } else {
        assert after.active == v.active - {m.id};
      }
    }
  }

  lemma SplitByState(active: map<JobId, Active>)
    ensures (set id | id in active && !active[id].running) == WithState(active, false)
    ensures (set id | id in active && active[id].running) == WithState(active, true)
  {
  }

  lemma StartIsEmpty()
    ensures |WithState(Start().active, false)| == 0 && |WithState(Start().active, true)| == 0
  {
    assert WithState(map[], false) == {} && WithState(map[], true) == {};
  }

  lemma HandleCountsEnds(v: View, m: Message)
    ensures Handle(v, m).counts.completed == v.counts.completed + Bit(Accepted(m) && m.StateMsg? && m.state == Completed)
    ensures Handle(v, m).counts.failed == v.counts.failed + Bit(Accepted(m) && m.StateMsg? && m.state == Failed)
  {
  }

  /**
   * After any messages the four counters are the recount: cardinalities of the active
   * map by state, and the accepted terminal events.
   */
  lemma {:induction false} CountersAreRecount(msgs: seq<Message>)
    ensures Run(msgs).counts == Recount(Run(msgs).active, msgs).counts
    ensures var active := Run(msgs).active;
      && Run(msgs).counts.queued == |set id | id in active && !active[id].running|
      && Run(msgs).counts.inFlight == |set id | id in active && active[id].running|
  {
    SplitByState(Run(msgs).active);
    hide Handle, WithState, Accepted;
    if msgs == [] {
      StartIsEmpty();
    } else {
      CountersAreRecount(msgs[..|msgs| - 1]);
      HandleKeepsCounts(Run(msgs[..|msgs| - 1]), msgs[|msgs| - 1]);
      HandleCountsEnds(Run(msgs[..|msgs| - 1]), msgs[|msgs| - 1]);
    }
  }

  /** The active map is, job by job, the fold of that job's own accepted messages. */
  lemma {:induction false} ActiveIsPerJobFold(msgs: seq<Message>, id: JobId)
    ensures JobFold(msgs, id) == if id in Run(msgs).active then Some(Run(msgs).active[id]) else None
  {
    if msgs != [] {
      ActiveIsPerJobFold(msgs[..|msgs| - 1], id);
    }
  }

  /** Rejected messages leave no trace: the state is a fold of the accepted messages alone. */
  lemma {:induction false} RejectedLeaveNoTrace(msgs: seq<Message>)
    ensures Run(msgs) == Run(Kept(msgs))
  {
    if msgs != [] {
      var front, m := msgs[..|msgs| - 1], msgs[|msgs| - 1];
      RejectedLeaveNoTrace(front);
      if Accepted(m) {
        assert Kept(msgs)[..|Kept(msgs)| - 1] == Kept(front);
      } else {
        assert Kept(msgs) == Kept(front);
      }
    }
  }

  lemma {:induction false} FoldOfAbout(msgs: seq<Message>, id: JobId)
    ensures JobFold(msgs, id) == JobFold(About(msgs, id), id)
  {
    if msgs != [] {
      var front, m := msgs[..|msgs| - 1], msgs[|msgs| - 1];
      FoldOfAbout(front, id);
      if !m.Garbage? && m.id == id {
        assert About(msgs, id)[..|About(msgs, id)| - 1] == About(front, id);
      } else {
        assert About(msgs, id) == About(front, id);
      }
    }
  }

  /** Two runs that agree on one job's messages agree on that job, whatever the other jobs did in between. */
  lemma JobsAreIndependent(a: seq<Message>, b: seq<Message>, id: JobId)
    requires About(a, id) == About(b, id)
    ensures id in Run(a).active <==> id in Run(b).active
    ensures id in Run(a).active ==> Run(a).active[id] == Run(b).active[id]
  {
    FoldOfAbout(a, id);
    FoldOfAbout(b, id);
    ActiveIsPerJobFold(a, id);
    ActiveIsPerJobFold(b, id);
  }
}
