// Usage rollups: rollupDelta, ApplyMetering and the metering consumer under
// at-least-once delivery (services/tenancy/metering.go, services/tenancy/postgres.go).
module Rollup {
  import opened Basics
  import GoInt

  type EventId = string
  type Workspace = string

  /** A UTC instant; `rest` is everything below the month. */
  datatype Instant = Instant(year: int, month: int, rest: nat)

  /** time.Time{}, for which At.IsZero holds. */
  const ZERO_TIME := Instant(1, 1, 0)

  datatype Kind = SessionCreated | UploadCompleted | JobQueued | JobStarted | JobCompleted | JobFailed | Other(text: string)

  datatype Event = Event(
    id: EventId, workspace: Workspace, kind: Kind, bytes: Option<int>, encodeSeconds: Option<real>, at: Instant)

  /** The counters of one usage row, and equally one event's increments. */
  datatype Counters = Counters(
    bytes: int, seconds: real, sessions: int, uploads: int, queued: int, started: int, completed: int, failed: int)

  const NOTHING := Counters(0, 0.0, 0, 0, 0, 0, 0, 0)

  function Add(a: Counters, b: Counters): Counters
  {
    Counters(a.bytes + b.bytes, a.seconds + b.seconds, a.sessions + b.sessions, a.uploads + b.uploads,
             a.queued + b.queued, a.started + b.started, a.completed + b.completed, a.failed + b.failed)
  }

  /** Every integer column is a bigint: an update that would leave its range fails the statement. */
  predicate InRange(c: Counters)
  {
    && c.bytes <= GoInt.MAX_INT64 && c.sessions <= GoInt.MAX_INT64 && c.uploads <= GoInt.MAX_INT64
    && c.queued <= GoInt.MAX_INT64 && c.started <= GoInt.MAX_INT64
    && c.completed <= GoInt.MAX_INT64 && c.failed <= GoInt.MAX_INT64
  }

  /** (workspace_id, month), the primary key of the usage table. */
  datatype Key = Key(workspace: Workspace, year: int, month: int)

  function KeyOf(e: Event): Key
  {
    Key(e.workspace, e.at.year, e.at.month)
  }

  function BytesOf(e: Event): int { if e.bytes.Some? then e.bytes.value else 0 }

  function SecondsOf(e: Event): real { if e.encodeSeconds.Some? then e.encodeSeconds.value else 0.0 }

  /** rollupDelta: the increments of one event, or nothing when it is malformed. */
  function Delta(e: Event): (d: Option<Counters>)
    ensures d.None? <==>
      || e.id == "" || e.workspace == "" || e.at == Instant(1, 1, 0) || e.kind.Other?
      || (e.bytes.Some? && e.bytes.value < 0) || (e.encodeSeconds.Some? && e.encodeSeconds.value < 0.0)
    ensures d.Some? ==>
      && d.value.sessions == Bit(e.kind == SessionCreated) && d.value.uploads == Bit(e.kind == UploadCompleted)
      && d.value.queued == Bit(e.kind == JobQueued) && d.value.started == Bit(e.kind == JobStarted)
      && d.value.completed == Bit(e.kind == JobCompleted) && d.value.failed == Bit(e.kind == JobFailed)
    ensures d.Some? ==>
      d.value.bytes == if e.kind == UploadCompleted && e.bytes.Some? then e.bytes.value else 0
    ensures d.Some? ==>
      d.value.seconds == if (e.kind == JobCompleted || e.kind == JobFailed) && e.encodeSeconds.Some?
                         then e.encodeSeconds.value else 0.0
  {
    if e.id == "" || e.workspace == "" || e.at == ZERO_TIME then None
    else if e.bytes.Some? && e.bytes.value < 0 then None
    else if e.encodeSeconds.Some? && e.encodeSeconds.value < 0.0 then None
    else match e.kind
      case SessionCreated => Some(NOTHING.(sessions := 1))
      case UploadCompleted => Some(NOTHING.(uploads := 1, bytes := BytesOf(e)))
      case JobQueued => Some(NOTHING.(queued := 1))
      case JobStarted => Some(NOTHING.(started := 1))
      case JobCompleted => Some(NOTHING.(completed := 1, seconds := SecondsOf(e)))
      case JobFailed => Some(NOTHING.(failed := 1, seconds := SecondsOf(e)))
      case Other(_) => None
  }

  predicate WellFormed(e: Event)
  {
    Delta(e).Some?
  }

  /** A raw message body: JSON that does not decode, or the event it decodes to. */
  datatype Payload = Garbage | Decoded(event: Event)

  /** A payload that can be applied some day; the others are terminated. */
  predicate CanParse(p: Payload)
  {
    p.Decoded? && WellFormed(p.event)
  }

  // ---- the database ----

  /** tenancy_metering_events (keyed by event id) and tenancy_usage_rollups. */
  datatype Db = Db(events: set<Event>, rollups: map<Key, Counters>)

  predicate Recorded(db: Db, id: EventId)
  {
    exists e :: e in db.events && e.id == id
  }

  function RollupAt(db: Db, k: Key): Counters
  {
    if k in db.rollups then db.rollups[k] else NOTHING
  }

  datatype Answer = Applied | Duplicate | Failed

  /** The transaction commits and says so, fails and rolls back, or commits and its answer is lost. */
  function ApplyMetering(db: Db, e: Event, d: Counters, o: Outcome): (Db, Answer)
  {
    if o == FailsBefore then (db, Failed)
    else if Recorded(db, e.id) then (db, if o == Succeeds then Duplicate else Failed)
    else if !InRange(Add(RollupAt(db, KeyOf(e)), d)) then (db, Failed)
    else
      (Insert(db, e, d),
       if o == Succeeds then Applied else Failed)
  }

  datatype Verdict = Ack | Nak | Term

  /** consumeMeteringPayload followed by the choice of reply. */
  function Consume(db: Db, p: Payload, o: Outcome): (Db, Verdict)
  {
    if !CanParse(p) then (db, Term)
    else
      var r := ApplyMetering(db, p.event, Delta(p.event).value, o);
      (r.0, if r.1 == Failed then Nak else Ack)
  }

  /** The store and the message handler. */
  class MeteringConsumer {
    var events: set<Event>
    var rollups: map<Key, Counters>

    function View(): Db
      reads this
    {
      Db(events, rollups)
    }

    constructor ()
      ensures View() == Db({}, map[])
    {
      events, rollups := {}, map[];
    }

    /** INSERT ... ON CONFLICT DO NOTHING, then the upsert of the month's row, in one transaction. */
    method ApplyInTx(e: Event, d: Counters, o: Outcome) returns (a: Answer)
      modifies this
      ensures (View(), a) == ApplyMetering(old(View()), e, d, o)
    {
      if o == FailsBefore {
        return Failed;
      }
      if exists r :: r in events && r.id == e.id {
        return if o == Succeeds then Duplicate else Failed;
      }
      var k := KeyOf(e);
      var row := if k in rollups then rollups[k] else NOTHING;
      if !InRange(Add(row, d)) {
        return Failed;
      }
      events := events + {e};
      rollups := rollups[k := Add(row, d)];
      return if o == Succeeds then Applied else Failed;
    }

    /** handle: terminate what can never parse, retry what failed, acknowledge the rest. */
    method Handle(p: Payload, o: Outcome) returns (v: Verdict)
      modifies this
      ensures (View(), v) == Consume(old(View()), p, o)
    {
      var answer := Failed;
      if p.Decoded? {
        var d := Delta(p.event);
        if d.Some? {
          answer := ApplyInTx(p.event, d.value, o);
        }
      }
      if answer == Failed {
        return if IsTerminal(p) then Term else Nak;
      }
      return Ack;
    }
  }

  /** isTerminalMeteringErr re-parses the payload. */
  predicate IsTerminal(p: Payload)
  {
    p.Garbage? || Delta(p.event).None?
  }

  // ---- delivery ----

  datatype MsgState = Pending | Acked | Termed

  /** One delivery that has run its transaction and not yet replied. */
  datatype Delivery = Delivery(msg: nat, verdict: Verdict)

  /** The stream, what it knows of each message, the database and the deliveries in progress. */
  datatype Sys = Sys(stream: seq<Payload>, states: seq<MsgState>, db: Db, inflight: map<nat, Delivery>)

  /** A message may be delivered at any time and any number of times; a reply may be lost with its handler. */
  datatype Act =
    | Publish(p: Payload)
    | Deliver(tid: nat, msg: nat, o: Outcome)
    | Reply(tid: nat)
    | Crash(tid: nat)

  function Start(): Sys
  {
    Sys([], [], Db({}, map[]), map[])
  }

  function Settle(s: MsgState, v: Verdict): MsgState
  {
    if s != Pending || v == Nak then s else if v == Ack then Acked else Termed
  }

  function Step(s: Sys, a: Act): Sys
    requires |s.states| == |s.stream|
  {
    match a
    case Publish(p) => s.(stream := s.stream + [p], states := s.states + [Pending])
    case Deliver(tid, msg, o) =>
      if tid in s.inflight || msg >= |s.stream| then s
      else
        var r := Consume(s.db, s.stream[msg], o);
        s.(db := r.0, inflight := s.inflight[tid := Delivery(msg, r.1)])
    case Reply(tid) =>
      if tid !in s.inflight || s.inflight[tid].msg >= |s.stream| then s
      else
        var d := s.inflight[tid];
        s.(states := s.states[d.msg := Settle(s.states[d.msg], d.verdict)], inflight := s.inflight - {tid})
    case Crash(tid) => s.(inflight := s.inflight - {tid})
  }

  function Exec(acts: seq<Act>): (s: Sys)
    ensures |s.states| == |s.stream|
  {
    if acts == [] then Start() else Step(Exec(acts[..|acts| - 1]), acts[|acts| - 1])
  }

  // ---- the reference: sums over the recorded events ----

  function Share(e: Event, k: Key): Counters
  {
    if KeyOf(e) == k && WellFormed(e) then Delta(e).value else NOTHING
  }

  /** The sum of rollupDelta over a set of events, for one workspace and month. */
  ghost function Total(events: set<Event>, k: Key): Counters
  {
    if events == {} then NOTHING
    else
      var e :| e in events;
      Add(Share(e, k), Total(events - {e}, k))
  }

  lemma {:induction false} TotalRemove(events: set<Event>, e: Event, k: Key)
    requires e in events
    ensures Total(events, k) == Add(Share(e, k), Total(events - {e}, k))
    decreases |events|
  {
    hide Add, Share;
    var first :| first in events && Total(events, k) == Add(Share(first, k), Total(events - {first}, k));
    if first != e {
      TotalRemove(events - {first}, e, k);
      TotalRemove(events - {e}, first, k);
      assert events - {first} - {e} == events - {e} - {first};
      AddSwaps(Share(first, k), Share(e, k), Total(events - {first} - {e}, k));
    }
  }

  lemma AddSwaps(a: Counters, b: Counters, c: Counters)
    ensures Add(a, Add(b, c)) == Add(b, Add(a, c))
  {
  }

  lemma TotalInsert(events: set<Event>, e: Event, k: Key)
    requires e !in events
    ensures Total(events + {e}, k) == Add(Share(e, k), Total(events, k))
  {
    TotalRemove(events + {e}, e, k);
    assert events + {e} - {e} == events;
  }

  // ---- what every run keeps ----

  ghost predicate RowsAreTotals(db: Db)
  {
    forall k :: RollupAt(db, k) == Total(db.events, k)
  }

  ghost predicate RowsAreInRange(db: Db)
  {
    forall k :: k in db.rollups ==> InRange(db.rollups[k])
  }

  /** There is a row for exactly the keys of the recorded events. */
  ghost predicate RowsHaveEvents(db: Db)
  {
    forall k :: k in db.rollups <==> exists e :: e in db.events && KeyOf(e) == k
  }

  ghost predicate RollupsAreSums(db: Db)
  {
    RowsAreTotals(db) && RowsAreInRange(db) && RowsHaveEvents(db)
  }

  ghost predicate IdsUnique(db: Db)
  {
    && (forall e, f :: e in db.events && f in db.events && e.id == f.id ==> e == f)
    && (forall e :: e in db.events ==> WellFormed(e))
  }

  /** The database with one more event and its increments. */
  function Insert(db: Db, e: Event, d: Counters): Db
  {
    Db(db.events + {e}, db.rollups[KeyOf(e) := Add(RollupAt(db, KeyOf(e)), d)])
  }

  lemma InsertKeepsTotals(db: Db, e: Event)
    requires RowsAreTotals(db) && WellFormed(e) && e !in db.events
    ensures RowsAreTotals(Insert(db, e, Delta(e).value))
  {
    hide Total, Add, Share, Insert;
    var after := Insert(db, e, Delta(e).value);
    forall k ensures RollupAt(after, k) == Total(after.events, k) {
      InsertAddsShare(db, e, k);
      TotalInsert(db.events, e, k);
      AddComm(Total(db.events, k), Share(e, k));
    }
  }

  /** Inserting an event moves its own key's row by its increments and no other row. */
  lemma InsertAddsShare(db: Db, e: Event, k: Key)
    requires WellFormed(e)
    ensures RollupAt(Insert(db, e, Delta(e).value), k) == Add(RollupAt(db, k), Share(e, k))
    ensures Insert(db, e, Delta(e).value).events == db.events + {e}
  {
    hide Add, Delta;
    AddComm(RollupAt(db, k), NOTHING);
  }

  lemma AddComm(a: Counters, b: Counters)
    ensures Add(a, b) == Add(b, a) && Add(NOTHING, a) == a
  {
  }

  lemma InsertKeepsRows(db: Db, e: Event, d: Counters)
    requires RowsHaveEvents(db)
    ensures RowsHaveEvents(Insert(db, e, d))
  {
    hide Add;
    var after := Insert(db, e, d);
    forall k ensures k in after.rollups <==> exists f :: f in after.events && KeyOf(f) == k {
      if k in after.rollups && k != KeyOf(e) {
        var f :| f in db.events && KeyOf(f) == k;
        assert f in after.events;
      }
      if k == KeyOf(e) {
        assert e in after.events;
      }
    }
  }

  lemma ApplyKeepsSums(db: Db, e: Event, o: Outcome)
    requires RollupsAreSums(db) && IdsUnique(db) && WellFormed(e)
    ensures RollupsAreSums(ApplyMetering(db, e, Delta(e).value, o).0)
    ensures IdsUnique(ApplyMetering(db, e, Delta(e).value, o).0)
  {
    hide RowsAreTotals, RowsHaveEvents, Add, Delta, InRange;
    if ApplyMetering(db, e, Delta(e).value, o).0 != db {
      assert ApplyMetering(db, e, Delta(e).value, o).0 == Insert(db, e, Delta(e).value);
      InsertKeepsTotals(db, e);
      InsertKeepsRows(db, e, Delta(e).value);
    }
  }

  /**
   * A transaction, however it ends, leaves the database alone or records exactly the event; an answer means it is
   * recorded.
   */
  lemma ApplyRecords(db: Db, e: Event, d: Counters, o: Outcome)
    ensures db.events <= ApplyMetering(db, e, d, o).0.events <= db.events + {e}
    ensures ApplyMetering(db, e, d, o).1 != Failed ==> Recorded(ApplyMetering(db, e, d, o).0, e.id)
  {
    var after := ApplyMetering(db, e, d, o).0;
    if after != db {
      assert e in after.events;
    }
  }

  ghost predicate Settled(s: Sys, m: nat, v: Verdict)
    requires m < |s.stream|
  {
    && (v == Ack ==> CanParse(s.stream[m]) && Recorded(s.db, s.stream[m].event.id))
    && (v == Term ==> !CanParse(s.stream[m]))
  }

  ghost predicate RepliesAreJustified(s: Sys)
  {
    && |s.states| == |s.stream|
    && (forall t :: t in s.inflight ==> s.inflight[t].msg < |s.stream| && Settled(s, s.inflight[t].msg, s.inflight[t].verdict))
    && (forall m :: 0 <= m < |s.stream| ==> s.states[m] == Acked ==> Settled(s, m, Ack))
    && (forall m :: 0 <= m < |s.stream| ==> s.states[m] == Termed ==> Settled(s, m, Term))
  }

  ghost predicate FromStream(s: Sys)
  {
    forall e :: e in s.db.events ==> Decoded(e) in s.stream
  }

  ghost predicate Inv(s: Sys)
  {
    RollupsAreSums(s.db) && IdsUnique(s.db) && RepliesAreJustified(s) && FromStream(s)
  }

  lemma RecordedGrows(a: Db, b: Db, id: EventId)
    requires a.events <= b.events && Recorded(a, id)
    ensures Recorded(b, id)
  {
    var e :| e in a.events && e.id == id;
    assert e in b.events;
  }

  lemma StepKeepsInv(s: Sys, a: Act)
    requires Inv(s)
    ensures Inv(Step(s, a))
  {
    hide RollupsAreSums, IdsUnique, Delta, WellFormed;
    var t := Step(s, a);
    match a
    case Publish(p) => PublishKeeps(s, p);
    case Deliver(tid, msg, o) =>
      if tid !in s.inflight && msg < |s.stream| {
        DeliverKeeps(s, tid, msg, o);
      }
    case Reply(tid) =>
    case Crash(tid) =>
  }

  lemma PublishKeeps(s: Sys, p: Payload)
    requires Inv(s)
    ensures Inv(Step(s, Publish(p)))
  {
    hide RollupsAreSums, IdsUnique, Delta, WellFormed;
    var t := Step(s, Publish(p));
    forall e | e in t.db.events ensures Decoded(e) in t.stream {
      assert Decoded(e) in s.stream;
    }
    assert forall m :: 0 <= m < |s.stream| ==> t.stream[m] == s.stream[m];
  }

  /** One delivery: the database stays a sum, gains at most the payload's own event, and the verdict is justified. */
  lemma ConsumeKeeps(db: Db, p: Payload, o: Outcome)
    requires RollupsAreSums(db) && IdsUnique(db)
    ensures RollupsAreSums(Consume(db, p, o).0) && IdsUnique(Consume(db, p, o).0)
    ensures db.events <= Consume(db, p, o).0.events
    ensures forall e :: e in Consume(db, p, o).0.events ==> e in db.events || p == Decoded(e)
    ensures Consume(db, p, o).1 == Ack ==> CanParse(p) && Recorded(Consume(db, p, o).0, p.event.id)
    ensures Consume(db, p, o).1 == Term <==> !CanParse(p)
  {
    hide RollupsAreSums, IdsUnique, Delta, ApplyMetering;
    if CanParse(p) {
      ApplyKeepsSums(db, p.event, o);
      ApplyRecords(db, p.event, Delta(p.event).value, o);
    }
  }

  lemma DeliverKeeps(s: Sys, tid: nat, msg: nat, o: Outcome)
    requires Inv(s) && tid !in s.inflight && msg < |s.stream|
    ensures Inv(Step(s, Deliver(tid, msg, o)))
  {
    hide RollupsAreSums, IdsUnique, Delta, WellFormed, ApplyMetering;
    var p, t := s.stream[msg], Step(s, Deliver(tid, msg, o));
    ConsumeKeeps(s.db, p, o);
    forall m: nat | m < |s.stream| && s.states[m] == Acked ensures Settled(t, m, Ack) {
      RecordedGrows(s.db, t.db, s.stream[m].event.id);
    }
    forall u | u in s.inflight ensures Settled(t, s.inflight[u].msg, s.inflight[u].verdict) {
      if s.inflight[u].verdict == Ack {
        RecordedGrows(s.db, t.db, s.stream[s.inflight[u].msg].event.id);
      }
    }
  }

  lemma {:induction false} ReachableInv(acts: seq<Act>)
    ensures Inv(Exec(acts))
  {
    if acts == [] {
      assert forall k :: Total({}, k) == NOTHING;
    } else {
      ReachableInv(acts[..|acts| - 1]);
      StepKeepsInv(Exec(acts[..|acts| - 1]), acts[|acts| - 1]);
    }
  }

  // ---- main results ----

  /**
   * Exactly-once rollups: after any deliveries, duplicates, failures and lost
   * replies, each (workspace, month) row is the sum of rollupDelta over the set of
   * distinct recorded events, and there is a row only for recorded events.
   */
  lemma ExactlyOnce(acts: seq<Act>, k: Key)
    ensures var db := Exec(acts).db;
            && RollupAt(db, k) == Total(db.events, k)
            && (k in db.rollups <==> exists e :: e in db.events && KeyOf(e) == k)
            && (forall e, f :: e in db.events && f in db.events && e.id == f.id ==> e == f)
  {
    ReachableInv(acts);
  }

  /** A message is acknowledged only once its event is recorded, and terminated only if it can never be applied. */
  lemma RepliesAreSafe(acts: seq<Act>, m: nat)
    requires m < |Exec(acts).stream|
    ensures Exec(acts).states[m] == Acked ==>
              CanParse(Exec(acts).stream[m]) && Recorded(Exec(acts).db, Exec(acts).stream[m].event.id)
    ensures Exec(acts).states[m] == Termed ==> !CanParse(Exec(acts).stream[m])
  {
    ReachableInv(acts);
  }

  ghost predicate OnePayloadPerId(stream: seq<Payload>)
  {
    forall p, q :: p in stream && q in stream && p.Decoded? && q.Decoded? && p.event.id == q.event.id ==> p == q
  }

  /** The distinct well-formed events of a stream. */
  ghost function Billable(stream: seq<Payload>): set<Event>
  {
    set p | p in stream && CanParse(p) :: p.event
  }

  /**
   * Once every message is settled the rollups are a function of the stream alone:
   * the order, the duplicates and the failures along the way have left no trace.
   */
  lemma DrainedRollups(acts: seq<Act>, k: Key)
    requires OnePayloadPerId(Exec(acts).stream)
    requires forall m :: 0 <= m < |Exec(acts).stream| ==> Exec(acts).states[m] != Pending
    ensures RollupAt(Exec(acts).db, k) == Total(Billable(Exec(acts).stream), k)
  {
    ReachableInv(acts);
    var s := Exec(acts);
    forall e ensures e in s.db.events <==> e in Billable(s.stream) {
      if e in s.db.events {
        assert Decoded(e) in s.stream && CanParse(Decoded(e));
        assert Decoded(e).event in Billable(s.stream);
      }
      if e in Billable(s.stream) {
        var p :| p in s.stream && CanParse(p) && p.event == e;
        var m :| 0 <= m < |s.stream| && s.stream[m] == p;
        assert Settled(s, m, Ack);
        var r :| r in s.db.events && r.id == e.id;
        assert Decoded(r) in s.stream;
      }
    }
    assert s.db.events == Billable(s.stream);
  }

  /**
   * One delivery of an unrecorded event is refused for a retry when its increment leaves the bigint range, and only
   * then if no call fails.
   */
  lemma OverflowIsRefused(db: Db, e: Event, o: Outcome)
    requires WellFormed(e) && !Recorded(db, e.id)
    ensures var k := Key(e.workspace, e.at.year, e.at.month);
      var row := if k in db.rollups then db.rollups[k] else Counters(0, 0.0, 0, 0, 0, 0, 0, 0);
      if FitsIn(row, Delta(e).value, 0x7FFF_FFFF_FFFF_FFFF) then Consume(db, Decoded(e), Succeeds).1 == Ack
      else Consume(db, Decoded(e), o) == (db, Nak)
  {
  }

  /** Column by column, row plus increment stays within the bound. */
  predicate FitsIn(row: Counters, d: Counters, bound: int)
  {
    && row.bytes + d.bytes <= bound && row.sessions + d.sessions <= bound && row.uploads + d.uploads <= bound
    && row.queued + d.queued <= bound && row.started + d.started <= bound
    && row.completed + d.completed <= bound && row.failed + d.failed <= bound
  }

  function Continue(s: Sys, acts: seq<Act>): (t: Sys)
    requires |s.states| == |s.stream|
    ensures |t.states| == |t.stream|
  {
    if acts == [] then s else Step(Continue(s, acts[..|acts| - 1]), acts[|acts| - 1])
  }

  /** No counter of the second row is below the first's. */
  predicate AtLeast(a: Counters, b: Counters)
  {
    && a.bytes <= b.bytes && a.sessions <= b.sessions && a.uploads <= b.uploads && a.queued <= b.queued
    && a.started <= b.started && a.completed <= b.completed && a.failed <= b.failed
  }

  lemma DeltaIsPositive(e: Event)
    requires WellFormed(e)
    ensures AtLeast(NOTHING, Delta(e).value)
  {
  }

  lemma OutOfRangeStays(a: Counters, b: Counters, d: Counters)
    requires AtLeast(a, b) && !InRange(Add(a, d))
    ensures !InRange(Add(b, d))
  {
  }

  /** Rows only grow, and a recorded event was within range when it was recorded. */
  lemma ConsumeGrows(db: Db, p: Payload, o: Outcome, e: Event)
    ensures AtLeast(RollupAt(db, KeyOf(e)), RollupAt(Consume(db, p, o).0, KeyOf(e)))
    ensures e in Consume(db, p, o).0.events && e !in db.events ==>
              CanParse(p) && InRange(Add(RollupAt(db, KeyOf(e)), Delta(e).value))
  {
    if CanParse(p) {
      DeltaIsPositive(p.event);
      hide Delta, WellFormed;
      assert AtLeast(NOTHING, Delta(p.event).value);
    }
  }

  ghost predicate NeverRecorded(s: Sys, e: Event)
    requires |s.states| == |s.stream|
  {
    forall acts :: e !in Continue(s, acts).db.events
  }

  lemma {:induction false} OutOfRangeForever(s: Sys, acts: seq<Act>, e: Event)
    requires |s.states| == |s.stream| && WellFormed(e) && e !in s.db.events
    requires !InRange(Add(RollupAt(s.db, KeyOf(e)), Delta(e).value))
    ensures e !in Continue(s, acts).db.events
    ensures !InRange(Add(RollupAt(Continue(s, acts).db, KeyOf(e)), Delta(e).value))
  {
    hide Delta, InRange, Add, AtLeast, Consume;
    if acts != [] {
      var t, a := Continue(s, acts[..|acts| - 1]), acts[|acts| - 1];
      OutOfRangeForever(s, acts[..|acts| - 1], e);
      if a.Deliver? && a.tid !in t.inflight && a.msg < |t.stream| {
        ConsumeGrows(t.db, t.stream[a.msg], a.o, e);
        OutOfRangeStays(RollupAt(t.db, KeyOf(e)), RollupAt(Step(t, a).db, KeyOf(e)), Delta(e).value);
      }
    }
  }

  /**
   * Which events are retried for ever. A well-formed event of the stream whose id is not recorded yet is recorded by
   * no continuation whatever if and only if its increment would take its row out of the bigint range now.
   */
  lemma NeverRecordedIff(s: Sys, m: nat, e: Event)
    requires |s.states| == |s.stream| && m < |s.stream| && s.stream[m] == Decoded(e)
    requires WellFormed(e) && !Recorded(s.db, e.id)
    ensures var k := Key(e.workspace, e.at.year, e.at.month);
      var row := if k in s.db.rollups then s.db.rollups[k] else Counters(0, 0.0, 0, 0, 0, 0, 0, 0);
      NeverRecorded(s, e) <==> !FitsIn(row, Delta(e).value, 0x7FFF_FFFF_FFFF_FFFF)
  {
    assert InRange(Add(RollupAt(s.db, KeyOf(e)), Delta(e).value))
      <==> FitsIn(RollupAt(s.db, KeyOf(e)), Delta(e).value, 0x7FFF_FFFF_FFFF_FFFF);
    assert NOTHING == Counters(0, 0.0, 0, 0, 0, 0, 0, 0);
    hide Delta, InRange, Add, FitsIn;
    if InRange(Add(RollupAt(s.db, KeyOf(e)), Delta(e).value)) {
      var tid := UnusedNat(s.inflight.Keys);
      var deliver := Deliver(tid, m, Succeeds);
      assert [deliver][..0] == [];
      assert Continue(s, []) == s && Continue(s, [deliver]) == Step(s, deliver);
      assert e in Continue(s, [deliver]).db.events;
    } else {
      forall acts ensures e !in Continue(s, acts).db.events {
        OutOfRangeForever(s, acts, e);
      }
    }
  }

  lemma OverflowIsForEver(s: Sys, m: nat, e: Event)
    requires |s.states| == |s.stream| && m < |s.stream| && s.stream[m] == Decoded(e)
    requires WellFormed(e) && !Recorded(s.db, e.id)
    requires !InRange(Add(RollupAt(s.db, KeyOf(e)), Delta(e).value))
    ensures NeverRecorded(s, e)
  {
    NeverRecordedIff(s, m, e);
    hide Delta, NeverRecorded, Recorded;
  }

  lemma ExecOne(acts: seq<Act>, a: Act)
    ensures Exec(acts + [a]) == Step(Exec(acts), a)
  {
    assert (acts + [a])[..|acts|] == acts;
  }

  /** The first event of a workspace's month becomes its row. */
  lemma FirstOfTheMonth(e: Event)
    requires WellFormed(e) && InRange(Delta(e).value)
    ensures Consume(Db({}, map[]), Decoded(e), Succeeds) == (Db({e}, map[KeyOf(e) := Delta(e).value]), Ack)
  {
    var empty := Db({}, map[]);
    AddComm(Delta(e).value, NOTHING);
    hide Add, InRange, Delta;
    assert RollupAt(empty, KeyOf(e)) == NOTHING && !Recorded(empty, e.id);
    assert empty.events + {e} == {e};
    assert empty.rollups[KeyOf(e) := Delta(e).value] == map[KeyOf(e) := Delta(e).value];
  }

  lemma SecondDoesNotFit(e: Event, f: Event)
    requires WellFormed(e) && WellFormed(f) && e.id != f.id && KeyOf(e) == KeyOf(f)
    requires !InRange(Add(Delta(e).value, Delta(f).value))
    ensures Consume(Db({e}, map[KeyOf(e) := Delta(e).value]), Decoded(f), Succeeds)
         == (Db({e}, map[KeyOf(e) := Delta(e).value]), Nak)
    ensures !Recorded(Db({e}, map[KeyOf(e) := Delta(e).value]), f.id)
    ensures !InRange(Add(RollupAt(Db({e}, map[KeyOf(e) := Delta(e).value]), KeyOf(f)), Delta(f).value))
  {
    hide Delta, InRange, Add;
  }

  /**
   * Such states are reached: two events of one workspace and month, each within range alone and together beyond it,
   * published and delivered in turn, leave the second one refused for ever.
   */
  lemma OverflowIsReachable(e: Event, f: Event)
    requires WellFormed(e) && WellFormed(f) && e.id != f.id && KeyOf(e) == KeyOf(f) && InRange(Delta(e).value)
    requires !InRange(Add(Delta(e).value, Delta(f).value))
    ensures
      var r := Exec([Publish(Decoded(e)), Publish(Decoded(f)), Deliver(0, 0, Succeeds), Deliver(1, 1, Succeeds)]);
      r.inflight == map[0 := Delivery(0, Ack), 1 := Delivery(1, Nak)] && NeverRecorded(r, f)
  {
    FirstOfTheMonth(e);
    SecondDoesNotFit(e, f);
    assert Exec([]) == Start();
    hide Consume, WellFormed, InRange, Add, Delta, RollupAt, NeverRecorded, Exec, KeyOf;
    var r := [Publish(Decoded(e)), Publish(Decoded(f)), Deliver(0, 0, Succeeds), Deliver(1, 1, Succeeds)];
    ExecOne([], r[0]);
    ExecOne([r[0]], r[1]);
    ExecOne([r[0], r[1]], r[2]);
    ExecOne([r[0], r[1], r[2]], r[3]);
    assert [] + [r[0]] == [r[0]] && [r[0]] + [r[1]] == [r[0], r[1]];
    assert [r[0], r[1]] + [r[2]] == [r[0], r[1], r[2]] && [r[0], r[1], r[2]] + [r[3]] == r;
    OverflowIsForEver(Exec(r), 1, f);
  }

  const FULL := Event("a", "w", UploadCompleted, Some(GoInt.MAX_INT64), None, Instant(2026, 1, 0))
  const ONE_MORE := Event("b", "w", UploadCompleted, Some(1), None, Instant(2026, 1, 0))

  /** A month filled to the bigint's brim, and then one byte more. */
  lemma FullAndOneMore()
    ensures WellFormed(FULL) && WellFormed(ONE_MORE) && KeyOf(FULL) == KeyOf(ONE_MORE) && FULL.id != ONE_MORE.id
    ensures InRange(Delta(FULL).value) && !InRange(Add(Delta(FULL).value, Delta(ONE_MORE).value))
  {
  }

  /** ... and that byte is never recorded. */
  lemma FullMonthRefusesOneMore()
    ensures NeverRecorded(
      Exec([Publish(Decoded(FULL)), Publish(Decoded(ONE_MORE)), Deliver(0, 0, Succeeds), Deliver(1, 1, Succeeds)]), ONE_MORE)
  {
    FullAndOneMore();
    hide NeverRecorded, Exec, WellFormed, InRange, Add, Delta;
    OverflowIsReachable(FULL, ONE_MORE);
  }

  // ---- the rows, recounted ----

  /** The recorded events of one kind in one workspace and month. */
  ghost function EventsIn(events: set<Event>, kind: Kind, ws: Workspace, year: int, month: int): set<Event>
  {
    set e | e in events && e.kind == kind && e.workspace == ws && e.at.year == year && e.at.month == month
  }

  /** The encode seconds of the job endings of one workspace and month. */
  ghost function SecondsIn(events: set<Event>, ws: Workspace, year: int, month: int): real
  {
    if events == {} then 0.0
    else
      var e :| e in events;
      SecondsOfOne(e, ws, year, month) + SecondsIn(events - {e}, ws, year, month)
  }

  function SecondsOfOne(e: Event, ws: Workspace, year: int, month: int): real
  {
    if e.workspace == ws && e.at.year == year && e.at.month == month && (e.kind == JobCompleted || e.kind == JobFailed)
       && e.encodeSeconds.Some?
    then e.encodeSeconds.value else 0.0
  }

  lemma EventsInMoves(events: set<Event>, e: Event, kind: Kind, ws: Workspace, year: int, month: int)
    requires e in events
    ensures |EventsIn(events, kind, ws, year, month)|
         == |EventsIn(events - {e}, kind, ws, year, month)|
            + Bit(e.kind == kind && e.workspace == ws && e.at.year == year && e.at.month == month)
  {
    var rest := EventsIn(events - {e}, kind, ws, year, month);
    assert EventsIn(events, kind, ws, year, month)
        == if e.kind == kind && e.workspace == ws && e.at.year == year && e.at.month == month then rest + {e} else rest;
  }

  /** A row that counts each kind of event and sums the seconds. */
  ghost predicate Recounts(row: Counters, events: set<Event>, ws: Workspace, year: int, month: int)
  {
    && row.sessions == |EventsIn(events, SessionCreated, ws, year, month)|
    && row.uploads == |EventsIn(events, UploadCompleted, ws, year, month)|
    && row.queued == |EventsIn(events, JobQueued, ws, year, month)|
    && row.started == |EventsIn(events, JobStarted, ws, year, month)|
    && row.completed == |EventsIn(events, JobCompleted, ws, year, month)|
    && row.failed == |EventsIn(events, JobFailed, ws, year, month)|
    && row.seconds == SecondsIn(events, ws, year, month)
  }

  lemma ShareCounts(e: Event, ws: Workspace, year: int, month: int)
    requires WellFormed(e)
    ensures var s := Share(e, Key(ws, year, month));
      var here := e.workspace == ws && e.at.year == year && e.at.month == month;
      && s.sessions == Bit(e.kind == SessionCreated && here) && s.uploads == Bit(e.kind == UploadCompleted && here)
      && s.queued == Bit(e.kind == JobQueued && here) && s.started == Bit(e.kind == JobStarted && here)
      && s.completed == Bit(e.kind == JobCompleted && here) && s.failed == Bit(e.kind == JobFailed && here)
      && s.seconds == SecondsOfOne(e, ws, year, month)
  {
  }

  lemma EventsInAll(events: set<Event>, e: Event, ws: Workspace, year: int, month: int)
    requires e in events
    ensures var here := e.workspace == ws && e.at.year == year && e.at.month == month;
      forall kind :: |EventsIn(events, kind, ws, year, month)|
                  == |EventsIn(events - {e}, kind, ws, year, month)| + Bit(e.kind == kind && here)
  {
    forall kind
      ensures |EventsIn(events, kind, ws, year, month)|
           == |EventsIn(events - {e}, kind, ws, year, month)|
              + Bit(e.kind == kind && e.workspace == ws && e.at.year == year && e.at.month == month) {
      EventsInMoves(events, e, kind, ws, year, month);
    }
  }

  lemma {:induction false} TotalRecounts(events: set<Event>, ws: Workspace, year: int, month: int)
    requires forall e :: e in events ==> WellFormed(e)
    ensures Recounts(Total(events, Key(ws, year, month)), events, ws, year, month)
    decreases |events|
  {
    if events == {} {
      assert forall kind :: EventsIn({}, kind, ws, year, month) == {};
    } else {
      var e :| e in events && SecondsIn(events, ws, year, month)
        == SecondsOfOne(e, ws, year, month) + SecondsIn(events - {e}, ws, year, month);
      TotalRecounts(events - {e}, ws, year, month);
      TotalRemove(events, e, Key(ws, year, month));
      ShareCounts(e, ws, year, month);
      EventsInAll(events, e, ws, year, month);
      hide EventsIn, Total, SecondsIn, Share, SecondsOfOne;
    }
  }

  /**
   * What a usage row says, in any run: each counter is the number of distinct recorded events of its kind in the
   * workspace and month, and the seconds are those of its job endings.
   */
  lemma RowsCountEvents(acts: seq<Act>, ws: Workspace, year: int, month: int)
    ensures var db := Exec(acts).db;
      var row := RollupAt(db, Key(ws, year, month));
      && row.sessions == |EventsIn(db.events, SessionCreated, ws, year, month)|
      && row.uploads == |EventsIn(db.events, UploadCompleted, ws, year, month)|
      && row.queued == |EventsIn(db.events, JobQueued, ws, year, month)|
      && row.started == |EventsIn(db.events, JobStarted, ws, year, month)|
      && row.completed == |EventsIn(db.events, JobCompleted, ws, year, month)|
      && row.failed == |EventsIn(db.events, JobFailed, ws, year, month)|
      && row.seconds == SecondsIn(db.events, ws, year, month)
  {
    ReachableInv(acts);
    var db := Exec(acts).db;
    assert RollupAt(db, Key(ws, year, month)) == Total(db.events, Key(ws, year, month));
    assert forall e :: e in db.events ==> WellFormed(e);
    hide Exec, Inv, RollupsAreSums, EventsIn, SecondsIn, Total, WellFormed, RollupAt;
    TotalRecounts(db.events, ws, year, month);
  }

  /** What one delivery does: an unrecorded event within range is added to its own row and no other, and acknowledged. */
  lemma ConsumeAdds(db: Db, e: Event)
    requires Delta(e).Some? && forall r :: r in db.events ==> r.id != e.id
    requires var k := Key(e.workspace, e.at.year, e.at.month);
      var row, d := if k in db.rollups then db.rollups[k] else Counters(0, 0.0, 0, 0, 0, 0, 0, 0), Delta(e).value;
      && row.bytes + d.bytes <= GoInt.MAX_INT64 && row.sessions < GoInt.MAX_INT64 && row.uploads < GoInt.MAX_INT64
      && row.queued < GoInt.MAX_INT64 && row.started < GoInt.MAX_INT64 && row.completed < GoInt.MAX_INT64
      && row.failed < GoInt.MAX_INT64
    ensures var k := Key(e.workspace, e.at.year, e.at.month);
      var row, d := if k in db.rollups then db.rollups[k] else Counters(0, 0.0, 0, 0, 0, 0, 0, 0), Delta(e).value;
      Consume(db, Decoded(e), Succeeds)
        == (Db(db.events + {e},
               db.rollups[k := Counters(row.bytes + d.bytes, row.seconds + d.seconds, row.sessions + d.sessions,
                                        row.uploads + d.uploads, row.queued + d.queued, row.started + d.started,
                                        row.completed + d.completed, row.failed + d.failed)]), Ack)
  {
    var d := Delta(e).value;
    IncrementsAreSmall(e);
    ApplyAdds(db, e, d);
    hide Delta, ApplyMetering, InRange;
  }

  /** An event adds at most one to every count. */
  lemma IncrementsAreSmall(e: Event)
    requires Delta(e).Some?
    ensures var d := Delta(e).value;
      && d.sessions <= 1 && d.uploads <= 1 && d.queued <= 1 && d.started <= 1 && d.completed <= 1 && d.failed <= 1
  {
  }

  lemma ApplyAdds(db: Db, e: Event, d: Counters)
    requires !Recorded(db, e.id) && FitsIn(RollupAt(db, KeyOf(e)), d, GoInt.MAX_INT64)
    ensures ApplyMetering(db, e, d, Succeeds) == (Insert(db, e, d), Applied)
  {
  }

  /** What can never be applied is terminated, a duplicate acknowledged, and a failed call retried, all without effect. */
  lemma ConsumeOtherwise(db: Db, p: Payload)
    ensures p.Garbage? || Delta(p.event).None? ==> forall o :: Consume(db, p, o) == (db, Term)
    ensures p.Decoded? && Delta(p.event).Some? ==> Consume(db, p, FailsBefore) == (db, Nak)
    ensures p.Decoded? && Delta(p.event).Some? && (exists r :: r in db.events && r.id == p.event.id) ==>
              Consume(db, p, Succeeds) == (db, Ack)
  {
  }

  /** A delivery that runs to its reply settles a pending message by its verdict, and a retry leaves it pending. */
  lemma DeliverySettles(s: Sys, tid: nat, m: nat, o: Outcome)
    requires |s.states| == |s.stream| && m < |s.stream| && tid !in s.inflight && s.states[m] == Pending
    ensures var (db, v) := Consume(s.db, s.stream[m], o);
      Step(Step(s, Deliver(tid, m, o)), Reply(tid))
        == s.(db := db, states := s.states[m := match v case Ack => Acked case Term => Termed case Nak => Pending])
  {
    hide Consume;
    var v := Consume(s.db, s.stream[m], o).1;
    assert s.inflight[tid := Delivery(m, v)] - {tid} == s.inflight;
  }

  /** A settled message stays as it is. */
  lemma SettledStays(s: Sys, a: Act, m: nat)
    requires |s.states| == |s.stream| && m < |s.stream| && s.states[m] != Pending
    ensures Step(s, a).stream[m] == s.stream[m] && Step(s, a).states[m] == s.states[m]
  {
  }

  // ---- storage ----

  /** SumStorageBytes before the cast: the bytes of one workspace over all its months. */
  ghost function Storage(rollups: map<Key, Counters>, keys: set<Key>, ws: Workspace): int
    requires keys <= rollups.Keys
  {
    if keys == {} then 0
    else
      var k :| k in keys;
      (if k.workspace == ws then rollups[k].bytes else 0) + Storage(rollups, keys - {k}, ws)
  }

  /** The bytes of the completed uploads of one workspace. */
  ghost function UploadedBytes(events: set<Event>, ws: Workspace): int
  {
    if events == {} then 0
    else
      var e :| e in events;
      (if e.workspace == ws && e.kind == UploadCompleted then BytesOf(e) else 0) + UploadedBytes(events - {e}, ws)
  }

  lemma {:induction false} StorageRemove(rollups: map<Key, Counters>, keys: set<Key>, k: Key, ws: Workspace)
    requires keys <= rollups.Keys && k in keys
    ensures Storage(rollups, keys, ws)
         == (if k.workspace == ws then rollups[k].bytes else 0) + Storage(rollups, keys - {k}, ws)
    decreases |keys|
  {
    var first :| first in keys && Storage(rollups, keys, ws)
      == (if first.workspace == ws then rollups[first].bytes else 0) + Storage(rollups, keys - {first}, ws);
    if first != k {
      StorageRemove(rollups, keys - {first}, k, ws);
      StorageRemove(rollups, keys - {k}, first, ws);
      assert keys - {first} - {k} == keys - {k} - {first};
    }
  }

  lemma {:induction false} StorageFrame(a: map<Key, Counters>, b: map<Key, Counters>, keys: set<Key>, ws: Workspace)
    requires keys <= a.Keys && keys <= b.Keys
    requires forall k :: k in keys ==> a[k] == b[k]
    ensures Storage(a, keys, ws) == Storage(b, keys, ws)
    decreases |keys|
  {
    if keys != {} {
      var k :| k in keys;
      StorageRemove(a, keys, k, ws);
      StorageRemove(b, keys, k, ws);
      StorageFrame(a, b, keys - {k}, ws);
    }
  }

  lemma {:induction false} UploadedRemove(events: set<Event>, e: Event, ws: Workspace)
    requires e in events
    ensures UploadedBytes(events, ws)
         == (if e.workspace == ws && e.kind == UploadCompleted then BytesOf(e) else 0) + UploadedBytes(events - {e}, ws)
    decreases |events|
  {
    var first :| first in events && UploadedBytes(events, ws)
      == (if first.workspace == ws && first.kind == UploadCompleted then BytesOf(first) else 0)
         + UploadedBytes(events - {first}, ws);
    if first != e {
      UploadedRemove(events - {first}, e, ws);
      UploadedRemove(events - {e}, first, ws);
      assert events - {first} - {e} == events - {e} - {first};
    }
  }

  /** An upsert moves the workspace's stored bytes by what it adds to the row's. */
  lemma StorageOfUpsert(rollups: map<Key, Counters>, k: Key, row: Counters, ws: Workspace)
    ensures Storage(rollups[k := row], rollups[k := row].Keys, ws) - (if k.workspace == ws then row.bytes else 0)
         == Storage(rollups, rollups.Keys, ws)
            - (if k.workspace == ws && k in rollups then rollups[k].bytes else 0)
  {
    var after := rollups[k := row];
    var rest := after.Keys - {k};
    StorageRemove(after, after.Keys, k, ws);
    StorageFrame(rollups, after, rest, ws);
    hide Storage;
    if k in rollups {
      StorageRemove(rollups, rollups.Keys, k, ws);
      assert rest == rollups.Keys - {k};
    } else {
      assert rest == rollups.Keys;
    }
  }

  lemma UploadedOneMore(events: set<Event>, e: Event, ws: Workspace)
    requires e !in events
    ensures UploadedBytes(events + {e}, ws)
         == UploadedBytes(events, ws) + (if e.workspace == ws && e.kind == UploadCompleted then BytesOf(e) else 0)
  {
    UploadedRemove(events + {e}, e, ws);
    assert events + {e} - {e} == events;
  }

  lemma DeltaBytes(e: Event)
    requires WellFormed(e)
    ensures Delta(e).value.bytes == if e.kind == UploadCompleted then BytesOf(e) else 0
  {
  }

  lemma StorageOfInsert(db: Db, e: Event, d: Counters, ws: Workspace)
    requires !Recorded(db, e.id) && d.bytes == (if e.kind == UploadCompleted then BytesOf(e) else 0)
    requires Storage(db.rollups, db.rollups.Keys, ws) == UploadedBytes(db.events, ws)
    ensures var after := Insert(db, e, d); Storage(after.rollups, after.rollups.Keys, ws) == UploadedBytes(after.events, ws)
  {
    assert e !in db.events;
    hide Storage, UploadedBytes, Recorded, BytesOf;
    UploadedOneMore(db.events, e, ws);
    StorageOfUpsert(db.rollups, KeyOf(e), Add(RollupAt(db, KeyOf(e)), d), ws);
  }

  lemma StorageOfUpdate(db: Db, e: Event, o: Outcome, ws: Workspace)
    requires WellFormed(e)
    requires Storage(db.rollups, db.rollups.Keys, ws) == UploadedBytes(db.events, ws)
    ensures var after := ApplyMetering(db, e, Delta(e).value, o).0;
            Storage(after.rollups, after.rollups.Keys, ws) == UploadedBytes(after.events, ws)
  {
    DeltaBytes(e);
    hide Storage, UploadedBytes, InRange, Insert, Delta, Recorded;
    if ApplyMetering(db, e, Delta(e).value, o).0 != db {
      StorageOfInsert(db, e, Delta(e).value, ws);
    }
  }

  /** In every run the stored bytes of a workspace are the bytes of its distinct completed uploads. */
  lemma {:induction false} StorageIsUploads(acts: seq<Act>, ws: Workspace)
    ensures Storage(Exec(acts).db.rollups, Exec(acts).db.rollups.Keys, ws) == UploadedBytes(Exec(acts).db.events, ws)
  {
    if acts != [] {
      var s, a := Exec(acts[..|acts| - 1]), acts[|acts| - 1];
      StorageIsUploads(acts[..|acts| - 1], ws);
      if a.Deliver? && a.tid !in s.inflight && a.msg < |s.stream| && CanParse(s.stream[a.msg]) {
        StorageOfUpdate(s.db, s.stream[a.msg].event, a.o, ws);
      }
    }
  }
}
