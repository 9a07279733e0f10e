// Auto-creating a job when an upload lands: handle and autoCreateJob of
// consumer/landed.go over the preset and job tables of store.go, under
// redelivery, failing calls and crashes. One callback runs at a time; the rest
// of the service may change presets and jobs between any two of its steps.
module Landed {
  import opened Basics
  import J = Jobs

  type Workspace = J.Workspace
  type PresetId = nat

  /** The columns DefaultPreset orders by. */
  datatype Preset = Preset(ws: Workspace, createdAt: int)

  type Presets = map<PresetId, Preset>

  datatype Msg = Invalid | Object(ws: Workspace, key: string)

  datatype Verdict = Ack | Nak | Term

  /** Exists, scratch directory, Download and Probe taken together: what they conclude. */
  datatype ProbeResult = Readable | TryAgain | BadAsset

  datatype Pc =
    | Idle
    | Probing(m: nat)
    | Looking(m: nat)
    | Checking(m: nat, preset: PresetId)
    | Creating(m: nat, preset: PresetId)
    | Emitting(m: nat, job: J.JobId)
    | Replying(m: nat, v: Verdict)

  /** `auto` is history: the jobs this consumer created. `acked`, `termed` are the messages so answered. */
  datatype World = World(
    stream: seq<Msg>, presets: Presets, rows: J.Table, sources: set<(Workspace, string)>, auto: set<J.JobId>,
    emitted: multiset<J.JobId>, acked: set<nat>, termed: set<nat>, autoCreate: bool, pc: Pc)

  datatype Act =
    | Publish(msg: Msg)
    | AddPreset(id: PresetId, preset: Preset)
    | Store(op: J.Op)                                  // API handlers and the scheduler
    | Deliver(m: nat)
    | Probe(result: ProbeResult, upsert: Outcome)
    | LookUp(ok: bool)
    | Check(ok: bool)
    | CreateJob(id: J.JobId, now: int, o: Outcome)
    | Emit(published: bool)
    | Reply
    | Crash

  // ---- the queries ----

  /** ORDER BY created_at ASC, id ASC. */
  predicate Before(presets: Presets, a: PresetId, b: PresetId)
    requires a in presets && b in presets
  {
    presets[a].createdAt < presets[b].createdAt || (presets[a].createdAt == presets[b].createdAt && a <= b)
  }

  ghost predicate IsDefault(presets: Presets, ws: Workspace, p: PresetId)
  {
    && p in presets && presets[p].ws == ws
    && forall q :: q in presets && presets[q].ws == ws ==> Before(presets, p, q)
  }

  ghost predicate HasPreset(presets: Presets, ws: Workspace)
  {
    exists p :: p in presets && presets[p].ws == ws
  }

  /** Every workspace with a preset has exactly one default. */
  lemma {:induction false} DefaultExists(presets: Presets, ws: Workspace, among: set<PresetId>) returns (p: PresetId)
    requires among <= presets.Keys && exists q :: q in among && presets[q].ws == ws
    ensures p in among && presets[p].ws == ws
    ensures forall q :: q in among && presets[q].ws == ws ==> Before(presets, p, q)
    decreases |among|
  {
    p :| p in among && presets[p].ws == ws;
    if q :| q in among - {p} && presets[q].ws == ws {
      var r := DefaultExists(presets, ws, among - {p});
      p := if Before(presets, p, r) then p else r;
    }
  }

  lemma SomeDefault(presets: Presets, ws: Workspace)
    requires HasPreset(presets, ws)
    ensures exists p :: IsDefault(presets, ws, p)
  {
    var q :| q in presets && presets[q].ws == ws;
    assert q in presets.Keys;
    var p := DefaultExists(presets, ws, presets.Keys);
    assert IsDefault(presets, ws, p);
  }

  /** DefaultPreset. */
  ghost function DefaultPreset(presets: Presets, ws: Workspace): (p: PresetId)
    requires HasPreset(presets, ws)
    ensures IsDefault(presets, ws, p)
  {
    SomeDefault(presets, ws);
    var p :| IsDefault(presets, ws, p); p
  }

  lemma DefaultIsUnique(presets: Presets, ws: Workspace, p: PresetId, q: PresetId)
    requires IsDefault(presets, ws, p) && IsDefault(presets, ws, q)
    ensures p == q
  {
  }

  /** When a new preset takes over as the default: exactly when it sorts before the one that was. */
  lemma DefaultMovesIff(presets: Presets, id: PresetId, preset: Preset)
    requires id !in presets && HasPreset(presets, preset.ws)
    ensures var after := presets[id := preset]; var was := DefaultPreset(presets, preset.ws);
            HasPreset(after, preset.ws) && (DefaultPreset(after, preset.ws) != was <==> !Before(after, was, id))
  {
    var after := presets[id := preset];
    var was := DefaultPreset(presets, preset.ws);
    assert after[id].ws == preset.ws;
    if Before(after, was, id) {
      assert IsDefault(after, preset.ws, was);
      DefaultIsUnique(after, preset.ws, was, DefaultPreset(after, preset.ws));
    } else {
      assert IsDefault(after, preset.ws, id);
      DefaultIsUnique(after, preset.ws, id, DefaultPreset(after, preset.ws));
    }
  }

  /**
   * When that happens to a workspace's second preset. The time is that of the inserting transaction's start and the id
   * is minted before it, so an insert that starts first can commit second; and equal times are decided by the id.
   */
  lemma SecondPresetMovesIff(autoCreate: bool, i: PresetId, p: Preset, j: PresetId, q: Preset)
    requires i != j && p.ws == q.ws
    ensures var one := Exec(autoCreate, [AddPreset(i, p)]).presets;
      HasPreset(one, p.ws) && DefaultPreset(one, p.ws) == i
    ensures var two := Exec(autoCreate, [AddPreset(i, p), AddPreset(j, q)]).presets;
      && HasPreset(two, p.ws)
      && (DefaultPreset(two, p.ws) == j <==> q.createdAt < p.createdAt || (q.createdAt == p.createdAt && j < i))
  {
    var a, b := AddPreset(i, p), AddPreset(j, q);
    assert [a][..0] == [] && [a, b][..1] == [a];
    var one := map[i := p];
    assert Exec(autoCreate, [a]).presets == one;
    assert Exec(autoCreate, [a, b]).presets == one[j := q];
    assert one[i].ws == p.ws && HasPreset(one, p.ws);
    assert IsDefault(one, p.ws, i);
    DefaultIsUnique(one, p.ws, i, DefaultPreset(one, p.ws));
    DefaultMovesIff(one, j, q);
    var two := one[j := q];
    var first := DefaultPreset(two, p.ws);
    assert first == i || first == j;
  }

  predicate MatchesSource(row: J.Job, ws: Workspace, key: string)
  {
    row.workspace == ws && row.source == key
  }

  /** HasActiveJobForSource. */
  predicate HasActiveJob(rows: J.Table, ws: Workspace, key: string, preset: PresetId)
  {
    exists id :: id in rows && MatchesSource(rows[id], ws, key) && rows[id].preset == preset && rows[id].state != J.Failed
  }

  // ---- the steps ----

  function Say(w: World, m: nat, v: Verdict): World { w.(pc := Replying(m, v)) }

  function Insert(w: World, id: J.JobId, m: nat, preset: PresetId, now: int): World
    requires m < |w.stream| && w.stream[m].Object?
  {
    w.(rows := w.rows[id := J.NewJob(w.stream[m].ws, w.stream[m].key, preset, now)], auto := w.auto + {id})
  }

  function Probes(w: World, m: nat, result: ProbeResult, upsert: Outcome): World
    requires m < |w.stream| && w.stream[m].Object?
  {
    match result
    case TryAgain => Say(w, m, Nak)
    case BadAsset => Say(w, m, Term)
    case Readable =>
      if upsert == FailsBefore then Say(w, m, Nak)
      else
        var u := w.(sources := w.sources + {(w.stream[m].ws, w.stream[m].key)});
        if upsert == FailsAfter then Say(u, m, Nak)
        else if w.autoCreate then u.(pc := Looking(m)) else Say(u, m, Ack)
  }

  ghost function LooksUp(w: World, m: nat, ok: bool): World
    requires m < |w.stream| && w.stream[m].Object?
  {
    if !ok then Say(w, m, Nak)
    else if !HasPreset(w.presets, w.stream[m].ws) then Say(w, m, Ack)
    else w.(pc := Checking(m, DefaultPreset(w.presets, w.stream[m].ws)))
  }

  function Checks(w: World, m: nat, preset: PresetId, ok: bool): World
    requires m < |w.stream| && w.stream[m].Object?
  {
    if !ok then Say(w, m, Nak)
    else if HasActiveJob(w.rows, w.stream[m].ws, w.stream[m].key, preset) then Say(w, m, Ack)
    else w.(pc := Creating(m, preset))
  }

  function Creates(w: World, m: nat, preset: PresetId, id: J.JobId, now: int, o: Outcome): World
    requires m < |w.stream| && w.stream[m].Object?
  {
    if o == FailsBefore || id in w.rows then Say(w, m, Nak)
    else if o == FailsAfter then Say(Insert(w, id, m, preset, now), m, Nak)
    else Insert(w, id, m, preset, now).(pc := Emitting(m, id))
  }

  function Replies(w: World, m: nat, v: Verdict): World
  {
    match v
    case Ack => w.(acked := w.acked + {m}, pc := Idle)
    case Term => w.(termed := w.termed + {m}, pc := Idle)
    case Nak => w.(pc := Idle)
  }

  predicate Busy(w: World)
  {
    !w.pc.Idle? && w.pc.m < |w.stream| && (w.stream[w.pc.m].Object? || w.pc.Replying?)
  }

  ghost function Step(w: World, a: Act): World
  {
    match a
    case Publish(msg) => w.(stream := w.stream + [msg])
    case AddPreset(id, preset) => if id in w.presets then w else w.(presets := w.presets[id := preset])
    case Store(op) => w.(rows := J.Apply(w.rows, op))
    case Deliver(m) =>
      if !w.pc.Idle? || m >= |w.stream| then w
      else if w.stream[m].Invalid? then Say(w, m, Term) else w.(pc := Probing(m))
    case Probe(result, upsert) => if w.pc.Probing? && Busy(w) then Probes(w, w.pc.m, result, upsert) else w
    case LookUp(ok) => if w.pc.Looking? && Busy(w) then LooksUp(w, w.pc.m, ok) else w
    case Check(ok) => if w.pc.Checking? && Busy(w) then Checks(w, w.pc.m, w.pc.preset, ok) else w
    case CreateJob(id, now, o) =>
      if w.pc.Creating? && Busy(w) then Creates(w, w.pc.m, w.pc.preset, id, now, o) else w
    case Emit(published) =>
      if w.pc.Emitting? && Busy(w)
      then Emits(w, published) else w
    case Reply => if w.pc.Replying? then Replies(w, w.pc.m, w.pc.v) else w
    case Crash => w.(pc := Idle)
  }

  function Start(autoCreate: bool): World
  {
    World([], map[], map[], {}, {}, multiset{}, {}, {}, autoCreate, Idle)
  }

  ghost function Exec(autoCreate: bool, acts: seq<Act>): World
  {
    if acts == [] then Start(autoCreate) else Step(Exec(autoCreate, acts[..|acts| - 1]), acts[|acts| - 1])
  }

  // ---- idempotence ----

  /** The jobs this consumer created for one landed object. */
  function AutoJobs(w: World, ws: Workspace, key: string): (ids: set<J.JobId>)
    ensures ids <= w.rows.Keys
  {
    set id | id in w.auto && id in w.rows && MatchesSource(w.rows[id], ws, key)
  }

  /** None of the object's auto-created jobs is failed. */
  predicate NoneFailed(w: World, ws: Workspace, key: string)
  {
    forall id :: id in AutoJobs(w, ws, key) ==> w.rows[id].state != J.Failed
  }

  /** The step does not move the workspace's default preset, once it has one. */
  ghost predicate KeepsDefault(w: World, a: Act, ws: Workspace)
  {
    HasPreset(w.presets, ws) ==>
      HasPreset(Step(w, a).presets, ws) && DefaultPreset(Step(w, a).presets, ws) == DefaultPreset(w.presets, ws)
  }

  /** A run in which the object's auto-created jobs never fail and its workspace's default never moves. */
  ghost predicate Calm(autoCreate: bool, acts: seq<Act>, ws: Workspace, key: string)
  {
    && NoneFailed(Exec(autoCreate, acts), ws, key)
    && (acts != [] ==>
          && Calm(autoCreate, acts[..|acts| - 1], ws, key)
          && KeepsDefault(Exec(autoCreate, acts[..|acts| - 1]), acts[|acts| - 1], ws))
  }

  ghost predicate WellFormed(w: World)
  {
    && w.auto <= w.rows.Keys
    && (!w.pc.Idle? ==> w.pc.m < |w.stream| && (w.pc.Replying? || w.stream[w.pc.m].Object?))
  }

  predicate Concerns(w: World, m: nat, ws: Workspace, key: string)
  {
    m < |w.stream| && w.stream[m] == Object(ws, key)
  }

  ghost predicate DefaultIs(w: World, ws: Workspace, p: PresetId)
  {
    HasPreset(w.presets, ws) && DefaultPreset(w.presets, ws) == p
  }

  ghost predicate AutoUseDefault(w: World, ws: Workspace, key: string)
  {
    forall id :: id in AutoJobs(w, ws, key) ==> DefaultIs(w, ws, w.rows[id].preset)
  }

  ghost predicate PcUsesDefault(w: World, ws: Workspace, key: string)
  {
    && (w.pc.Checking? && Concerns(w, w.pc.m, ws, key) ==> DefaultIs(w, ws, w.pc.preset))
    && (w.pc.Creating? && Concerns(w, w.pc.m, ws, key) ==>
          DefaultIs(w, ws, w.pc.preset) && AutoJobs(w, ws, key) == {})
  }

  ghost predicate Single(w: World, ws: Workspace, key: string)
  {
    |AutoJobs(w, ws, key)| <= 1 && AutoUseDefault(w, ws, key) && PcUsesDefault(w, ws, key)
  }

  /** The handler has gone on to another step of the same message. */
  predicate MovesOn(w: World, t: World, m: nat)
  {
    t.rows == w.rows && t.auto == w.auto && t.stream == w.stream && !t.pc.Idle? && t.pc.m == m
  }

  lemma ProbesMoves(w: World, m: nat, result: ProbeResult, upsert: Outcome)
    requires m < |w.stream| && w.stream[m].Object?
    ensures MovesOn(w, Probes(w, m, result, upsert), m)
  {
  }

  lemma LooksUpMoves(w: World, m: nat, ok: bool)
    requires m < |w.stream| && w.stream[m].Object?
    ensures MovesOn(w, LooksUp(w, m, ok), m)
  {
    hide HasPreset, IsDefault;
  }

  lemma ChecksMoves(w: World, m: nat, preset: PresetId, ok: bool)
    requires m < |w.stream| && w.stream[m].Object?
    ensures MovesOn(w, Checks(w, m, preset, ok), m)
  {
    hide HasActiveJob;
  }

  lemma CreatesMoves(w: World, m: nat, preset: PresetId, id: J.JobId, now: int, o: Outcome)
    requires m < |w.stream| && w.stream[m].Object?
    ensures var t := Creates(w, m, preset, id, now, o);
      t.stream == w.stream && !t.pc.Idle? && t.pc.m == m
      && ((t.rows == w.rows && t.auto == w.auto) || (t.rows.Keys == w.rows.Keys + {id} && t.auto == w.auto + {id}))
  {
  }

  lemma StepWellFormed(w: World, a: Act)
    requires WellFormed(w)
    ensures WellFormed(Step(w, a))
  {
    hide HasPreset, IsDefault, HasActiveJob, J.Apply, Probes, LooksUp, Checks, Creates;
    match a
    case Store(op) =>
      forall id | id in w.rows ensures id in J.Apply(w.rows, op) {
        J.StepRefinesLifecycle(w.rows, op, id);
      }
    case Probe(result, upsert) => if Busy(w) && w.pc.Probing? { ProbesMoves(w, w.pc.m, result, upsert); }
    case LookUp(ok) => if Busy(w) && w.pc.Looking? { LooksUpMoves(w, w.pc.m, ok); }
    case Check(ok) => if Busy(w) && w.pc.Checking? { ChecksMoves(w, w.pc.m, w.pc.preset, ok); }
    case CreateJob(id, now, o) =>
      if Busy(w) && w.pc.Creating? { CreatesMoves(w, w.pc.m, w.pc.preset, id, now, o); }
    case _ =>
  }

  /** Steps that are not this consumer's insert leave the object's auto-created jobs alone, up to their state. */
  lemma AutoJobsStay(w: World, a: Act, ws: Workspace, key: string)
    requires WellFormed(w) && !(a.CreateJob? && w.pc.Creating?)
    ensures AutoJobs(Step(w, a), ws, key) == AutoJobs(w, ws, key)
    ensures forall id :: id in AutoJobs(w, ws, key) ==> Step(w, a).rows[id].preset == w.rows[id].preset
  {
    hide HasPreset, IsDefault, HasActiveJob, J.Apply;
    if a.Store? {
      forall id | id in w.rows ensures id in Step(w, a).rows && Step(w, a).rows[id].preset == w.rows[id].preset
        && Step(w, a).rows[id].source == w.rows[id].source && Step(w, a).rows[id].workspace == w.rows[id].workspace {
        J.StepRefinesLifecycle(w.rows, a.op, id);
      }
    }
  }

  lemma DefaultStays(w: World, a: Act, ws: Workspace)
    requires KeepsDefault(w, a, ws)
    ensures forall p :: DefaultIs(w, ws, p) ==> DefaultIs(Step(w, a), ws, p)
  {
    hide Step, IsDefault, HasPreset;
  }

  lemma LookUpFindsDefault(w: World, ok: bool)
    requires WellFormed(w)
    ensures var t := Step(w, LookUp(ok));
      t.pc.Checking? && t != w ==> t.pc.m == w.pc.m && DefaultIs(t, w.stream[w.pc.m].ws, t.pc.preset)
  {
    hide IsDefault, HasPreset;
  }

  lemma OtherStepsKeepSingle(w: World, a: Act, ws: Workspace, key: string)
    requires WellFormed(w) && Single(w, ws, key) && KeepsDefault(w, a, ws) && NoneFailed(w, ws, key)
    requires !(a.CreateJob? && w.pc.Creating?)
    ensures Single(Step(w, a), ws, key)
  {
    hide AutoJobs, DefaultIs, IsDefault, HasPreset, NoneFailed, PcUsesDefault, Step, WellFormed, KeepsDefault;
    AutoJobsStay(w, a, ws, key);
    DefaultStays(w, a, ws);
    PcKeepsDefault(w, a, ws, key);
  }

  /** What the handler has looked up stays what it was looked up as. */
  lemma PcKeepsDefault(w: World, a: Act, ws: Workspace, key: string)
    requires WellFormed(w) && Single(w, ws, key) && KeepsDefault(w, a, ws) && NoneFailed(w, ws, key)
    requires !(a.CreateJob? && w.pc.Creating?)
    ensures PcUsesDefault(Step(w, a), ws, key)
  {
    hide AutoJobs, DefaultIs, HasActiveJob, IsDefault, HasPreset, NoneFailed, J.Apply;
    AutoJobsStay(w, a, ws, key);
    DefaultStays(w, a, ws);
    if a.LookUp? {
      LookUpFindsDefault(w, a.ok);
    }
    if w.pc.Checking? && Concerns(w, w.pc.m, ws, key) {
      AutoJobsAreActive(w, ws, key, w.pc.preset);
    }
  }

  /** While none has failed, an auto-created job is active on the default preset. */
  lemma AutoJobsAreActive(w: World, ws: Workspace, key: string, p: PresetId)
    requires AutoUseDefault(w, ws, key) && NoneFailed(w, ws, key) && DefaultIs(w, ws, p)
    ensures AutoJobs(w, ws, key) != {} ==> HasActiveJob(w.rows, ws, key, p)
  {
    if AutoJobs(w, ws, key) != {} {
      var id :| id in AutoJobs(w, ws, key);
      assert w.rows[id].state != J.Failed && MatchesSource(w.rows[id], ws, key);
    }
  }

  lemma InsertAddsOne(w: World, id: J.JobId, now: int, o: Outcome, ws: Workspace, key: string)
    requires WellFormed(w) && w.pc.Creating?
    ensures forall x :: x in AutoJobs(w, ws, key) ==> Step(w, CreateJob(id, now, o)).rows[x] == w.rows[x]
    ensures AutoJobs(Step(w, CreateJob(id, now, o)), ws, key)
         == if Step(w, CreateJob(id, now, o)).rows != w.rows && Concerns(w, w.pc.m, ws, key)
            then AutoJobs(w, ws, key) + {id} else AutoJobs(w, ws, key)
    ensures id in AutoJobs(Step(w, CreateJob(id, now, o)), ws, key) && id !in AutoJobs(w, ws, key)
            ==> Step(w, CreateJob(id, now, o)).rows[id].preset == w.pc.preset
  {
    var t := Step(w, CreateJob(id, now, o));
    if t.rows != w.rows && Concerns(w, w.pc.m, ws, key) {
      assert AutoJobs(t, ws, key) == AutoJobs(w, ws, key) + {id};
    } else {
      assert AutoJobs(t, ws, key) == AutoJobs(w, ws, key);
    }
  }

  lemma CreateOnlyInserts(w: World, id: J.JobId, now: int, o: Outcome)
    requires WellFormed(w) && w.pc.Creating?
    ensures var t := Step(w, CreateJob(id, now, o));
      t.presets == w.presets && (t.pc.Replying? || t.pc.Emitting?) && t.stream == w.stream
  {
  }

  lemma CreateKeepsSingle(w: World, id: J.JobId, now: int, o: Outcome, ws: Workspace, key: string)
    requires WellFormed(w) && Single(w, ws, key) && w.pc.Creating?
    ensures Single(Step(w, CreateJob(id, now, o)), ws, key)
  {
    hide IsDefault, HasPreset, NoneFailed, HasActiveJob, AutoJobs, Step;
    var t := Step(w, CreateJob(id, now, o));
    CreateOnlyInserts(w, id, now, o);
    InsertAddsOne(w, id, now, o, ws, key);
    forall x | x in AutoJobs(t, ws, key) ensures DefaultIs(t, ws, t.rows[x].preset) {
      if x in AutoJobs(w, ws, key) {
        assert DefaultIs(w, ws, w.rows[x].preset);
      }
    }
  }

  /**
   * Auto-create idempotence: whatever is redelivered, fails or crashes, at most one job is
   * auto-created per (workspace, object key) in runs where none of them fails and the default preset stays.
   */
  lemma {:induction false} AtMostOneAutoJob(autoCreate: bool, acts: seq<Act>, ws: Workspace, key: string)
    requires Calm(autoCreate, acts, ws, key)
    ensures WellFormed(Exec(autoCreate, acts)) && Single(Exec(autoCreate, acts), ws, key)
    ensures |AutoJobs(Exec(autoCreate, acts), ws, key)| <= 1
  {
    if acts == [] {
      assert AutoJobs(Start(autoCreate), ws, key) == {};
    } else {
      var w, a := Exec(autoCreate, acts[..|acts| - 1]), acts[|acts| - 1];
      AtMostOneAutoJob(autoCreate, acts[..|acts| - 1], ws, key);
      StepWellFormed(w, a);
      if a.CreateJob? && w.pc.Creating? {
        CreateKeepsSingle(w, a.id, a.now, a.o, ws, key);
      } else {
        OtherStepsKeepSingle(w, a, ws, key);
      }
    }
  }

  // ---- what a reply means ----

  /** The message names an object whose probe result is stored. */
  predicate Probed(stream: seq<Msg>, sources: set<(Workspace, string)>, m: nat)
  {
    m < |stream| && stream[m].Object? && (stream[m].ws, stream[m].key) in sources
  }

  predicate PcProbed(stream: seq<Msg>, sources: set<(Workspace, string)>, pc: Pc)
  {
    match pc
    case Idle => true
    case Probing(_) => true
    case Replying(m, v) => v == Ack ==> Probed(stream, sources, m)
    case _ => Probed(stream, sources, pc.m)
  }

  ghost predicate AnswersJustified(w: World)
  {
    (forall m :: m in w.acked ==> Probed(w.stream, w.sources, m)) && PcProbed(w.stream, w.sources, w.pc)
  }

  lemma AnswersPc(w: World)
    requires AnswersJustified(w)
    ensures w.pc.Looking? || w.pc.Checking? || w.pc.Creating? || w.pc.Emitting? ==> Probed(w.stream, w.sources, w.pc.m)
  {
  }

  lemma ProbeKeepsAnswers(w: World, m: nat, result: ProbeResult, upsert: Outcome)
    requires AnswersJustified(w) && m < |w.stream| && w.stream[m].Object?
    ensures AnswersJustified(Probes(w, m, result, upsert))
  {
  }

  lemma ReplyKeepsAnswers(w: World)
    requires AnswersJustified(w) && w.pc.Replying?
    ensures AnswersJustified(Replies(w, w.pc.m, w.pc.v))
  {
  }

  lemma PublishKeepsAnswers(w: World, msg: Msg)
    requires AnswersJustified(w)
    ensures AnswersJustified(w.(stream := w.stream + [msg]))
  {
  }

  /** A step that only moves the handler on from a message already probed, to a new place or a fitting answer. */
  lemma MoveKeepsAnswers(w: World, t: World)
    requires AnswersJustified(w) && t.stream == w.stream && t.sources == w.sources && t.acked == w.acked
    requires t.pc == w.pc || t.pc.Idle? || t.pc.Probing? || (t.pc.Replying? && t.pc.v != Ack)
          || Probed(w.stream, w.sources, t.pc.m)
    ensures AnswersJustified(t)
  {
  }

  lemma LookUpKeepsAnswers(w: World, m: nat, ok: bool)
    requires AnswersJustified(w) && Probed(w.stream, w.sources, m)
    ensures AnswersJustified(LooksUp(w, m, ok))
  {
    hide AnswersJustified, HasPreset, IsDefault;
    MoveKeepsAnswers(w, LooksUp(w, m, ok));
  }

  lemma CheckKeepsAnswers(w: World, m: nat, preset: PresetId, ok: bool)
    requires AnswersJustified(w) && Probed(w.stream, w.sources, m)
    ensures AnswersJustified(Checks(w, m, preset, ok))
  {
    hide AnswersJustified, HasActiveJob;
    MoveKeepsAnswers(w, Checks(w, m, preset, ok));
  }

  lemma CreateKeepsAnswers(w: World, m: nat, preset: PresetId, id: J.JobId, now: int, o: Outcome)
    requires AnswersJustified(w) && Probed(w.stream, w.sources, m)
    ensures AnswersJustified(Creates(w, m, preset, id, now, o))
  {
    hide AnswersJustified;
    MoveKeepsAnswers(w, Creates(w, m, preset, id, now, o));
  }

  lemma EmitKeepsAnswers(w: World, published: bool)
    requires AnswersJustified(w) && w.pc.Emitting? && Probed(w.stream, w.sources, w.pc.m)
    ensures AnswersJustified(Emits(w, published))
  {
    hide AnswersJustified;
    MoveKeepsAnswers(w, Emits(w, published));
  }

  lemma StepKeepsAnswers(w: World, a: Act)
    requires WellFormed(w) && AnswersJustified(w)
    ensures AnswersJustified(Step(w, a))
  {
    hide AnswersJustified, PcProbed, Probes, LooksUp, Checks, Creates, Emits, WellFormed, J.Apply;
    AnswersPc(w);
    match a
    case Probe(result, upsert) => if w.pc.Probing? && Busy(w) { ProbeKeepsAnswers(w, w.pc.m, result, upsert); }
    case LookUp(ok) => if w.pc.Looking? && Busy(w) { LookUpKeepsAnswers(w, w.pc.m, ok); }
    case Check(ok) => if w.pc.Checking? && Busy(w) { CheckKeepsAnswers(w, w.pc.m, w.pc.preset, ok); }
    case CreateJob(id, now, o) =>
      if w.pc.Creating? && Busy(w) { CreateKeepsAnswers(w, w.pc.m, w.pc.preset, id, now, o); }
    case Emit(published) => if w.pc.Emitting? && Busy(w) { EmitKeepsAnswers(w, published); }
    case Reply => if w.pc.Replying? { ReplyKeepsAnswers(w); }
    case Publish(msg) => PublishKeepsAnswers(w, msg);
    case _ => MoveKeepsAnswers(w, Step(w, a));
  }

  /** A landed message is acknowledged only after its source record is stored. */
  lemma {:induction false} AckMeansProbed(autoCreate: bool, acts: seq<Act>)
    ensures WellFormed(Exec(autoCreate, acts)) && AnswersJustified(Exec(autoCreate, acts))
  {
    hide Step, AnswersJustified, WellFormed;
    if acts == [] {
      StartHolds(autoCreate);
    } else {
      AckMeansProbed(autoCreate, acts[..|acts| - 1]);
      StepWellFormed(Exec(autoCreate, acts[..|acts| - 1]), acts[|acts| - 1]);
      StepKeepsAnswers(Exec(autoCreate, acts[..|acts| - 1]), acts[|acts| - 1]);
    }
  }

  lemma StartHolds(autoCreate: bool)
    ensures WellFormed(Start(autoCreate)) && AnswersJustified(Start(autoCreate)) && BilledOnce(Start(autoCreate))
  {
  }

  /** Each auto-created job is billed at most once, and only auto-created jobs are. */
  ghost predicate BilledOnce(w: World)
  {
    && (forall id :: w.emitted[id] <= 1)
    && (forall id :: id in w.emitted ==> id in w.auto)
    && (w.pc.Emitting? ==> w.pc.job in w.auto && w.pc.job !in w.emitted)
  }

  lemma EmitKeepsBilling(w: World, published: bool)
    requires BilledOnce(w) && w.pc.Emitting?
    ensures BilledOnce(Emits(w, published))
  {
  }

  lemma CreateKeepsBilling(w: World, m: nat, preset: PresetId, id: J.JobId, now: int, o: Outcome)
    requires BilledOnce(w) && WellFormed(w) && m < |w.stream| && w.stream[m].Object?
    ensures BilledOnce(Creates(w, m, preset, id, now, o))
  {
  }

  lemma SameBills(w: World, t: World)
    requires BilledOnce(w) && t.emitted == w.emitted && t.auto == w.auto && (t.pc.Emitting? ==> t.pc == w.pc)
    ensures BilledOnce(t)
  {
  }

  lemma ProbeBillsNothing(w: World, m: nat, result: ProbeResult, upsert: Outcome)
    requires BilledOnce(w) && m < |w.stream| && w.stream[m].Object?
    ensures BilledOnce(Probes(w, m, result, upsert))
  {
    hide BilledOnce;
    SameBills(w, Probes(w, m, result, upsert));
  }

  lemma LookUpBillsNothing(w: World, m: nat, ok: bool)
    requires BilledOnce(w) && m < |w.stream| && w.stream[m].Object?
    ensures BilledOnce(LooksUp(w, m, ok))
  {
    hide BilledOnce, HasPreset, IsDefault;
    SameBills(w, LooksUp(w, m, ok));
  }

  lemma CheckBillsNothing(w: World, m: nat, preset: PresetId, ok: bool)
    requires BilledOnce(w) && m < |w.stream| && w.stream[m].Object?
    ensures BilledOnce(Checks(w, m, preset, ok))
  {
    hide BilledOnce, HasActiveJob;
    SameBills(w, Checks(w, m, preset, ok));
  }

  lemma StepKeepsBilling(w: World, a: Act)
    requires WellFormed(w) && BilledOnce(w)
    ensures BilledOnce(Step(w, a))
  {
    hide BilledOnce, Probes, LooksUp, Checks, Creates, Emits, J.Apply;
    match a
    case Emit(published) => if w.pc.Emitting? && Busy(w) { EmitKeepsBilling(w, published); }
    case CreateJob(id, now, o) => if w.pc.Creating? && Busy(w) { CreateKeepsBilling(w, w.pc.m, w.pc.preset, id, now, o); }
    case Probe(result, upsert) => if w.pc.Probing? && Busy(w) { ProbeBillsNothing(w, w.pc.m, result, upsert); }
    case LookUp(ok) => if w.pc.Looking? && Busy(w) { LookUpBillsNothing(w, w.pc.m, ok); }
    case Check(ok) => if w.pc.Checking? && Busy(w) { CheckBillsNothing(w, w.pc.m, w.pc.preset, ok); }
    case Reply => if w.pc.Replying? { SameBills(w, Replies(w, w.pc.m, w.pc.v)); }
    case _ => SameBills(w, Step(w, a));
  }

  lemma {:induction false} AutoJobsBilledAtMostOnce(autoCreate: bool, acts: seq<Act>)
    ensures WellFormed(Exec(autoCreate, acts)) && BilledOnce(Exec(autoCreate, acts))
  {
    hide Step, BilledOnce, WellFormed;
    if acts == [] {
      StartHolds(autoCreate);
    } else {
      AutoJobsBilledAtMostOnce(autoCreate, acts[..|acts| - 1]);
      StepWellFormed(Exec(autoCreate, acts[..|acts| - 1]), acts[|acts| - 1]);
      StepKeepsBilling(Exec(autoCreate, acts[..|acts| - 1]), acts[|acts| - 1]);
    }
  }

  // ---- the handler run on its own ----

  /** How each call of one callback turns out. */
  datatype Script = Script(
    probe: ProbeResult, upsert: Outcome, lookOk: bool, checkOk: bool, create: Outcome, published: bool)

  function Emits(w: World, published: bool): World
    requires w.pc.Emitting?
  {
    Say(if published then w.(emitted := w.emitted + multiset{w.pc.job}) else w, w.pc.m, Ack)
  }

  /** Once there is a default preset and it is known. */
  function OnPreset(w: World, m: nat, preset: PresetId, id: J.JobId, now: int, c: Script): World
    requires m < |w.stream| && w.stream[m].Object?
  {
    var checked := Checks(w, m, preset, c.checkOk);
    if !checked.pc.Creating? then checked
    else
      var created := Creates(checked, m, preset, id, now, c.create);
      if !created.pc.Emitting? then created else Emits(created, c.published)
  }

  /** One uninterrupted callback. */
  ghost function Handled(w: World, m: nat, id: J.JobId, now: int, c: Script): World
    requires m < |w.stream|
  {
    if w.stream[m].Invalid? then Say(w, m, Term)
    else
      var probed := Probes(w, m, c.probe, c.upsert);
      if !probed.pc.Looking? then probed
      else
        var looked := LooksUp(probed, m, c.lookOk);
        if !looked.pc.Checking? then looked else OnPreset(looked, m, looked.pc.preset, id, now, c)
  }

  /** From its check on, the callback run on its own is three steps of the interleaved machine. */
  lemma OnPresetIsARun(w: World, m: nat, id: J.JobId, now: int, c: Script)
    requires w.pc.Checking? && w.pc.m == m && m < |w.stream| && w.stream[m].Object?
    ensures OnPreset(w, m, w.pc.preset, id, now, c)
         == Step(Step(Step(w, Check(c.checkOk)), CreateJob(id, now, c.create)), Emit(c.published))
  {
    hide HasActiveJob, HasPreset, IsDefault, J.Apply, Probes, LooksUp, Replies, Creates, Emits;
    var checked := Step(w, Check(c.checkOk));
    assert checked == Checks(w, m, w.pc.preset, c.checkOk);
    if checked.pc.Creating? {
      CreatedIsARun(checked, m, id, now, c);
    } else {
      AnsweredStays(checked, id, now, c);
    }
  }

  lemma CreatedIsARun(w: World, m: nat, id: J.JobId, now: int, c: Script)
    requires w.pc.Creating? && w.pc.m == m && m < |w.stream| && w.stream[m].Object?
    ensures
      var created := Creates(w, m, w.pc.preset, id, now, c.create);
      (if created.pc.Emitting? then Emits(created, c.published) else created)
        == Step(Step(w, CreateJob(id, now, c.create)), Emit(c.published))
  {
    hide HasActiveJob, HasPreset, IsDefault, J.Apply, Probes, LooksUp, Replies, Checks;
  }

  /** A callback that has its answer takes no further steps. */
  lemma AnsweredStays(w: World, id: J.JobId, now: int, c: Script)
    requires w.pc.Replying?
    ensures Step(w, Probe(c.probe, c.upsert)) == w && Step(w, LookUp(c.lookOk)) == w && Step(w, Check(c.checkOk)) == w
    ensures Step(w, CreateJob(id, now, c.create)) == w && Step(w, Emit(c.published)) == w
  {
  }

  lemma LookedUpIsARun(w: World, m: nat, id: J.JobId, now: int, c: Script)
    requires w.pc.Looking? && w.pc.m == m && m < |w.stream| && w.stream[m].Object?
    ensures
      var looked := LooksUp(w, m, c.lookOk);
      (if looked.pc.Checking? then OnPreset(looked, m, looked.pc.preset, id, now, c) else looked)
        == Step(Step(Step(Step(w, LookUp(c.lookOk)), Check(c.checkOk)), CreateJob(id, now, c.create)), Emit(c.published))
  {
    hide HasActiveJob, HasPreset, OnPreset, Checks, Creates, IsDefault, Insert, Emits, J.Apply, Replies, Probes;
    var looked := Step(w, LookUp(c.lookOk));
    assert looked == LooksUp(w, m, c.lookOk);
    if looked.pc.Checking? {
      OnPresetIsARun(looked, m, id, now, c);
    } else {
      AnsweredStays(looked, id, now, c);
    }
  }

  lemma HandledIsARun(w: World, m: nat, id: J.JobId, now: int, c: Script)
    requires w.pc.Idle? && m < |w.stream|
    ensures Handled(w, m, id, now, c)
         == Step(Step(Step(Step(Step(Step(w, Deliver(m)), Probe(c.probe, c.upsert)), LookUp(c.lookOk)), Check(c.checkOk)),
                      CreateJob(id, now, c.create)), Emit(c.published))
  {
    hide HasActiveJob, HasPreset, OnPreset, Checks, Creates, IsDefault, Insert, Emits, J.Apply, Replies, LooksUp;
    var delivered := Step(w, Deliver(m));
    if w.stream[m].Object? {
      var probed := Step(delivered, Probe(c.probe, c.upsert));
      assert probed == Probes(w, m, c.probe, c.upsert);
      if probed.pc.Looking? {
        LookedUpIsARun(probed, m, id, now, c);
      } else {
        AnsweredStays(probed, id, now, c);
      }
    } else {
      AnsweredStays(delivered, id, now, c);
    }
  }

  lemma OnPresetCreatesIff(w: World, m: nat, preset: PresetId, id: J.JobId, now: int, c: Script)
    requires m < |w.stream| && id !in w.rows && w.stream[m].Object? && !w.pc.Creating? && !w.pc.Emitting?
    ensures OnPreset(w, m, preset, id, now, c).rows != w.rows <==>
              c.checkOk && c.create != FailsBefore && !HasActiveJob(w.rows, w.stream[m].ws, w.stream[m].key, preset)
  {
    hide HasActiveJob;
  }

  /**
   * The callback inserts a job exactly when it is enabled, its calls get that far, there is a default and nothing is
   * active on it.
   */
  lemma HandlerCreatesIff(w: World, m: nat, id: J.JobId, now: int, c: Script)
    requires w.pc.Idle? && m < |w.stream| && id !in w.rows && w.stream[m].Object?
    ensures Handled(w, m, id, now, c).rows != w.rows <==>
              && c.probe == Readable && c.upsert == Succeeds && w.autoCreate && c.lookOk && c.checkOk
              && c.create != FailsBefore && HasPreset(w.presets, w.stream[m].ws)
              && !HasActiveJob(w.rows, w.stream[m].ws, w.stream[m].key, DefaultPreset(w.presets, w.stream[m].ws))
  {
    hide HasPreset, HasActiveJob, IsDefault, OnPreset;
    var probed := Probes(w, m, c.probe, c.upsert);
    if probed.pc.Looking? {
      var looked := LooksUp(probed, m, c.lookOk);
      if looked.pc.Checking? {
        OnPresetCreatesIff(looked, m, looked.pc.preset, id, now, c);
      }
    }
  }

  /** HasActiveJobForSource, spelled out: a job of the workspace for the key on the preset that has not failed. */
  ghost predicate Busies(rows: J.Table, ws: Workspace, key: string, preset: PresetId)
  {
    exists r :: r in rows && rows[r].workspace == ws && rows[r].source == key && rows[r].preset == preset
                && rows[r].state != J.Failed
  }

  /**
   * What one callback comes to before there is a default preset to work on, for every outcome of its calls: an asset
   * that is no good is terminated, what a later delivery may still get right is retried, and the rest acknowledged.
   */
  lemma HandledEarly(w: World, m: nat, id: J.JobId, now: int, c: Script)
    requires w.pc.Idle? && m < |w.stream| && w.stream[m].Object?
    ensures var t := Handled(w, m, id, now, c);
      var stored := w.(sources := w.sources + {(w.stream[m].ws, w.stream[m].key)});
      var has := exists p :: p in w.presets && w.presets[p].ws == w.stream[m].ws;
      && (c.probe == BadAsset ==> t == w.(pc := Replying(m, Term)))
      && (c.probe == TryAgain ==> t == w.(pc := Replying(m, Nak)))
      && (c.probe == Readable && c.upsert == FailsBefore ==> t == w.(pc := Replying(m, Nak)))
      && (c.probe == Readable && c.upsert == FailsAfter ==> t == stored.(pc := Replying(m, Nak)))
      && (c.probe == Readable && c.upsert == Succeeds && !w.autoCreate ==> t == stored.(pc := Replying(m, Ack)))
      && (c.probe == Readable && c.upsert == Succeeds && w.autoCreate && !c.lookOk ==>
            t == stored.(pc := Replying(m, Nak)))
      && (c.probe == Readable && c.upsert == Succeeds && w.autoCreate && c.lookOk && !has ==>
            t == stored.(pc := Replying(m, Ack)))
  {
    hide IsDefault, OnPreset;
  }

  /**
   * ... and on the default preset: nothing while a job of the object is active on it; else exactly one queued job for
   * the object, and one billing event for that job if its insert and its publish succeed.
   */
  lemma HandledOnPreset(w: World, m: nat, id: J.JobId, now: int, c: Script)
    requires w.pc.Idle? && m < |w.stream| && id !in w.rows && w.stream[m].Object?
    requires c.probe == Readable && c.upsert == Succeeds && w.autoCreate && c.lookOk && HasPreset(w.presets, w.stream[m].ws)
    ensures var t := Handled(w, m, id, now, c);
      var (ws, key, p) := (w.stream[m].ws, w.stream[m].key, DefaultPreset(w.presets, w.stream[m].ws));
      var stored := w.(sources := w.sources + {(ws, key)});
      var made := stored.(rows := w.rows[id := J.Job(ws, key, p, J.Queued, None, 0, 0.0, now, None, None)],
                          auto := w.auto + {id});
      var busy := Busies(w.rows, ws, key, p);
      && (!c.checkOk ==> t == stored.(pc := Replying(m, Nak)))
      && (c.checkOk && busy ==> t == stored.(pc := Replying(m, Ack)))
      && (c.checkOk && !busy && c.create == FailsBefore ==> t == stored.(pc := Replying(m, Nak)))
      && (c.checkOk && !busy && c.create == FailsAfter ==> t == made.(pc := Replying(m, Nak)))
      && (c.checkOk && !busy && c.create == Succeeds && !c.published ==> t == made.(pc := Replying(m, Ack)))
      && (c.checkOk && !busy && c.create == Succeeds && c.published ==>
            t == made.(emitted := w.emitted + multiset{id}, pc := Replying(m, Ack)))
  {
    var (ws, key, p) := (w.stream[m].ws, w.stream[m].key, DefaultPreset(w.presets, w.stream[m].ws));
    var stored := w.(sources := w.sources + {(ws, key)});
    BusiesIsActive(w.rows, ws, key, p);
    hide IsDefault, HasActiveJob, OnPreset, Busies, HasPreset;
    var checking := stored.(pc := Checking(m, p));
    assert Handled(w, m, id, now, c) == OnPreset(checking, m, p, id, now, c);
    OnPresetComesTo(checking, m, p, id, now, c);
  }

  /** So a job that the callback inserts is billed, exactly once, when its insert and its publish succeed. */
  lemma CreatedJobIsBilled(w: World, m: nat, id: J.JobId, now: int, c: Script)
    requires w.pc.Idle? && m < |w.stream| && id !in w.rows && w.stream[m].Object? && w.emitted[id] == 0
    requires Handled(w, m, id, now, c).rows != w.rows && c.create == Succeeds && c.published
    ensures Handled(w, m, id, now, c).emitted[id] == 1
  {
    HandlerCreatesIff(w, m, id, now, c);
    BusiesIsActive(w.rows, w.stream[m].ws, w.stream[m].key, DefaultPreset(w.presets, w.stream[m].ws));
    HandledOnPreset(w, m, id, now, c);
    hide Handled, HasActiveJob, Busies, IsDefault, HasPreset;
  }

  lemma BusiesIsActive(rows: J.Table, ws: Workspace, key: string, p: PresetId)
    ensures Busies(rows, ws, key, p) <==> HasActiveJob(rows, ws, key, p)
  {
  }

  lemma OnPresetComesTo(w: World, m: nat, preset: PresetId, id: J.JobId, now: int, c: Script)
    requires m < |w.stream| && id !in w.rows && w.stream[m].Object? && !w.pc.Creating? && !w.pc.Emitting?
    ensures var t := OnPreset(w, m, preset, id, now, c);
      var (ws, key) := (w.stream[m].ws, w.stream[m].key);
      var made := w.(rows := w.rows[id := J.Job(ws, key, preset, J.Queued, None, 0, 0.0, now, None, None)],
                     auto := w.auto + {id});
      var busy := HasActiveJob(w.rows, ws, key, preset);
      && (!c.checkOk ==> t == w.(pc := Replying(m, Nak)))
      && (c.checkOk && busy ==> t == w.(pc := Replying(m, Ack)))
      && (c.checkOk && !busy && c.create == FailsBefore ==> t == w.(pc := Replying(m, Nak)))
      && (c.checkOk && !busy && c.create == FailsAfter ==> t == made.(pc := Replying(m, Nak)))
      && (c.checkOk && !busy && c.create == Succeeds && !c.published ==> t == made.(pc := Replying(m, Ack)))
      && (c.checkOk && !busy && c.create == Succeeds && c.published ==>
            t == made.(emitted := w.emitted + multiset{id}, pc := Replying(m, Ack)))
  {
    hide HasActiveJob;
  }

  /** A message that does not decode is terminated and changes nothing. */
  lemma InvalidIsTerminated(w: World, m: nat, id: J.JobId, now: int, c: Script)
    requires m < |w.stream| && w.stream[m].Invalid?
    ensures Handled(w, m, id, now, c) == w.(pc := Replying(m, Term))
  {
  }

  /** A reply is final except for a retry. */
  lemma ReplySettles(w: World)
    requires w.pc.Replying?
    ensures Step(w, Reply) == (match w.pc.v
      case Ack => w.(acked := w.acked + {w.pc.m}, pc := Idle)
      case Term => w.(termed := w.termed + {w.pc.m}, pc := Idle)
      case Nak => w.(pc := Idle))
  {
  }

  // ---- two runs from the start ----

  lemma ExecOne(autoCreate: bool, acts: seq<Act>, a: Act)
    ensures Exec(autoCreate, acts + [a]) == Step(Exec(autoCreate, acts), a)
  {
    assert (acts + [a])[..|acts|] == acts;
  }

  lemma ExecSix(autoCreate: bool, acts: seq<Act>, a: Act, b: Act, c: Act, d: Act, e: Act, f: Act)
    ensures Exec(autoCreate, acts + [a, b, c, d, e, f])
         == Step(Step(Step(Step(Step(Step(Exec(autoCreate, acts), a), b), c), d), e), f)
  {
    hide Step, Exec;
    ExecOne(autoCreate, acts, a);
    ExecOne(autoCreate, acts + [a], b);
    ExecOne(autoCreate, acts + [a] + [b], c);
    ExecOne(autoCreate, acts + [a] + [b] + [c], d);
    ExecOne(autoCreate, acts + [a] + [b] + [c] + [d], e);
    ExecOne(autoCreate, acts + [a] + [b] + [c] + [d] + [e], f);
    assert acts + [a, b, c, d, e, f] == acts + [a] + [b] + [c] + [d] + [e] + [f];
  }

  /** One callback's calls, none of which fails. */
  function Smoothly(id: J.JobId, now: int): seq<Act>
  {
    [Deliver(0), Probe(Readable, Succeeds), LookUp(true), Check(true), CreateJob(id, now, Succeeds), Emit(true)]
  }

  /** A message about an object of a workspace with one preset. */
  function OneMessage(ws: Workspace, key: string, p: PresetId, createdAt: int): seq<Act>
  {
    [Publish(Object(ws, key)), AddPreset(p, Preset(ws, createdAt))]
  }

  lemma MessageArrives(ws: Workspace, key: string, p: PresetId, createdAt: int) returns (w: World)
    ensures w == Exec(true, OneMessage(ws, key, p, createdAt))
    ensures w == Start(true).(stream := [Object(ws, key)], presets := map[p := Preset(ws, createdAt)])
    ensures DefaultIs(w, ws, p)
  {
    var a, b := Publish(Object(ws, key)), AddPreset(p, Preset(ws, createdAt));
    ExecOne(true, [], a);
    ExecOne(true, [a], b);
    assert [] + [a] == [a] && [a] + [b] == [a, b];
    w := Step(Step(Start(true), a), b);
    assert w.presets == map[p := Preset(ws, createdAt)] && w.stream == [Object(ws, key)];
    assert w.presets[p].ws == ws;
    DefaultIsUnique(w.presets, ws, p, DefaultPreset(w.presets, ws));
  }

  /**
   * A first landing with nothing failing ends with the object's source record, one queued job on the preset, one
   * billing event for it, and the message acknowledged.
   */
  lemma FirstLanding(ws: Workspace, key: string, p: PresetId, createdAt: int, id: J.JobId, now: int)
    ensures Exec(true, OneMessage(ws, key, p, createdAt) + Smoothly(id, now) + [Reply])
         == World([Object(ws, key)], map[p := Preset(ws, createdAt)],
                  map[id := J.Job(ws, key, p, J.Queued, None, 0, 0.0, now, None, None)],
                  {(ws, key)}, {id}, multiset{id}, {0}, {}, true, Idle)
  {
    var w := MessageArrives(ws, key, p, createdAt);
    hide Step, HasPreset, IsDefault, Exec;
    FirstCallback(w, ws, key, p, id, now);
    var start := OneMessage(ws, key, p, createdAt);
    ExecSix(true, start, Deliver(0), Probe(Readable, Succeeds), LookUp(true), Check(true),
            CreateJob(id, now, Succeeds), Emit(true));
    ExecOne(true, start + Smoothly(id, now), Reply);
  }

  lemma FirstCallback(w: World, ws: Workspace, key: string, p: PresetId, id: J.JobId, now: int)
    requires w.stream == [Object(ws, key)] && w.pc.Idle? && w.autoCreate && DefaultIs(w, ws, p) && w.rows == map[]
    ensures
      Step(Step(Step(Step(Step(Step(Step(w, Deliver(0)), Probe(Readable, Succeeds)), LookUp(true)), Check(true)),
                     CreateJob(id, now, Succeeds)), Emit(true)), Reply)
        == w.(sources := w.sources + {(ws, key)}, auto := w.auto + {id}, emitted := w.emitted + multiset{id},
              rows := map[id := J.Job(ws, key, p, J.Queued, None, 0, 0.0, now, None, None)], acked := w.acked + {0})
  {
    var c := Script(Readable, Succeeds, true, true, Succeeds, true);
    HandledIsARun(w, 0, id, now, c);
    HandledOnPreset(w, 0, id, now, c);
    ReplySettles(Handled(w, 0, id, now, c));
    assert !Busies(map[], ws, key, p);
    assert map[][id := J.Job(ws, key, p, J.Queued, None, 0, 0.0, now, None, None)]
        == map[id := J.Job(ws, key, p, J.Queued, None, 0, 0.0, now, None, None)];
    hide Step, Handled, HasPreset, IsDefault, Busies;
  }

  /** A crash after the insert forgets the callback and keeps the job. */
  lemma CutAfterInsert(w: World, ws: Workspace, key: string, p: PresetId, id: J.JobId, now: int)
    requires w.stream == [Object(ws, key)] && DefaultIs(w, ws, p) && w.rows == map[] && w.pc.Idle? && w.autoCreate
    ensures Step(Step(Step(Step(Step(Step(w, Deliver(0)), Probe(Readable, Succeeds)), LookUp(true)), Check(true)),
                      CreateJob(id, now, Succeeds)), Crash)
         == w.(sources := w.sources + {(ws, key)}, auto := w.auto + {id},
               rows := map[id := J.Job(ws, key, p, J.Queued, None, 0, 0.0, now, None, None)])
  {
    hide IsDefault, HasPreset;
    var w1 := Step(w, Deliver(0));
    var w2 := Step(w1, Probe(Readable, Succeeds));
    assert w2 == w.(sources := w.sources + {(ws, key)}, pc := Looking(0));
    var w3 := Step(w2, LookUp(true));
    assert w3 == w2.(pc := Checking(0, p));
    var w4 := Step(w3, Check(true));
    assert w4 == w3.(pc := Creating(0, p));
    assert map[][id := J.Job(ws, key, p, J.Queued, None, 0, 0.0, now, None, None)]
        == map[id := J.Job(ws, key, p, J.Queued, None, 0, 0.0, now, None, None)];
  }

  /** A redelivery of an object with an active job only acknowledges. */
  lemma RedeliveryFindsIt(w: World, ws: Workspace, key: string, p: PresetId, other: J.JobId, now: int)
    requires w.stream == [Object(ws, key)] && w.pc.Idle? && w.autoCreate && DefaultIs(w, ws, p) && other !in w.rows
    requires (ws, key) in w.sources && Busies(w.rows, ws, key, p)
    ensures
      Step(Step(Step(Step(Step(Step(Step(w, Deliver(0)), Probe(Readable, Succeeds)), LookUp(true)), Check(true)),
                     CreateJob(other, now, Succeeds)), Emit(true)), Reply)
        == w.(acked := w.acked + {0})
  {
    var c := Script(Readable, Succeeds, true, true, Succeeds, true);
    HandledIsARun(w, 0, other, now, c);
    HandledOnPreset(w, 0, other, now, c);
    ReplySettles(Handled(w, 0, other, now, c));
    assert w.sources + {(ws, key)} == w.sources;
    hide Step, Handled, HasPreset, IsDefault, Busies;
  }

  /**
   * The other run: a crash between the insert and the billing event. The redelivery finds the job active and is
   * acknowledged, so the job stands and is never billed.
   */
  lemma CrashLosesTheBill(ws: Workspace, key: string, p: PresetId, createdAt: int, id: J.JobId, now: int, other: J.JobId)
    requires other != id
    ensures
      var crashed := [Deliver(0), Probe(Readable, Succeeds), LookUp(true), Check(true), CreateJob(id, now, Succeeds), Crash];
      Exec(true, OneMessage(ws, key, p, createdAt) + crashed + Smoothly(other, now) + [Reply])
        == World([Object(ws, key)], map[p := Preset(ws, createdAt)],
                 map[id := J.Job(ws, key, p, J.Queued, None, 0, 0.0, now, None, None)],
                 {(ws, key)}, {id}, multiset{}, {0}, {}, true, Idle)
  {
    var w := MessageArrives(ws, key, p, createdAt);
    CutAfterInsert(w, ws, key, p, id, now);
    var cut := w.(sources := w.sources + {(ws, key)}, auto := w.auto + {id},
                  rows := map[id := J.Job(ws, key, p, J.Queued, None, 0, 0.0, now, None, None)]);
    assert cut.rows[id].source == key && Busies(cut.rows, ws, key, p);
    hide Step, HasPreset, IsDefault, Exec, Busies;
    RedeliveryFindsIt(cut, ws, key, p, other, now);
    var start := OneMessage(ws, key, p, createdAt);
    var crashed := [Deliver(0), Probe(Readable, Succeeds), LookUp(true), Check(true), CreateJob(id, now, Succeeds), Crash];
    ExecSix(true, start, Deliver(0), Probe(Readable, Succeeds), LookUp(true), Check(true),
            CreateJob(id, now, Succeeds), Crash);
    ExecSix(true, start + crashed, Deliver(0), Probe(Readable, Succeeds), LookUp(true), Check(true),
            CreateJob(other, now, Succeeds), Emit(true));
    ExecOne(true, start + crashed + Smoothly(other, now), Reply);
  }

  /** The object's only job has failed: nothing is active, and a callback makes and bills another. */
  lemma AnotherAfterFailure(
      w: World, ws: Workspace, key: string, p: PresetId, id: J.JobId, now: int, other: J.JobId, later: int)
    requires w.stream == [Object(ws, key)] && w.pc.Idle? && w.autoCreate && DefaultIs(w, ws, p) && other != id
    requires w.rows == map[id := J.Job(ws, key, p, J.Failed, Some(J.Internal), 0, 0.0, now, None, Some(later))]
    requires w.auto == {id} && w.emitted == multiset{id}
    ensures
      var t := Step(Step(Step(Step(Step(Step(w, Deliver(0)), Probe(Readable, Succeeds)), LookUp(true)), Check(true)),
                         CreateJob(other, later, Succeeds)), Emit(true));
      && t.rows == w.rows[other := J.Job(ws, key, p, J.Queued, None, 0, 0.0, later, None, None)]
      && t.auto == {id, other} && t.emitted == multiset{id, other}
  {
    var c := Script(Readable, Succeeds, true, true, Succeeds, true);
    assert !Busies(w.rows, ws, key, p);
    HandledIsARun(w, 0, other, later, c);
    HandledOnPreset(w, 0, other, later, c);
    hide Step, Handled, HasPreset, IsDefault, Busies;
  }

  /** Why at most one needs that no auto-created job fails: once it has, a redelivery creates and bills another. */
  lemma FailedJobAllowsAnother(
      ws: Workspace, key: string, p: PresetId, createdAt: int, id: J.JobId, now: int, other: J.JobId, later: int)
    requires other != id
    ensures
      var t := Exec(true, OneMessage(ws, key, p, createdAt) + Smoothly(id, now) + [Reply]
                          + [Store(J.Fail(id, J.Internal, later))] + Smoothly(other, later));
      && |AutoJobs(t, ws, key)| == 2 && t.rows.Keys == {id, other} && t.emitted == multiset{id, other}
      && t.rows[id].state == J.Failed && t.rows[other].state == J.Queued
  {
    var before := OneMessage(ws, key, p, createdAt) + Smoothly(id, now) + [Reply];
    var w := Exec(true, before);
    FirstLanding(ws, key, p, createdAt, id, now);
    var fail := Store(J.Fail(id, J.Internal, later));
    var failed := Step(w, fail);
    assert failed == w.(rows := map[id := J.Job(ws, key, p, J.Failed, Some(J.Internal), 0, 0.0, now, None, Some(later))]);
    assert failed.presets[p].ws == ws;
    DefaultIsUnique(failed.presets, ws, p, DefaultPreset(failed.presets, ws));
    hide Step, IsDefault, HasPreset, Exec;
    AnotherAfterFailure(failed, ws, key, p, id, now, other, later);
    ExecOne(true, before, fail);
    ExecSix(true, before + [fail], Deliver(0), Probe(Readable, Succeeds), LookUp(true), Check(true),
            CreateJob(other, later, Succeeds), Emit(true));
    var t := Exec(true, before + [fail] + Smoothly(other, later));
    assert AutoJobs(t, ws, key) == {id, other};
  }

  class LandedConsumer {
    var presets: Presets
    var rows: J.Table
    var sources: set<(Workspace, string)>
    var auto: set<J.JobId>
    var emitted: multiset<J.JobId>
    const autoCreate: bool

    constructor (autoCreate: bool)
      ensures presets == map[] && rows == map[] && sources == {} && auto == {} && emitted == multiset{}
      ensures this.autoCreate == autoCreate
    {
      presets, rows, sources, auto, emitted := map[], map[], {}, {}, multiset{};
      this.autoCreate := autoCreate;
    }

    ghost function View(stream: seq<Msg>, pc: Pc): World
      reads this
    {
      World(stream, presets, rows, sources, auto, emitted, {}, {}, autoCreate, pc)
    }

    /** The ORDER BY ... LIMIT 1 of DefaultPreset. */
    method OldestPreset(ws: Workspace) returns (p: Option<PresetId>)
      ensures p.Some? <==> HasPreset(presets, ws)
      ensures p.Some? ==> p.value == DefaultPreset(presets, ws)
      ensures p.Some? ==> p.value in presets && presets[p.value].ws == ws
      ensures p.Some? ==> forall q :: q in presets && presets[q].ws == ws && q != p.value ==>
        presets[p.value].createdAt < presets[q].createdAt ||
        (presets[p.value].createdAt == presets[q].createdAt && p.value < q)
    {
      p := None;
      var left := presets.Keys;
      while left != {}
        invariant left <= presets.Keys
        invariant p.None? ==> forall q :: q in presets.Keys - left ==> presets[q].ws != ws
        invariant p.Some? ==> p.value in presets && presets[p.value].ws == ws
        invariant p.Some? ==> NoneBefore(presets, presets.Keys - left, ws, p.value)
        decreases |left|
      {
        var q :| q in left;
        left := left - {q};
        if presets[q].ws == ws && (p.None? || Before(presets, q, p.value)) {
          p := Some(q);
        }
      }
      if p.Some? {
        assert IsDefault(presets, ws, p.value);
        DefaultIsUnique(presets, ws, p.value, DefaultPreset(presets, ws));
      }
    }

    /** handle and autoCreateJob, returning what the message is answered with. */
    method Handle(ghost stream: seq<Msg>, ghost m: nat, msg: Msg, id: J.JobId, now: int, c: Script) returns (v: Verdict)
      requires m < |stream| && stream[m] == msg && id !in rows
      modifies this
      ensures View(stream, Replying(m, v)) == Handled(old(View(stream, Idle)), m, id, now, c)
    {
      hide HasPreset, HasActiveJob, OnPreset;
      if msg.Invalid? || c.probe == BadAsset {
        return Term;
      }
      if c.probe == TryAgain || c.upsert == FailsBefore {
        return Nak;
      }
      sources := sources + {(msg.ws, msg.key)};
      if c.upsert == FailsAfter {
        return Nak;
      }
      if autoCreate {
        if !c.lookOk {
          return Nak;
        }
        var preset := OldestPreset(msg.ws);
        if preset.None? {
          return Ack;
        }
        v := CreateUnlessActive(stream, m, msg, preset.value, id, now, c);
        return;
      }
      return Ack;
    }

    /** The rest of autoCreateJob once there is a default preset: the duplicate check, the insert, the metering event. */
    method CreateUnlessActive(
        ghost stream: seq<Msg>, ghost m: nat, msg: Msg, preset: PresetId, id: J.JobId, now: int, c: Script)
      returns (v: Verdict)
      requires m < |stream| && stream[m] == msg && msg.Object? && id !in rows
      modifies this
      ensures View(stream, Replying(m, v)) == OnPreset(old(View(stream, Checking(m, preset))), m, preset, id, now, c)
    {
      if !c.checkOk {
        return Nak;
      }
      if exists r :: r in rows && MatchesSource(rows[r], msg.ws, msg.key) && rows[r].preset == preset
                     && rows[r].state != J.Failed {
        return Ack;
      }
      if c.create == FailsBefore {
        return Nak;
      }
      rows := rows[id := J.NewJob(msg.ws, msg.key, preset, now)];
      auto := auto + {id};
      if c.create == FailsAfter {
        return Nak;
      }
      if c.published {
        emitted := emitted + multiset{id};
      }
      return Ack;
    }
  }

  ghost predicate NoneBefore(presets: Presets, seen: set<PresetId>, ws: Workspace, p: PresetId)
    requires p in presets
  {
    forall q :: q in seen && q in presets && presets[q].ws == ws ==> Before(presets, p, q)
  }
}
