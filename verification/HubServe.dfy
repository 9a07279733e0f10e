// hub.go's serving loop interleaved with its publishers, at the granularity of
// one lock section or one channel operation, and what reaches the client.
module HubServe {
  import opened Hub
  import Sse

  /** Where the serving goroutine is. */
  datatype Pc = Waiting | Draining | Writing(batch: Batch) | Gone

  datatype State = State(
    conn: ConnState,
    notifying: nat,              // pushers between their unlock and their notify
    pc: Pc,
    out: seq<Sse.Frame>,         // frames flushed to the client
    // History:
    log: seq<Event>,             // accepted since the last drain
    drained: seq<seq<Event>>     // accepted events, grouped by the drain that took them
  )

  datatype Action =
    | PushLocked(ev: Event)      // a publisher's lock section, for an event the filter accepts
    | PushNotify                 // its non-blocking send
    | Heartbeat(flushed: bool)
    | Receive                    // the loop takes the notify token
    | DrainOnce
    | Write(flushed: bool)
    | Disconnect

  function Boot(conn: ConnState, replayed: seq<Event>): State
  {
    State(conn, 0, Waiting, [Sse.Comment("connected")], replayed, [])
  }

  function Decimal(n: nat): string
  {
    if n < 10 then [Digit(n)] else Decimal(n / 10) + [Digit(n % 10)]
  }

  function Digit(d: nat): char
    requires d < 10
  {
    "0123456789"[d]
  }

  /** The explicit marker that precedes a delivery after drops. */
  function Marker(dropped: nat): Sse.Event
  {
    Sse.Event("dropped", "{\"dropped\":" + Decimal(dropped) + "}")
  }

  function Wire(evs: seq<Event>): seq<Sse.Event>
  {
    seq(|evs|, i requires 0 <= i < |evs| => Sse.Event(evs[i].name, evs[i].data))
  }

  /** The client-visible events of one drained batch. */
  function Delivery(b: Batch): seq<Sse.Event>
  {
    (if b.dropped > 0 then [Marker(b.dropped)] else []) + Wire(b.events)
  }

  function Frames(evs: seq<Sse.Event>): seq<Sse.Frame>
  {
    seq(|evs|, i requires 0 <= i < |evs| => Sse.Send(evs[i]))
  }

  function Next(s: State, a: Action): State
  {
    match a
    case PushLocked(ev) =>
      s.(conn := Pushed(s.conn, ev), notifying := s.notifying + 1, log := s.log + [ev])
    case PushNotify =>
      if s.notifying > 0 then s.(conn := Notified(s.conn), notifying := s.notifying - 1) else s
    case Heartbeat(flushed) =>
      if !s.pc.Waiting? then s
      else if flushed then s.(out := s.out + [Sse.Comment("hb")]) else s.(pc := Gone)
    case Receive =>
      if s.pc.Waiting? && s.conn.notify then s.(conn := s.conn.(notify := false), pc := Draining) else s
    case DrainOnce =>
      if !s.pc.Draining? then s
      else
        var b := Batch(s.conn.buf, s.conn.dropped);
        s.(conn := Drained(s.conn),
           pc := if b.dropped == 0 && b.events == [] then Waiting else Writing(b),
           log := [],
           drained := s.drained + [s.log])
    case Write(flushed) =>
      if !s.pc.Writing? then s
      else if flushed then s.(out := s.out + Frames(Delivery(s.pc.batch)), pc := Draining) else s.(pc := Gone)
    case Disconnect =>
      if s.pc.Waiting? then s.(pc := Gone) else s
  }

  function Exec(s: State, run: seq<Action>): State
    decreases |run|
  {
    if run == [] then s else Exec(Next(s, run[0]), run[1..])
  }

  /** A non-empty buffer always has somebody on the way to it. */
  predicate NoLostWakeup(s: State)
  {
    s.conn.buf != [] || s.conn.dropped > 0 ==>
      s.conn.notify || s.notifying > 0 || s.pc.Draining? || s.pc.Writing? || s.pc.Gone?
  }

  /** All that the drained groups owe the client, in order. */
  function Owed(max: nat, groups: seq<seq<Event>>): seq<Sse.Event>
  {
    if groups == [] then []
    else Owed(max, groups[..|groups| - 1]) + Delivery(BatchOf(max, groups[|groups| - 1]))
  }

  function InHand(s: State): seq<Sse.Event>
  {
    if s.pc.Writing? then Delivery(s.pc.batch) else []
  }

  ghost predicate Inv(s: State)
  {
    && Represents(s.conn, s.log)
    && NoLostWakeup(s)
    && (s.pc.Writing? ==> s.drained != [] && s.pc.batch == BatchOf(s.conn.max, s.drained[|s.drained| - 1]))
    && (!s.pc.Gone? ==> Sse.EventsOf(s.out) + InHand(s) == Owed(s.conn.max, s.drained))
  }

  lemma {:induction false} EventsOfAppend(a: seq<Sse.Frame>, b: seq<Sse.Frame>)
    ensures Sse.EventsOf(a + b) == Sse.EventsOf(a) + Sse.EventsOf(b)
  {
    if a == [] {
      assert a + b == b;
    } else {
      assert (a + b)[1..] == a[1..] + b;
      EventsOfAppend(a[1..], b);
    }
  }

  lemma {:induction false} EventsOfFrames(evs: seq<Sse.Event>)
    ensures Sse.EventsOf(Frames(evs)) == evs
  {
    if evs != [] {
      assert Frames(evs)[1..] == Frames(evs[1..]);
      EventsOfFrames(evs[1..]);
    }
  }

  lemma PushLockedKeeps(s: State, ev: Event)
    requires Inv(s)
    ensures Inv(Next(s, PushLocked(ev)))
  {
    hide Owed, Sse.EventsOf, Delivery;
    PushRefinesAppend(s.conn, s.log, ev);
  }

  lemma DrainWakes(s: State)
    requires s.pc.Draining?
    ensures NoLostWakeup(Next(s, DrainOnce))
  {
  }

  lemma OwedOneMore(max: nat, groups: seq<seq<Event>>, log: seq<Event>)
    ensures Owed(max, groups + [log]) == Owed(max, groups) + Delivery(BatchOf(max, log))
  {
    hide Delivery, BatchOf;
    assert (groups + [log])[..|groups|] == groups;
  }

  lemma NothingToDeliver()
    ensures Delivery(Batch([], 0)) == []
  {
    assert Wire([]) == [];
  }

  /** The batch in hand is what the drained group owes; an empty batch owes nothing. */
  lemma DrainOwes(s: State)
    requires s.pc.Draining? && Batch(s.conn.buf, s.conn.dropped) == BatchOf(s.conn.max, s.log)
    requires Sse.EventsOf(s.out) + InHand(s) == Owed(s.conn.max, s.drained)
    ensures var t := Next(s, DrainOnce); Sse.EventsOf(t.out) + InHand(t) == Owed(t.conn.max, t.drained)
  {
    hide Sse.EventsOf, BatchOf, Delivery, Owed;
    OwedOneMore(s.conn.max, s.drained, s.log);
    NothingToDeliver();
    assert Owed(s.conn.max, s.drained) + [] == Owed(s.conn.max, s.drained);
  }

  lemma DrainKeeps(s: State)
    requires Inv(s) && s.pc.Draining?
    ensures Inv(Next(s, DrainOnce))
  {
    hide Represents, Sse.EventsOf, Last, BatchOf, Delivery, NoLostWakeup, Owed;
    DrainIsBatch(s.conn, s.log);
    DrainWakes(s);
    DrainOwes(s);
  }

  lemma WriteKeeps(s: State, flushed: bool)
    requires Inv(s) && s.pc.Writing?
    ensures Inv(Next(s, Write(flushed)))
  {
    hide Represents, Owed, Delivery, Frames, Sse.EventsOf;
    EventsOfAppend(s.out, Frames(Delivery(s.pc.batch)));
    EventsOfFrames(Delivery(s.pc.batch));
  }

  lemma NextKeeps(s: State, a: Action)
    requires Inv(s)
    ensures Inv(Next(s, a)) && Next(s, a).conn.max == s.conn.max
  {
    match a
    case PushLocked(ev) => PushLockedKeeps(s, ev);
    case DrainOnce => if s.pc.Draining? { DrainKeeps(s); }
    case Write(flushed) => if s.pc.Writing? { WriteKeeps(s, flushed); }
    case Heartbeat(flushed) => EventsOfAppend(s.out, [Sse.Comment("hb")]);
    case _ =>
  }

  lemma {:induction false} ExecKeeps(s: State, run: seq<Action>)
    requires Inv(s)
    ensures Inv(Exec(s, run)) && Exec(s, run).conn.max == s.conn.max
    decreases |run|
  {
    if run != [] {
      NextKeeps(s, run[0]);
      ExecKeeps(Next(s, run[0]), run[1..]);
    }
  }

  /** A subscription as Subscribe leaves it: sticky events replayed, and the slot full if any was accepted. */
  ghost predicate Subscribed(conn: ConnState, replayed: seq<Event>)
  {
    Represents(conn, replayed) && (replayed != [] ==> conn.notify)
  }

  /** No lost wakeup, in every interleaving of any publishers with the serving loop. */
  lemma WakeupNeverLost(conn: ConnState, replayed: seq<Event>, run: seq<Action>)
    requires Subscribed(conn, replayed)
    ensures NoLostWakeup(Exec(Boot(conn, replayed), run))
  {
    ExecKeeps(Boot(conn, replayed), run);
  }

  /** The events a filter accepts, in order. */
  function Filtered(filter: Event -> bool, evs: seq<Event>): seq<Event>
  {
    if evs == [] then []
    else Filtered(filter, evs[..|evs| - 1]) + if filter(evs[|evs| - 1]) then [evs[|evs| - 1]] else []
  }

  /**
   * What Subscribe leaves: the replayed sticky events the filter accepts are represented, and the slot is full if there
   * are any.
   */
  lemma {:induction false} SubscribeLeavesSubscribed(max: nat, filter: Event -> bool, evs: seq<Event>)
    requires max >= 1
    ensures Subscribed(OfferedAll(Fresh(max), filter, evs), Filtered(filter, evs))
  {
    hide Pushed, Represents;
    if evs == [] {
      FreshIsEmpty(max);
    } else {
      var front, last := evs[..|evs| - 1], evs[|evs| - 1];
      SubscribeLeavesSubscribed(max, filter, front);
      if filter(last) {
        var c := OfferedAll(Fresh(max), filter, front);
        PushRefinesAppend(c, Filtered(filter, front), last);
        NotifyKeeps(Pushed(c, last), Filtered(filter, front) + [last]);
      } else {
        assert Filtered(filter, evs) == Filtered(filter, front);
      }
    }
  }

  /** The groups drained so far plus the current log are the accepted events, in order. */
  function AcceptedIn(s: State): seq<Event>
  {
    Joined(s.drained) + s.log
  }

  function Joined(groups: seq<seq<Event>>): seq<Event>
  {
    if groups == [] then [] else Joined(groups[..|groups| - 1]) + groups[|groups| - 1]
  }

  function PushedIn(run: seq<Action>): seq<Event>
  {
    if run == [] then [] else (if run[0].PushLocked? then [run[0].ev] else []) + PushedIn(run[1..])
  }

  lemma NextAccounts(s: State, a: Action)
    ensures AcceptedIn(Next(s, a)) == AcceptedIn(s) + if a.PushLocked? then [a.ev] else []
  {
    hide Delivery;
    if a.DrainOnce? && s.pc.Draining? {
      assert (s.drained + [s.log])[..|s.drained|] == s.drained;
    }
  }

  lemma {:induction false} EveryPushIsAccountedFor(s: State, run: seq<Action>)
    ensures AcceptedIn(Exec(s, run)) == AcceptedIn(s) + PushedIn(run)
    decreases |run|
  {
    hide Next, AcceptedIn;
    if run == [] {
      assert AcceptedIn(s) + [] == AcceptedIn(s);
    } else {
      NextAccounts(s, run[0]);
      EveryPushIsAccountedFor(Next(s, run[0]), run[1..]);
      var first := if run[0].PushLocked? then [run[0].ev] else [];
      assert AcceptedIn(s) + first + PushedIn(run[1..]) == AcceptedIn(s) + (first + PushedIn(run[1..]));
    }
  }

  /** A sleeping loop with no token and no pusher has nothing buffered, nothing in hand and nothing in the log. */
  lemma QuietState(s: State)
    requires Inv(s) && s.pc.Waiting? && !s.conn.notify && s.notifying == 0
    ensures s.conn.buf == [] && s.conn.dropped == 0 && s.log == [] && AcceptedIn(s) == Joined(s.drained)
    ensures Sse.EventsOf(s.out) == Owed(s.conn.max, s.drained)
  {
    hide Owed, Sse.EventsOf, Joined;
    assert Joined(s.drained) + [] == Joined(s.drained);
    assert Sse.EventsOf(s.out) + [] == Sse.EventsOf(s.out);
  }

  /** When the loop sleeps with nothing pending, everything accepted was delivered or counted in a marker, in order. */
  lemma QuiescentMeansDelivered(conn: ConnState, replayed: seq<Event>, run: seq<Action>)
    returns (parts: seq<seq<Sse.Event>>)
    requires Subscribed(conn, replayed)
    ensures var s := Exec(Boot(conn, replayed), run);
      s.pc.Waiting? && !s.conn.notify && s.notifying == 0 ==>
        && s.conn.buf == [] && s.conn.dropped == 0
        && Sse.EventsOf(s.out) == AllOf(parts) && |parts| == |s.drained|
        && (forall g :: 0 <= g < |parts| ==> Tells(parts[g], conn.max, s.drained[g]))
        && Joined(s.drained) == replayed + PushedIn(run)
  {
    var boot := Boot(conn, replayed);
    assert Inv(boot) && AcceptedIn(boot) == replayed;
    ExecKeeps(boot, run);
    EveryPushIsAccountedFor(boot, run);
    hide Inv, Exec, Owed, Joined, Sse.EventsOf, AcceptedIn, Tells, AllOf;
    var s := Exec(boot, run);
    parts := OwedTells(conn.max, s.drained);
    if s.pc.Waiting? && !s.conn.notify && s.notifying == 0 {
      QuietState(s);
    }
  }

  // ---- all the way to the client ----

  predicate Clean(ev: Event)
  {
    Sse.OneLine(ev.name) && Sse.OneLine(ev.data)
  }

  ghost predicate AllPrintable(frames: seq<Sse.Frame>)
  {
    forall f :: f in frames ==> Sse.Printable(f)
  }

  lemma {:induction false} DecimalIsPlain(n: nat)
    ensures |Decimal(n)| > 0 && forall i :: 0 <= i < |Decimal(n)| ==> '0' <= Decimal(n)[i] <= '9'
  {
    if n >= 10 {
      DecimalIsPlain(n / 10);
    }
  }

  lemma MarkerIsPrintable(n: nat)
    ensures Sse.Printable(Sse.Send(Marker(n)))
  {
    DecimalIsPlain(n);
  }

  ghost predicate AllClean(s: State)
  {
    && (forall i :: 0 <= i < |s.conn.buf| ==> Clean(s.conn.buf[i]))
    && (s.pc.Writing? ==> forall i :: 0 <= i < |s.pc.batch.events| ==> Clean(s.pc.batch.events[i]))
    && AllPrintable(s.out)
  }

  lemma CleanStep(s: State, a: Action)
    requires AllClean(s) && (a.PushLocked? ==> Clean(a.ev))
    ensures AllClean(Next(s, a))
  {
    if a.Write? && s.pc.Writing? {
      MarkerIsPrintable(s.pc.batch.dropped);
    }
  }

  lemma {:induction false} CleanRun(s: State, run: seq<Action>)
    requires AllClean(s) && forall i :: 0 <= i < |run| && run[i].PushLocked? ==> Clean(run[i].ev)
    ensures AllClean(Exec(s, run))
    decreases |run|
  {
    if run != [] {
      CleanStep(s, run[0]);
      CleanRun(Next(s, run[0]), run[1..]);
    }
  }

  /**
   * End to end: for every interleaving of publishers and server, and every way
   * the network cuts the stream into pieces, the console's reader delivers
   * exactly what the drained groups owe, less only a batch still in hand.
   */
  lemma ClientReceivesWhatIsOwed(conn: ConnState, replayed: seq<Event>, run: seq<Action>, pieces: seq<string>)
    requires Subscribed(conn, replayed)
    requires forall i :: 0 <= i < |replayed| ==> Clean(replayed[i])
    requires forall i :: 0 <= i < |run| && run[i].PushLocked? ==> Clean(run[i].ev)
    requires Sse.Flatten(pieces) == Sse.PrintAll(Exec(Boot(conn, replayed), run).out)
    ensures var s := Exec(Boot(conn, replayed), run);
      !s.pc.Gone? ==>
        Sse.Fed("", pieces).1 == "" && Sse.Fed("", pieces).0 + InHand(s) == Owed(conn.max, s.drained)
  {
    ServedRun(conn, replayed, run);
    hide *;
    var s := Exec(Boot(conn, replayed), run);
    Sse.RoundTripAnySplit(s.out, pieces);
  }

  lemma BootHolds(conn: ConnState, replayed: seq<Event>)
    requires Subscribed(conn, replayed)
    requires forall i :: 0 <= i < |replayed| ==> Clean(replayed[i])
    ensures Inv(Boot(conn, replayed)) && AllClean(Boot(conn, replayed)) && Boot(conn, replayed).conn.max == conn.max
  {
  }

  /** What holds after every run of clean events. */
  lemma ServedRun(conn: ConnState, replayed: seq<Event>, run: seq<Action>)
    requires Subscribed(conn, replayed)
    requires forall i :: 0 <= i < |replayed| ==> Clean(replayed[i])
    requires forall i :: 0 <= i < |run| && run[i].PushLocked? ==> Clean(run[i].ev)
    ensures var s := Exec(Boot(conn, replayed), run);
      && (forall f :: f in s.out ==> Sse.Printable(f))
      && (!s.pc.Gone? ==> Sse.EventsOf(s.out) + InHand(s) == Owed(conn.max, s.drained))
  {
    BootHolds(conn, replayed);
    hide Exec, Boot, Represents, NoLostWakeup, Owed, Sse.EventsOf, InHand, Clean, Subscribed;
    ExecKeeps(Boot(conn, replayed), run);
    CleanRun(Boot(conn, replayed), run);
  }

  // ---- what is owed, spelled out ----

  /** The number a string of digits writes. */
  function ReadDigits(s: string): nat
    requires forall i :: 0 <= i < |s| ==> '0' <= s[i] <= '9'
  {
    if s == [] then 0 else 10 * ReadDigits(s[..|s| - 1]) + (s[|s| - 1] as int - '0' as int)
  }

  /** A count is written in digits that read back as the count, without leading zeros. */
  lemma {:induction false} DecimalReadsBack(n: nat)
    ensures |Decimal(n)| > 0 && forall i :: 0 <= i < |Decimal(n)| ==> '0' <= Decimal(n)[i] <= '9'
    ensures ReadDigits(Decimal(n)) == n
    ensures n > 0 ==> Decimal(n)[0] != '0'
  {
    var last := Digit(n % 10);
    assert last as int - '0' as int == n % 10;
    if n >= 10 {
      DecimalReadsBack(n / 10);
      assert Decimal(n)[..|Decimal(n)| - 1] == Decimal(n / 10);
    } else {
      assert Decimal(n) == [last] && Decimal(n)[..0] == [];
    }
  }

  /**
   * What the client is owed for one drained group: its newest `max` events in order, by name and data; and, when there
   * were more, before them one event "dropped" that says how many are missing.
   */
  ghost predicate Tells(evs: seq<Sse.Event>, max: nat, group: seq<Event>)
  {
    var lost := if |group| > max then |group| - max else 0;
    var marks := if lost > 0 then 1 else 0;
    var newest := group[lost..];
    && |evs| == marks + |newest|
    && (lost > 0 ==>
          && evs[0].name == "dropped"
          && exists digits: string ::
               && evs[0].data == "{\"dropped\":" + digits + "}"
               && digits != "" && (forall i :: 0 <= i < |digits| ==> '0' <= digits[i] <= '9')
               && digits[0] != '0' && ReadDigits(digits) == lost)
    && var told := evs[marks..];
       forall i :: 0 <= i < |newest| ==> told[i].name == newest[i].name && told[i].data == newest[i].data
  }

  lemma DeliveryTells(max: nat, group: seq<Event>)
    ensures Tells(Delivery(BatchOf(max, group)), max, group)
  {
    var lost := if |group| > max then |group| - max else 0;
    assert BatchOf(max, group).events == group[lost..];
    if lost > 0 {
      DecimalReadsBack(lost);
      var digits := Decimal(lost);
      assert Delivery(BatchOf(max, group))[0].data == "{\"dropped\":" + digits + "}";
      assert Delivery(BatchOf(max, group))[1..] == Wire(group[lost..]);
    }
  }

  /** The events of several groups, one after another. */
  function AllOf(parts: seq<seq<Sse.Event>>): seq<Sse.Event>
  {
    if parts == [] then [] else AllOf(parts[..|parts| - 1]) + parts[|parts| - 1]
  }

  lemma {:induction false} OwedTells(max: nat, groups: seq<seq<Event>>) returns (parts: seq<seq<Sse.Event>>)
    ensures |parts| == |groups| && Owed(max, groups) == AllOf(parts)
    ensures forall g :: 0 <= g < |groups| ==> Tells(parts[g], max, groups[g])
  {
    hide Delivery, Tells, BatchOf;
    if groups == [] {
      parts := [];
    } else {
      var front, last := groups[..|groups| - 1], groups[|groups| - 1];
      var before := OwedTells(max, front);
      DeliveryTells(max, last);
      parts := before + [Delivery(BatchOf(max, last))];
      assert parts[..|parts| - 1] == before;
      assert forall g :: 0 <= g < |front| ==> Tells(parts[g], max, groups[g]);
    }
  }

  /** What the frames flushed so far owe the groups: all of them, or all but the one being written. */
  lemma FlushedIsOwed(s: State)
    requires Inv(s) && !s.pc.Gone?
    ensures s.pc.Writing? ==> s.drained != []
    ensures Sse.EventsOf(s.out) == Owed(s.conn.max, if s.pc.Writing? then s.drained[..|s.drained| - 1] else s.drained)
  {
    hide Represents, NoLostWakeup, Sse.EventsOf, Delivery, BatchOf;
    if s.pc.Writing? {
      var mine := Delivery(s.pc.batch);
      assert Owed(s.conn.max, s.drained) == Owed(s.conn.max, s.drained[..|s.drained| - 1]) + mine;
      SameTail(Sse.EventsOf(s.out), Owed(s.conn.max, s.drained[..|s.drained| - 1]), mine);
    } else {
      assert Sse.EventsOf(s.out) + [] == Sse.EventsOf(s.out);
    }
  }

  lemma SameTail(a: seq<Sse.Event>, b: seq<Sse.Event>, c: seq<Sse.Event>)
    requires a + c == b + c
    ensures a == b
  {
    assert |a| == |b|;
    assert a == (a + c)[..|a|] && b == (b + c)[..|a|];
  }

  /**
   * End to end, in the client's terms. For every interleaving of publishers and server and every cutting of the stream,
   * the reader has delivered, drain by drain, the newest events of each drained group in order, and before them the one
   * "dropped" event with the number missing whenever any were dropped; only a group still being written is missing.
   */
  lemma ClientSeesEveryDrain(conn: ConnState, replayed: seq<Event>, run: seq<Action>, pieces: seq<string>)
    returns (parts: seq<seq<Sse.Event>>)
    requires Subscribed(conn, replayed)
    requires forall i :: 0 <= i < |replayed| ==> Clean(replayed[i])
    requires forall i :: 0 <= i < |run| && run[i].PushLocked? ==> Clean(run[i].ev)
    requires Sse.Flatten(pieces) == Sse.PrintAll(Exec(Boot(conn, replayed), run).out)
    ensures var s := Exec(Boot(conn, replayed), run);
      !s.pc.Gone? ==>
        && |parts| == |s.drained| - (if s.pc.Writing? then 1 else 0)
        && Sse.Fed("", pieces).0 == AllOf(parts)
        && forall g :: 0 <= g < |parts| ==> Tells(parts[g], conn.max, s.drained[g])
  {
    ServedRun(conn, replayed, run);
    BootHolds(conn, replayed);
    hide Boot, Owed, Sse.EventsOf, Sse.Fed, Sse.Flatten, Sse.PrintAll, Clean, Subscribed, InHand, Tells, AllOf;
    ExecKeeps(Boot(conn, replayed), run);
    hide Exec;
    var s := Exec(Boot(conn, replayed), run);
    Sse.RoundTripAnySplit(s.out, pieces);
    parts := [];
    if !s.pc.Gone? {
      FlushedIsOwed(s);
      var groups := if s.pc.Writing? then s.drained[..|s.drained| - 1] else s.drained;
      parts := OwedTells(conn.max, groups);
      assert forall g :: 0 <= g < |groups| ==> groups[g] == s.drained[g];
    }
  }

  /**
   * One undisturbed round of the loop, from any reachable state with a notification to take: the client is told of
   * exactly the events accepted since the last drain, and the loop waits again over an empty buffer.
   */
  lemma RoundDelivers(s: State) returns (part: seq<Sse.Event>)
    requires Inv(s) && s.pc.Waiting? && s.conn.notify && s.conn.buf != []
    ensures var t := Exec(s, [Receive, DrainOnce, Write(true), DrainOnce]);
      && Tells(part, s.conn.max, s.log) && Sse.EventsOf(t.out) == Sse.EventsOf(s.out) + part
      && t.pc == Waiting && t.conn == ConnState([], s.conn.max, 0, false) && t.notifying == s.notifying && t.log == []
  {
    hide Next, Delivery, Tells, Sse.EventsOf, BatchOf, Represents;
    DrainIsBatch(s.conn, s.log);
    DeliveryTells(s.conn.max, s.log);
    part := Delivery(Batch(s.conn.buf, s.conn.dropped));
    EventsOfAppend(s.out, Frames(part));
    EventsOfFrames(part);
    RoundSteps(s);
    var t1 := Next(s, Receive);
    var t2 := Next(t1, DrainOnce);
    var t3 := Next(t2, Write(true));
    hide Inv;
    assert Exec(s, [Receive, DrainOnce, Write(true), DrainOnce]) == Exec(t1, [DrainOnce, Write(true), DrainOnce]);
    assert Exec(t1, [DrainOnce, Write(true), DrainOnce]) == Exec(t2, [Write(true), DrainOnce]);
    assert Exec(t2, [Write(true), DrainOnce]) == Exec(t3, [DrainOnce]) == Exec(Next(t3, DrainOnce), []);
  }

  /** The four steps of an undisturbed round. */
  lemma RoundSteps(s: State)
    requires s.pc.Waiting? && s.conn.notify && s.conn.buf != []
    ensures var t := Next(Next(Next(Next(s, Receive), DrainOnce), Write(true)), DrainOnce);
      && t.out == s.out + Frames(Delivery(Batch(s.conn.buf, s.conn.dropped)))
      && t.pc == Waiting && t.conn == ConnState([], s.conn.max, 0, false) && t.notifying == s.notifying && t.log == []
  {
    hide Delivery, Frames;
  }

  /** A publisher's two steps queue the event and leave a notification, with nobody left on the way. */
  lemma PublisherNotifies(s: State, ev: Event)
    ensures var t := Exec(s, [PushLocked(ev), PushNotify]);
      t == s.(conn := Notified(Pushed(s.conn, ev)), log := s.log + [ev])
  {
    var pushed := Next(s, PushLocked(ev));
    assert Exec(s, [PushLocked(ev), PushNotify]) == Exec(pushed, [PushNotify]) == Exec(Next(pushed, PushNotify), []);
  }

  /** The loop ends exactly at a write or heartbeat that is not flushed, or at a disconnect while it waits, and for good. */
  lemma LoopEndsIff(s: State, a: Action)
    ensures Next(s, a).pc.Gone? <==>
      || s.pc.Gone? || (s.pc.Writing? && a == Write(false)) || (s.pc.Waiting? && (a == Heartbeat(false) || a == Disconnect))
    ensures s.pc.Gone? ==> Next(s, a).out == s.out
    ensures Sse.EventsOf(Next(s, a).out) == Sse.EventsOf(s.out) + if a == Write(true) then InHand(s) else []
  {
    assert Sse.EventsOf(s.out) + [] == Sse.EventsOf(s.out);
    EventsOfAppend(s.out, [Sse.Comment("hb")]);
    if a == Write(true) && s.pc.Writing? {
      EventsOfAppend(s.out, Frames(Delivery(s.pc.batch)));
      EventsOfFrames(Delivery(s.pc.batch));
    }
  }
}
