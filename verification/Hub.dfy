// services/telemetry/internal/hub/hub.go: bounded drop-oldest subscriber
// buffers and the fan-out over them.
module Hub {

  datatype Event = Event(name: string, data: string, tag: string)

  /** One subscriber's state: the buffer, how much it dropped since the last drain, and its notify slot. */
  datatype ConnState = ConnState(buf: seq<Event>, max: nat, dropped: nat, notify: bool)

  /** The locked part of push: make room by dropping the oldest, then append. */
  function Pushed(c: ConnState, ev: Event): ConnState
  {
    if |c.buf| >= c.max && |c.buf| > 0 then c.(buf := c.buf[1..] + [ev], dropped := c.dropped + 1)
    else c.(buf := c.buf + [ev])
  }

  function Notified(c: ConnState): ConnState
  {
    c.(notify := true)
  }

  function Drained(c: ConnState): ConnState
  {
    c.(buf := [], dropped := 0)
  }

  function Fresh(max: nat): ConnState
  {
    ConnState([], max, 0, false)
  }

  // ---- refinement of an unbounded log ----

  function Last<T>(s: seq<T>, n: nat): seq<T>
  {
    if |s| <= n then s else s[|s| - n..]
  }

  /** The buffer is the newest part of the log of events accepted since the last drain; the rest is counted. */
  ghost predicate Represents(c: ConnState, log: seq<Event>)
  {
    c.max >= 1 && c.buf == Last(log, c.max) && c.dropped == |log| - |c.buf|
  }

  lemma PushRefinesAppend(c: ConnState, log: seq<Event>, ev: Event)
    requires Represents(c, log)
    ensures Represents(Pushed(c, ev), log + [ev])
  {
  }

  datatype Op = Push(ev: Event) | Drain

  /** What one drain returned. */
  datatype Batch = Batch(events: seq<Event>, dropped: nat)

  /** Run pushes and drains against the bounded buffer. */
  function Run(c: ConnState, ops: seq<Op>): (ConnState, seq<Batch>)
  {
    if ops == [] then (c, [])
    else
      var r := Run(c, ops[..|ops| - 1]);
      match ops[|ops| - 1]
      case Push(ev) => (Notified(Pushed(r.0, ev)), r.1)
      case Drain => (Drained(r.0), r.1 + [Batch(r.0.buf, r.0.dropped)])
  }

  /** The reference: an unbounded log per drain, and each drain reports its newest max events. */
  function Reference(max: nat, ops: seq<Op>): (seq<Event>, seq<Batch>)
  {
    if ops == [] then ([], [])
    else
      var r := Reference(max, ops[..|ops| - 1]);
      match ops[|ops| - 1]
      case Push(ev) => (r.0 + [ev], r.1)
      case Drain => ([], r.1 + [BatchOf(max, r.0)])
  }

  function BatchOf(max: nat, log: seq<Event>): Batch
  {
    Batch(Last(log, max), if |log| <= max then 0 else |log| - max)
  }

  lemma FreshIsEmpty(max: nat)
    requires max >= 1
    ensures Represents(Fresh(max), [])
  {
  }

  lemma PushKeepsMax(c: ConnState, ev: Event)
    ensures Pushed(c, ev).max == c.max
  {
  }

  lemma NotifyKeeps(c: ConnState, log: seq<Event>)
    requires Represents(c, log)
    ensures Represents(Notified(c), log)
  {
  }

  /** A drain takes exactly the reference batch and leaves an empty log. */
  lemma DrainIsBatch(c: ConnState, log: seq<Event>)
    requires Represents(c, log)
    ensures Batch(c.buf, c.dropped) == BatchOf(c.max, log) && Represents(Drained(c), [])
  {
  }

  /** Drop-oldest refines the unbounded log: every drain of every run returns exactly the reference batch. */
  lemma {:induction false} DropOldestRefinesLog(max: nat, ops: seq<Op>)
    requires max >= 1
    ensures Run(Fresh(max), ops).1 == Reference(max, ops).1
    ensures Represents(Run(Fresh(max), ops).0, Reference(max, ops).0) && Run(Fresh(max), ops).0.max == max
  {
    hide Represents, Pushed, Last, BatchOf;
    if ops == [] {
      FreshIsEmpty(max);
    } else {
      DropOldestRefinesLog(max, ops[..|ops| - 1]);
      var c, log := Run(Fresh(max), ops[..|ops| - 1]).0, Reference(max, ops[..|ops| - 1]).0;
      match ops[|ops| - 1]
      case Push(ev) => PushRefinesAppend(c, log, ev); NotifyKeeps(Pushed(c, ev), log + [ev]); PushKeepsMax(c, ev);
      case Drain => DrainIsBatch(c, log);
    }
  }

  function Accepted(ops: seq<Op>): nat
  {
    if ops == [] then 0 else Accepted(ops[..|ops| - 1]) + if ops[|ops| - 1].Push? then 1 else 0
  }

  function Reported(batches: seq<Batch>): nat
  {
    if batches == [] then 0
    else
      var b := batches[|batches| - 1];
      Reported(batches[..|batches| - 1]) + |b.events| + b.dropped
  }

  /** No silent loss: accepted = delivered + reported dropped + pending dropped + still buffered. */
  lemma {:induction false} NothingLostSilently(max: nat, ops: seq<Op>)
    requires max >= 1
    ensures var r := Run(Fresh(max), ops);
      Accepted(ops) == Reported(r.1) + r.0.dropped + |r.0.buf|
  {
    if ops != [] {
      NothingLostSilently(max, ops[..|ops| - 1]);
      DropOldestRefinesLog(max, ops[..|ops| - 1]);
      var r := Run(Fresh(max), ops[..|ops| - 1]);
      if ops[|ops| - 1].Drain? {
        assert (r.1 + [Batch(r.0.buf, r.0.dropped)])[..|r.1|] == r.1;
      }
    }
  }

  // ---- the objects ----

  class Conn {
    var buf: seq<Event>
    const max: nat
    var dropped: nat
    var notify: bool
    const filter: Event -> bool

    constructor (max: nat, filter: Event -> bool)
      ensures View() == Fresh(max) && this.filter == filter && this.max == max
    {
      this.buf, this.max, this.dropped, this.notify, this.filter := [], max, 0, false, filter;
    }

    function View(): ConnState
      reads this
    {
      ConnState(buf, max, dropped, notify)
    }

    method Push(ev: Event)
      requires max >= 1
      modifies this`buf, this`dropped, this`notify
      ensures View() == if filter(ev) then Notified(Pushed(old(View()), ev)) else old(View())
      ensures filter(ev) ==> notify && buf == (if |old(buf)| < max then old(buf) else old(buf)[1..]) + [ev]
      ensures filter(ev) ==> dropped == old(dropped) + if |old(buf)| < max then 0 else 1
      ensures !filter(ev) ==> buf == old(buf) && dropped == old(dropped) && notify == old(notify)
    {
      if !filter(ev) {
        return;
      }
      if |buf| >= max {
        buf := buf[1..];
        dropped := dropped + 1;
      }
      buf := buf + [ev];
      notify := true;
    }

    method DrainAll() returns (evs: seq<Event>, d: nat)
      modifies this`buf, this`dropped
      ensures evs == old(buf) && d == old(dropped) && buf == [] && dropped == 0
      ensures View() == Drained(old(View()))
    {
      evs, d := buf, dropped;
      buf, dropped := [], 0;
    }
  }

  /** The state of a subscriber after the hub pushes ev to it. */
  function Offered(c: ConnState, filter: Event -> bool, ev: Event): ConnState
  {
    if filter(ev) then Notified(Pushed(c, ev)) else c
  }

  /** The state of a subscriber after a whole list of events is pushed to it. */
  function OfferedAll(c: ConnState, filter: Event -> bool, evs: seq<Event>): ConnState
  {
    if evs == [] then c else Offered(OfferedAll(c, filter, evs[..|evs| - 1]), filter, evs[|evs| - 1])
  }

  class Broadcaster {
    var conns: set<Conn>
    var sticky: map<string, Event>
    const bufSize: nat

    constructor (bufSize: int)
      ensures Valid() && conns == {} && sticky == map[]
      ensures this.bufSize == if bufSize < 1 then 1 else bufSize
    {
      this.conns, this.sticky := {}, map[];
      this.bufSize := if bufSize < 1 then 1 else bufSize;
    }

    ghost predicate Valid()
      reads this, conns
    {
      && bufSize >= 1
      && (forall c :: c in conns ==> c.max == bufSize)
      && (forall name :: name in sticky ==> sticky[name].name == name)
    }

    /** Every subscriber is offered ev; nothing else changes. */
    method Publish(ev: Event)
      requires Valid()
      modifies conns
      ensures Valid()
      ensures forall c :: c in conns ==> c.View() == Offered(old(c.View()), c.filter, ev)
    {
      var todo := conns;
      while todo != {}
        invariant todo <= conns
        invariant forall c :: c in todo ==> c.View() == old(c.View())
        invariant forall c :: c in conns - todo ==> c.View() == Offered(old(c.View()), c.filter, ev)
        decreases |todo|
      {
        var c :| c in todo;
        c.Push(ev);
        todo := todo - {c};
      }
    }

    method PublishSticky(ev: Event)
      requires Valid()
      modifies this`sticky, conns
      ensures Valid() && sticky == old(sticky)[ev.name := ev]
      ensures forall c :: c in conns ==> c.View() == Offered(old(c.View()), c.filter, ev)
    {
      sticky := sticky[ev.name := ev];
      Publish(ev);
    }

    /** A new subscriber has been offered the latest sticky event of every name, in some order, before anything else. */
    method Subscribe(filter: Event -> bool) returns (c: Conn, ghost names: seq<string>)
      requires Valid()
      modifies this`conns
      ensures Valid() && fresh(c) && conns == old(conns) + {c} && c.filter == filter && c.max == bufSize
      ensures forall i, j :: 0 <= i < j < |names| ==> names[i] != names[j]
      ensures forall name :: name in names <==> name in sticky
      ensures c.View() == OfferedAll(Fresh(bufSize), filter, Named(sticky, names))
    {
      NothingOffered(Fresh(bufSize), filter, sticky);
      hide Pushed, Notified, OfferedAll, Named;
      c := new Conn(bufSize, filter);
      names := [];
      var todo := sticky.Keys;
      while todo != {}
        invariant c.max == bufSize && c.filter == filter && fresh(c) && conns == old(conns)
        invariant todo <= sticky.Keys
        invariant forall name :: name in names <==> name in sticky.Keys - todo
        invariant forall i, j :: 0 <= i < j < |names| ==> names[i] != names[j]
        invariant c.View() == OfferedAll(Fresh(bufSize), filter, Named(sticky, names))
        decreases |todo|
      {
        var name :| name in todo;
        assert name !in names;
        c.Push(sticky[name]);
        todo := todo - {name};
        OfferedOneMore(Fresh(bufSize), filter, sticky, names, name);
        names := names + [name];
      }
      conns := conns + {c};
    }

    method Unsubscribe(c: Conn)
      requires Valid()
      modifies this`conns
      ensures Valid() && conns == old(conns) - {c}
    {
      conns := conns - {c};
    }
  }

  lemma NothingOffered(c: ConnState, filter: Event -> bool, sticky: map<string, Event>)
    ensures OfferedAll(c, filter, Named(sticky, [])) == c
  {
  }

  lemma OfferedOneMore(c: ConnState, filter: Event -> bool, sticky: map<string, Event>, names: seq<string>, name: string)
    requires name in sticky && forall n :: n in names ==> n in sticky
    ensures OfferedAll(c, filter, Named(sticky, names + [name]))
         == Offered(OfferedAll(c, filter, Named(sticky, names)), filter, sticky[name])
  {
    var evs := Named(sticky, names + [name]);
    assert evs[..|evs| - 1] == Named(sticky, names);
  }

  ghost function Named(sticky: map<string, Event>, names: seq<string>): seq<Event>
    requires forall name :: name in names ==> name in sticky
  {
    seq(|names|, i requires 0 <= i < |names| => sticky[names[i]])
  }
}
