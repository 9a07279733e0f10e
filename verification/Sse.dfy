// The text/event-stream wire: the frame printer of hub.go and the incremental
// reader of sse.ts (sections 9.2.5 and 9.2.6 of the WHATWG HTML Standard).
module Sse {
  import opened Basics

  /** One event as the reader hands it over. */
  datatype Event = Event(name: string, data: string)

  const LF := "\n\n"
  const CRLF := "\r\n\r\n"

  // ---- string search ----

  predicate At(s: string, p: string, i: int)
  {
    0 <= i && i + |p| <= |s| && s[i..i + |p|] == p
  }

  /** JavaScript's indexOf: the first occurrence of p at or after `from`, or -1. */
  function IndexOf(s: string, p: string, from: nat): (i: int)
    ensures i >= 0 ==> At(s, p, i) && from <= i && forall j :: from <= j < i ==> !At(s, p, j)
    ensures i < 0 ==> i == -1 && forall j :: from <= j ==> !At(s, p, j)
    decreases |s| - from
  {
    if from + |p| > |s| then -1
    else if s[from..from + |p|] == p then from
    else IndexOf(s, p, from + 1)
  }

  /** indexOf for a single character. */
  function IndexOfChar(s: string, c: char, from: nat): (i: int)
    ensures i >= 0 ==> from <= i < |s| && s[i] == c && forall j :: from <= j < i ==> s[j] != c
    ensures i < 0 ==> i == -1 && forall j :: from <= j < |s| ==> s[j] != c
    decreases |s| - from
  {
    if from >= |s| then -1 else if s[from] == c then from else IndexOfChar(s, c, from + 1)
  }

  lemma AtSeparators(s: string, i: int)
    ensures At(s, LF, i) <==> 0 <= i && i + 2 <= |s| && s[i] == '\n' && s[i + 1] == '\n'
    ensures At(s, CRLF, i) <==>
      0 <= i && i + 4 <= |s| && s[i] == '\r' && s[i + 1] == '\n' && s[i + 2] == '\r' && s[i + 3] == '\n'
  {
    if 0 <= i && i + 2 <= |s| {
      var t := s[i..i + 2];
      assert t[0] == s[i] && t[1] == s[i + 1];
    }
    if 0 <= i && i + 4 <= |s| {
      var t := s[i..i + 4];
      assert t[0] == s[i] && t[1] == s[i + 1] && t[2] == s[i + 2] && t[3] == s[i + 3];
    }
  }

  /** Where the first complete record of the buffer ends, or -1. */
  function RecordEnd(buffer: string): int
  {
    var lf := IndexOf(buffer, LF, 0);
    var crlf := IndexOf(buffer, CRLF, 0);
    if lf < 0 then crlf else if crlf < 0 then lf else if lf < crlf then lf else crlf
  }

  predicate EndsAt(s: string, i: int)
  {
    At(s, LF, i) || At(s, CRLF, i)
  }

  lemma RecordEndIsFirst(s: string)
    ensures RecordEnd(s) >= 0 ==> EndsAt(s, RecordEnd(s)) && forall j :: j < RecordEnd(s) ==> !EndsAt(s, j)
    ensures RecordEnd(s) < 0 ==> forall j :: !EndsAt(s, j)
  {
  }

  /** Length of one leading `\r?\n`, or 0. */
  function OneBreak(s: string): (n: nat)
    ensures n <= |s|
  {
    if |s| >= 1 && s[0] == '\n' then 1
    else if |s| >= 2 && s[0] == '\r' && s[1] == '\n' then 2
    else 0
  }

  /** replace(/^(\r?\n){1,2}/, "") */
  function TrimBreaks(s: string): string
  {
    var rest := s[OneBreak(s)..];
    rest[OneBreak(rest)..]
  }

  // ---- one record ----

  function Split(raw: string): (lines: seq<string>)
    ensures |lines| >= 1
    decreases |raw|
  {
    var i := IndexOfChar(raw, '\n', 0);
    if i < 0 then [raw] else [raw[..i]] + Split(raw[i + 1..])
  }

  function Join(lines: seq<string>): string
  {
    if |lines| == 0 then "" else if |lines| == 1 then lines[0] else lines[0] + "\n" + Join(lines[1..])
  }

  /** The parser's two locals after some lines. */
  datatype Partial = Partial(event: string, dataLines: seq<string>)

  function StripCR(line: string): string
  {
    if |line| > 0 && line[|line| - 1] == '\r' then line[..|line| - 1] else line
  }

  function OnLine(p: Partial, lineRaw: string): Partial
  {
    var line := StripCR(lineRaw);
    if line == "" || line[0] == ':' then p
    else
      var colon := IndexOfChar(line, ':', 0);
      var field := if colon < 0 then line else line[..colon];
      var val0 := if colon < 0 then "" else line[colon + 1..];
      var val := if |val0| > 0 && val0[0] == ' ' then val0[1..] else val0;
      if field == "event" then p.(event := val)
      else if field == "data" then p.(dataLines := p.dataLines + [val])
      else p
  }

  function OnLines(p: Partial, lines: seq<string>): Partial
  {
    if lines == [] then p else OnLine(OnLines(p, lines[..|lines| - 1]), lines[|lines| - 1])
  }

  const NO_LINES := Partial("message", [])

  function Parsed(raw: string): Option<Event>
  {
    var p := OnLines(NO_LINES, Split(raw));
    if p.dataLines == [] then None else Some(Event(p.event, Join(p.dataLines)))
  }

  /** parseRecord: one pass over the lines updating the event name and the data lines. */
  method ParseRecord(raw: string) returns (ev: Option<Event>)
    ensures ev == Parsed(raw)
  {
    var p := NO_LINES;
    var lines := Split(raw);
    for i := 0 to |lines|
      invariant p == OnLines(NO_LINES, lines[..i])
    {
      assert lines[..i + 1][..i] == lines[..i];
      p := OnLine(p, lines[i]);
    }
    assert lines[..|lines|] == lines;
    if p.dataLines == [] {
      return None;
    }
    return Some(Event(p.event, Join(p.dataLines)));
  }

  // ---- the reader ----

  function Delivered(ev: Option<Event>): seq<Event>
  {
    if ev.None? then [] else [ev.value]
  }

  lemma TrimAtEnd(s: string, i: int)
    requires EndsAt(s, i)
    ensures At(s, LF, i) ==> TrimBreaks(s[i..]) == s[i + 2..]
    ensures At(s, CRLF, i) ==> TrimBreaks(s[i..]) == s[i + 4..]
    ensures |TrimBreaks(s[i..])| < |s|
  {
    AtSeparators(s, i);
    var t := s[i..];
    if At(s, LF, i) {
      assert t[1..][1..] == s[i + 2..];
    } else {
      assert t[2..][2..] == s[i + 4..];
    }
  }

  /** Every complete record of the buffer, and what is left over: the inner loop of readStream. */
  function Drain(buffer: string): (seq<Event>, string)
    decreases |buffer|
  {
    var sep := RecordEnd(buffer);
    if sep < 0 then ([], buffer)
    else
      RecordEndIsFirst(buffer);
      TrimAtEnd(buffer, sep);
      var rest := Drain(TrimBreaks(buffer[sep..]));
      (Delivered(Parsed(buffer[..sep])) + rest.0, rest.1)
  }

  function Flatten(chunks: seq<string>): string
  {
    if chunks == [] then "" else Flatten(chunks[..|chunks| - 1]) + chunks[|chunks| - 1]
  }

  /** What the first record of a delivers, and what the buffer is after it. */
  lemma DrainStep(a: string)
    requires RecordEnd(a) >= 0
    ensures EndsAt(a, RecordEnd(a))
    ensures |TrimBreaks(a[RecordEnd(a)..])| < |a|
    ensures Drain(a).0 == Delivered(Parsed(a[..RecordEnd(a)])) + Drain(TrimBreaks(a[RecordEnd(a)..])).0
    ensures Drain(a).1 == Drain(TrimBreaks(a[RecordEnd(a)..])).1
  {
    hide Parsed, Delivered, TrimBreaks;
    RecordEndIsFirst(a);
    TrimAtEnd(a, RecordEnd(a));
  }

  /** The inner loop of readStream: deliver every complete record, keep the rest. */
  method DeliverRecords(buffer0: string) returns (events: seq<Event>, buffer: string)
    ensures events == Drain(buffer0).0 && buffer == Drain(buffer0).1
  {
    hide Parsed, TrimBreaks, RecordEnd;
    events, buffer := [], buffer0;
    var sep := RecordEnd(buffer);
    while sep >= 0
      invariant sep == RecordEnd(buffer)
      invariant Drain(buffer0).0 == events + Drain(buffer).0
      invariant Drain(buffer0).1 == Drain(buffer).1
      decreases |buffer|
    {
      DrainStep(buffer);
      var parsed := ParseRecord(buffer[..sep]);
      buffer := TrimBreaks(buffer[sep..]);
      Regroup(events, Delivered(parsed), Drain(buffer).0);
      if parsed.Some? {
        events := events + [parsed.value];
      }
      sep := RecordEnd(buffer);
    }
    assert Drain(buffer) == ([], buffer);
  }

  /**
   * readStream: append each read to the buffer and deliver the records it
   * completes. Whatever the pieces, what is delivered is what one read of the
   * whole stream would deliver.
   */
  method ReadStream(pieces: seq<string>) returns (events: seq<Event>, buffer: string)
    ensures events == Drain(Flatten(pieces)).0 && buffer == Drain(Flatten(pieces)).1
  {
    events, buffer := [], "";
    for i := 0 to |pieces|
      invariant events == Drain(Flatten(pieces[..i])).0 && buffer == Drain(Flatten(pieces[..i])).1
    {
      assert pieces[..i + 1][..i] == pieces[..i];
      DrainSplit(Flatten(pieces[..i]), pieces[i]);
      var more, rest := DeliverRecords(buffer + pieces[i]);
      events, buffer := events + more, rest;
    }
    assert pieces[..|pieces|] == pieces;
  }

  /** A record end found in a prefix is still the first record end once more text has arrived. */
  lemma RecordEndStable(a: string, b: string)
    requires RecordEnd(a) >= 0
    ensures RecordEnd(a + b) == RecordEnd(a)
  {
    var s, sep := a + b, RecordEnd(a);
    RecordEndIsFirst(a);
    RecordEndIsFirst(s);
    EndsAtPrefix(a, b, sep);
    forall j | j < sep ensures !EndsAt(s, j) {
      NoEarlierEnd(a, b, sep, j);
    }
  }

  lemma EndsAtPrefix(a: string, b: string, i: int)
    requires EndsAt(a, i)
    ensures EndsAt(a + b, i)
    ensures At(a, LF, i) ==> At(a + b, LF, i)
    ensures At(a, CRLF, i) ==> At(a + b, CRLF, i)
  {
    AtSeparators(a, i);
    AtSeparators(a + b, i);
  }

  lemma NoEarlierEnd(a: string, b: string, sep: int, j: int)
    requires EndsAt(a, sep) && j < sep && !EndsAt(a, j)
    ensures !EndsAt(a + b, j)
  {
    AtSeparators(a, sep);
    AtSeparators(a, j);
    AtSeparators(a + b, j);
  }

  lemma FirstRecordStable(a: string, b: string)
    requires RecordEnd(a) >= 0
    ensures RecordEnd(a + b) == RecordEnd(a)
    ensures (a + b)[..RecordEnd(a)] == a[..RecordEnd(a)]
    ensures TrimBreaks((a + b)[RecordEnd(a)..]) == TrimBreaks(a[RecordEnd(a)..]) + b
  {
    hide RecordEnd, TrimBreaks;
    var sep := RecordEnd(a);
    RecordEndStable(a, b);
    RecordEndIsFirst(a);
    EndsAtPrefix(a, b, sep);
    TrimAtEnd(a, sep);
    TrimAtEnd(a + b, sep);
    if At(a, LF, sep) {
      assert (a + b)[sep + 2..] == a[sep + 2..] + b;
    } else {
      assert (a + b)[sep + 4..] == a[sep + 4..] + b;
    }
  }

  /** Draining a + b is draining a, then draining its leftover with b appended. */
  lemma {:induction false} DrainSplit(a: string, b: string)
    ensures Drain(a + b).0 == Drain(a).0 + Drain(Drain(a).1 + b).0
    ensures Drain(a + b).1 == Drain(Drain(a).1 + b).1
    decreases |a|
  {
    hide Parsed, Delivered, TrimBreaks, RecordEnd;
    if RecordEnd(a) >= 0 {
      DrainStep(a);
      FirstRecordStable(a, b);
      DrainStep(a + b);
      var rest := TrimBreaks(a[RecordEnd(a)..]);
      DrainSplit(rest, b);
      Regroup(Delivered(Parsed(a[..RecordEnd(a)])), Drain(rest).0, Drain(Drain(rest).1 + b).0);
    } else {
      assert Drain(a) == ([], a);
    }
  }

  lemma Regroup(x: seq<Event>, y: seq<Event>, z: seq<Event>)
    ensures x + (y + z) == x + y + z
  {
  }

  /** Read-splitting independence, for arbitrary text: only the concatenation of the pieces matters. */
  lemma SplittingIndependence(pieces: seq<string>, others: seq<string>)
    requires Flatten(pieces) == Flatten(others)
    ensures Fed("", pieces) == Fed("", others)
  {
    assert RecordEnd("") < 0;
    hide Fed, Drain, RecordEnd;
    FedIsDrain("", pieces);
    FedIsDrain("", others);
    assert "" + Flatten(pieces) == Flatten(pieces) && "" + Flatten(others) == Flatten(others);
  }

  /** The reader's fold over its pieces, starting from a buffer. */
  function Fed(buffer: string, pieces: seq<string>): (seq<Event>, string)
  {
    if pieces == [] then ([], buffer)
    else
      var before := Fed(buffer, pieces[..|pieces| - 1]);
      var now := Drain(before.1 + pieces[|pieces| - 1]);
      (before.0 + now.0, now.1)
  }

  lemma {:induction false} FedIsDrain(buffer: string, pieces: seq<string>)
    requires RecordEnd(buffer) < 0
    ensures Fed(buffer, pieces) == Drain(buffer + Flatten(pieces))
  {
    hide Parsed, Delivered, TrimBreaks, RecordEnd;
    if pieces == [] {
      assert buffer + "" == buffer;
    } else {
      var front, last := pieces[..|pieces| - 1], pieces[|pieces| - 1];
      FedIsDrain(buffer, front);
      DrainSplit(buffer + Flatten(front), last);
      assert buffer + Flatten(pieces) == buffer + Flatten(front) + last;
    }
  }

  // ---- the printer ----

  /** What the serving loop writes: comments (": connected", ": hb") and events. */
  datatype Frame = Comment(text: string) | Send(ev: Event)

  function Body(f: Frame): string
  {
    match f
    case Comment(text) => ": " + text
    case Send(ev) => "event: " + ev.name + "\ndata: " + ev.data
  }

  function Print(f: Frame): string
  {
    Body(f) + LF
  }

  /** The printed text of a frame. */
  lemma PrintedText(name: string, data: string, text: string)
    ensures Print(Send(Event(name, data))) == "event: " + name + "\n" + "data: " + data + "\n\n"
    ensures Print(Comment(text)) == ": " + text + "\n\n"
  {
    assert Print(Send(Event(name, data))) == "event: " + name + "\ndata: " + data + LF;
  }

  function PrintAll(frames: seq<Frame>): string
  {
    if frames == [] then "" else Print(frames[0]) + PrintAll(frames[1..])
  }

  function EventsOf(frames: seq<Frame>): seq<Event>
  {
    if frames == [] then []
    else (match frames[0] case Comment(_) => [] case Send(ev) => [ev]) + EventsOf(frames[1..])
  }

  /** Text that fits on one line: no line feed, and no carriage return where the line would end. */
  predicate OneLine(s: string)
  {
    (forall i :: 0 <= i < |s| ==> s[i] != '\n') && (|s| > 0 ==> s[|s| - 1] != '\r')
  }

  predicate Printable(f: Frame)
  {
    match f
    case Comment(text) => OneLine(text)
    case Send(ev) => OneLine(ev.name) && OneLine(ev.data)
  }

  /** Inside a printed body, every line feed stands between two other characters, neither CR before nor LF after. */
  lemma BodyBreaks(f: Frame)
    requires Printable(f)
    ensures |Body(f)| > 0 && Body(f)[|Body(f)| - 1] != '\n' && Body(f)[|Body(f)| - 1] != '\r'
    ensures forall i :: 0 <= i < |Body(f)| && Body(f)[i] == '\n' ==>
              i + 1 < |Body(f)| && Body(f)[i + 1] != '\n' && i > 0 && Body(f)[i - 1] != '\r'
  {
    match f
    case Comment(text) =>
    case Send(ev) =>
      var head, tail := "event: " + ev.name, "data: " + ev.data;
      assert Body(f) == head + "\n" + tail;
      assert head[|head| - 1] != '\r' by {
        if ev.name == "" {
          assert head == "event: ";
        } else {
          assert head[|head| - 1] == ev.name[|ev.name| - 1];
        }
      }
      assert forall i :: 0 <= i < |head| ==> head[i] != '\n';
      assert forall i :: 0 <= i < |tail| ==> tail[i] != '\n';
  }

  /** The first record of a printed frame followed by anything is exactly its body. */
  lemma FrameEnds(f: Frame, rest: string)
    requires Printable(f)
    ensures RecordEnd(Print(f) + rest) == |Body(f)|
    ensures (Print(f) + rest)[..|Body(f)|] == Body(f)
    ensures TrimBreaks((Print(f) + rest)[|Body(f)|..]) == rest
  {
    var s, n := Print(f) + rest, |Body(f)|;
    assert s == Body(f) + LF + rest;
    assert s[n..n + 2] == LF;
    assert EndsAt(s, n);
    BodyBreaks(f);
    forall j | j < n ensures !EndsAt(s, j) {
      AtSeparators(s, j);
    }
    RecordEndIsFirst(s);
    TrimAtEnd(s, n);
    assert s[n + 2..] == rest;
  }

  lemma SplitOneLine(s: string)
    requires OneLine(s)
    ensures Split(s) == [s]
  {
  }

  lemma SplitTwoLines(a: string, b: string)
    requires OneLine(a) && OneLine(b)
    ensures Split(a + "\n" + b) == [a, b]
  {
    var s := a + "\n" + b;
    assert s[|a|] == '\n';
    var i := IndexOfChar(s, '\n', 0);
    assert forall k :: 0 <= k < |a| ==> s[k] == a[k];
    assert i == |a|;
    assert s[..|a|] == a && s[|a| + 1..] == b;
    SplitOneLine(b);
  }

  lemma FieldKeepsEnd(field: string, val: string)
    requires OneLine(val)
    ensures StripCR(field + ": " + val) == field + ": " + val
  {
    var line := field + ": " + val;
    if val != "" {
      assert line[|line| - 1] == val[|val| - 1];
    } else {
      assert line == field + ": ";
    }
  }

  lemma FieldColon(field: string, val: string)
    requires forall k :: 0 <= k < |field| ==> field[k] != ':'
    ensures IndexOfChar(field + ": " + val, ':', 0) == |field|
  {
    var line := field + ": " + val;
    assert line[|field|] == ':';
    assert forall k :: 0 <= k < |field| ==> line[k] == field[k];
  }

  lemma FieldParts(field: string, val: string)
    ensures (field + ": " + val)[..|field|] == field
    ensures (field + ": " + val)[|field| + 1..] == " " + val
  {
    assert field + ": " + val == field + ([':'] + (" " + val));
  }

  lemma FieldLine(p: Partial, field: string, val: string)
    requires (field == "event" || field == "data") && OneLine(val)
    ensures OnLine(p, field + ": " + val)
         == if field == "event" then p.(event := val) else p.(dataLines := p.dataLines + [val])
  {
    FieldKeepsEnd(field, val);
    FieldColon(field, val);
    FieldParts(field, val);
    hide IndexOfChar, StripCR, OneLine;
    var line := field + ": " + val;
    assert line[0] == field[0];
    assert (" " + val)[0] == ' ' && (" " + val)[1..] == val;
  }

  lemma ParseComment(text: string)
    requires OneLine(text)
    ensures Parsed(": " + text) == None
  {
    var line := ": " + text;
    SplitOneLine(line);
    assert [line][..0] == [];
    assert OnLines(NO_LINES, [line]) == OnLine(OnLines(NO_LINES, []), line);
    assert StripCR(line)[0] == ':';
  }

  lemma ParseSend(ev: Event)
    requires OneLine(ev.name) && OneLine(ev.data)
    ensures Parsed(Body(Send(ev))) == Some(ev)
  {
    var a, b := "event" + ": " + ev.name, "data" + ": " + ev.data;
    assert Body(Send(ev)) == a + "\n" + b;
    HeadOneLine("event: ", ev.name);
    HeadOneLine("data: ", ev.data);
    assert a == "event: " + ev.name && b == "data: " + ev.data;
    SplitTwoLines(a, b);
    FieldLine(NO_LINES, "event", ev.name);
    FieldLine(NO_LINES.(event := ev.name), "data", ev.data);
    OnTwoLines(NO_LINES, a, b);
  }

  lemma SplitFirst(a: string, rest: string)
    requires OneLine(a)
    ensures Split(a + "\n" + rest) == [a] + Split(rest)
  {
    var s := a + "\n" + rest;
    assert s[|a|] == '\n';
    assert forall k :: 0 <= k < |a| ==> s[k] == a[k];
    assert IndexOfChar(s, '\n', 0) == |a|;
    assert s[..|a|] == a && s[|a| + 1..] == rest;
  }

  function DataLines(texts: seq<string>): seq<string>
  {
    if texts == [] then [] else ["data: " + texts[0]] + DataLines(texts[1..])
  }

  lemma {:induction false} SplitDataLines(texts: seq<string>)
    requires texts != [] && forall t :: t in texts ==> OneLine(t)
    ensures Split(Join(DataLines(texts))) == DataLines(texts)
  {
    var line := "data: " + texts[0];
    HeadOneLine("data: ", texts[0]);
    if |texts| == 1 {
      assert DataLines(texts) == [line] by { assert texts[1..] == []; }
      SplitOneLine(line);
    } else {
      SplitDataLines(texts[1..]);
      assert DataLines(texts)[1..] == DataLines(texts[1..]) && |DataLines(texts[1..])| > 0;
      assert Join(DataLines(texts)) == line + "\n" + Join(DataLines(texts[1..]));
      SplitFirst(line, Join(DataLines(texts[1..])));
    }
  }

  lemma {:induction false} FoldDataLines(p: Partial, texts: seq<string>)
    requires forall t :: t in texts ==> OneLine(t)
    ensures OnLines(p, DataLines(texts)) == p.(dataLines := p.dataLines + texts)
    decreases |texts|
  {
    hide OnLines, DataLines, OneLine;
    if texts == [] {
      NoDataLines(p);
    } else {
      var front, last := texts[..|texts| - 1], texts[|texts| - 1];
      assert texts == front + [last];
      FoldDataLines(p, front);
      DataLinesAppend(front, last);
      OneMoreDataLine(p, DataLines(front), last);
      assert p.dataLines + front + [last] == p.dataLines + texts;
    }
  }

  lemma NoDataLines(p: Partial)
    ensures OnLines(p, DataLines([])) == p && p.(dataLines := p.dataLines + []) == p
  {
  }

  lemma OneMoreDataLine(p: Partial, lines: seq<string>, text: string)
    requires OneLine(text)
    ensures OnLines(p, lines + ["data: " + text])
         == OnLines(p, lines).(dataLines := OnLines(p, lines).dataLines + [text])
  {
    hide OnLine, OneLine;
    assert (lines + ["data: " + text])[..|lines|] == lines;
    assert "data" + ": " + text == "data: " + text;
    FieldLine(OnLines(p, lines), "data", text);
  }

  lemma {:induction false} DataLinesAppend(front: seq<string>, last: string)
    ensures DataLines(front + [last]) == DataLines(front) + ["data: " + last]
  {
    if front == [] {
      assert front + [last] == [last] && [last][1..] == [];
    } else {
      assert (front + [last])[1..] == front[1..] + [last];
      DataLinesAppend(front[1..], last);
    }
  }

  /** Several data lines without a name are one "message" event whose data is the lines joined by line feeds. */
  lemma ParsedDataLines(texts: seq<string>)
    requires texts != [] && forall t :: t in texts ==> OneLine(t)
    ensures Parsed(Join(DataLines(texts))) == Some(Event("message", Join(texts)))
  {
    SplitDataLines(texts);
    FoldDataLines(NO_LINES, texts);
    assert [] + texts == texts;
  }

  lemma OnTwoLines(p: Partial, a: string, b: string)
    ensures OnLines(p, [a, b]) == OnLine(OnLine(p, a), b)
  {
    assert [a, b][..1] == [a] && [a][..0] == [];
    assert OnLines(p, [a]) == OnLine(OnLines(p, []), a);
  }

  /** Parsing a printed body gives back the event, or nothing for a comment. */
  lemma ParsePrinted(f: Frame)
    requires Printable(f)
    ensures Parsed(Body(f)) == (match f case Comment(_) => None case Send(ev) => Some(ev))
  {
    match f
    case Comment(text) => ParseComment(text);
    case Send(ev) => ParseSend(ev);
  }

  lemma HeadOneLine(head: string, s: string)
    requires OneLine(head) && |head| > 0 && OneLine(s)
    ensures OneLine(head + s)
  {
  }

  /** Printer/parser round trip: the printed frames drain to exactly their events, leaving nothing behind. */
  lemma {:induction false} RoundTrip(frames: seq<Frame>)
    requires forall f :: f in frames ==> Printable(f)
    ensures Drain(PrintAll(frames)) == (EventsOf(frames), "")
  {
    if frames != [] {
      RoundTrip(frames[1..]);
      var rest := PrintAll(frames[1..]);
      FrameEnds(frames[0], rest);
      ParsePrinted(frames[0]);
    }
  }

  /** ... however the character stream is cut into pieces. */
  lemma RoundTripAnySplit(frames: seq<Frame>, pieces: seq<string>)
    requires forall f :: f in frames ==> Printable(f)
    requires Flatten(pieces) == PrintAll(frames)
    ensures Fed("", pieces) == (EventsOf(frames), "")
  {
    FedIsDrain("", pieces);
    assert "" + Flatten(pieces) == PrintAll(frames);
    RoundTrip(frames);
  }
}
