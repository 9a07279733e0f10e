// The ffmpeg progress stream and what is derived from it
// (engine/ffmpegadapter/progress.go). A line is given by its key and by what
// ParseInt or ParseFloat made of its value.
module Progress {
  import opened Basics

  datatype Line =
    | NoEquals
    | Frame(n: Option<int>)
    | Fps(f: Option<real>)
    | OutTimeUs(us: Option<int>)
    | OutTimeMs(ms: Option<int>)
    | Speed(x: Option<real>)
    | OtherKey
    | Progress(end: bool)

  datatype Sample = Sample(frame: int, fps: real, outTime: real, speedX: real, end: bool)

  const EMPTY := Sample(0, 0.0, 0.0, 0.0, false)

  /** The parser's fields. */
  datatype Parser = Parser(cur: Sample, haveData: bool, haveUs: bool)

  const FRESH := Parser(EMPTY, false, false)

  /** Both out_time_us and out_time_ms are microseconds. */
  function Micros(n: int): (t: real)
    ensures t * 1_000_000.0 == n as real
  {
    n as real / 1_000_000.0
  }

  /** A non-negative out_time that parsed. */
  predicate Time(t: Option<int>) { t.Some? && t.value >= 0 }

  /** Feed: the next state, and the sample if the line closes a block worth reporting. */
  function Feed(p: Parser, line: Line): (Parser, Option<Sample>)
  {
    match line
    case Frame(n) => (if n.Some? then p.(cur := p.cur.(frame := n.value), haveData := true) else p, None)
    case Fps(f) => (if f.Some? then p.(cur := p.cur.(fps := f.value), haveData := true) else p, None)
    case OutTimeUs(us) =>
      (if Time(us) then p.(cur := p.cur.(outTime := Micros(us.value)), haveData := true, haveUs := true) else p, None)
    case OutTimeMs(ms) =>
      (if !p.haveUs && Time(ms) then p.(cur := p.cur.(outTime := Micros(ms.value)), haveData := true) else p, None)
    case Speed(x) => (if x.Some? then p.(cur := p.cur.(speedX := x.value), haveData := true) else p, None)
    case Progress(end) => (FRESH, if p.haveData || end then Some(p.cur.(end := end)) else None)
    case NoEquals => (p, None)
    case OtherKey => (p, None)
  }

  // ---- the reference: a sample is a function of its own block ----

  /** The last value a selector finds in the lines. */
  function Last<T>(lines: seq<Line>, pick: Line -> Option<T>): Option<T>
  {
    if lines == [] then None
    else if pick(lines[|lines| - 1]).Some? then pick(lines[|lines| - 1])
    else Last(lines[..|lines| - 1], pick)
  }

  function OrZero(v: Option<real>): real { if v.Some? then v.value else 0.0 }

  const PICK_FRAME := (l: Line) => if l.Frame? then l.n else None
  const PICK_FPS := (l: Line) => if l.Fps? then l.f else None
  const PICK_SPEED := (l: Line) => if l.Speed? then l.x else None
  const PICK_US := (l: Line) => if l.OutTimeUs? && Time(l.us) then l.us else None
  const PICK_MS := (l: Line) => if l.OutTimeMs? && Time(l.ms) then l.ms else None

  /**
   * The last valid out_time_us if the block has one, whatever out_time_ms says and wherever it stands; else the last
   * out_time_ms.
   */
  function BlockTime(lines: seq<Line>): real
  {
    var us, ms := Last(lines, PICK_US), Last(lines, PICK_MS);
    if us.Some? then Micros(us.value) else if ms.Some? then Micros(ms.value) else 0.0
  }

  function BlockFrame(lines: seq<Line>): int
  {
    var n := Last(lines, PICK_FRAME);
    if n.Some? then n.value else 0
  }

  predicate HasData(lines: seq<Line>)
  {
    || Last(lines, PICK_FRAME).Some? || Last(lines, PICK_FPS).Some? || Last(lines, PICK_SPEED).Some?
    || Last(lines, PICK_US).Some? || Last(lines, PICK_MS).Some?
  }

  /** The sample of one block: the lines before its progress line, and that line's value. */
  function BlockSample(lines: seq<Line>, end: bool): Sample
  {
    Sample(BlockFrame(lines), OrZero(Last(lines, PICK_FPS)), BlockTime(lines), OrZero(Last(lines, PICK_SPEED)), end)
  }

  /** Length of the block at the front of the lines: the index of the first progress line, or all of them. */
  function BlockLength(lines: seq<Line>): (n: nat)
    ensures n <= |lines| && (n < |lines| ==> lines[n].Progress?)
    ensures forall i :: 0 <= i < n ==> !lines[i].Progress?
  {
    if lines == [] || lines[0].Progress? then 0 else 1 + BlockLength(lines[1..])
  }

  function Reported(lines: seq<Line>, end: bool): seq<Sample>
  {
    if HasData(lines) || end then [BlockSample(lines, end)] else []
  }

  /** The samples of a stream, block by block. */
  function SamplesOf(lines: seq<Line>): seq<Sample>
    decreases |lines|
  {
    var n := BlockLength(lines);
    if n == |lines| then []
    else Reported(lines[..n], lines[n].end) + SamplesOf(lines[n + 1..])
  }

  /** The parser after lines of one block. */
  function Fed(lines: seq<Line>): Parser
  {
    if lines == [] then FRESH else Feed(Fed(lines[..|lines| - 1]), lines[|lines| - 1]).0
  }

  /** Inside a block the parser holds exactly the block's own sample so far. */
  lemma {:induction false} FedIsBlock(lines: seq<Line>)
    requires forall i :: 0 <= i < |lines| ==> !lines[i].Progress?
    ensures Fed(lines) == Parser(BlockSample(lines, false), HasData(lines), Last(lines, PICK_US).Some?)
  {
    if lines != [] {
      FedIsBlock(lines[..|lines| - 1]);
    }
  }

  /** A line that says nothing: an unknown key, a value that did not parse, or a time already known better. */
  predicate Ignored(line: Line, haveUs: bool)
  {
    match line
    case NoEquals => true
    case OtherKey => true
    case Frame(n) => n.None?
    case Fps(f) => f.None?
    case Speed(x) => x.None?
    case OutTimeUs(us) => us.None? || us.value < 0
    case OutTimeMs(ms) => haveUs || ms.None? || ms.value < 0
    case Progress(_) => false
  }

  class ProgressParser {
    var cur: Sample
    var haveData: bool
    var haveUs: bool

    function View(): Parser
      reads this
    {
      Parser(cur, haveData, haveUs)
    }

    constructor ()
      ensures View() == FRESH
    {
      cur, haveData, haveUs := EMPTY, false, false;
    }

    method FeedLine(line: Line) returns (s: Option<Sample>)
      modifies this
      ensures (View(), s) == Feed(old(View()), line)
      ensures line.Progress? ==>
        && View() == Parser(Sample(0, 0.0, 0.0, 0.0, false), false, false)
        && s == if old(haveData) || line.end then Some(old(cur).(end := line.end)) else None
      ensures !line.Progress? ==> s == None
      ensures line.Frame? && line.n.Some? ==> View() == Parser(old(cur).(frame := line.n.value), true, old(haveUs))
      ensures line.Fps? && line.f.Some? ==> View() == Parser(old(cur).(fps := line.f.value), true, old(haveUs))
      ensures line.Speed? && line.x.Some? ==> View() == Parser(old(cur).(speedX := line.x.value), true, old(haveUs))
      ensures line.OutTimeUs? && line.us.Some? && line.us.value >= 0 ==>
        && View() == Parser(old(cur).(outTime := cur.outTime), true, true)
        && cur.outTime * 1_000_000.0 == line.us.value as real
      ensures line.OutTimeMs? && line.ms.Some? && line.ms.value >= 0 && !old(haveUs) ==>
        && View() == Parser(old(cur).(outTime := cur.outTime), true, false)
        && cur.outTime * 1_000_000.0 == line.ms.value as real
      ensures Ignored(line, old(haveUs)) ==> View() == old(View())
    {
      s := None;
      match line {
        case Frame(n) =>
          if n.Some? {
            cur := cur.(frame := n.value);
            haveData := true;
          }
        case Fps(f) =>
          if f.Some? {
            cur := cur.(fps := f.value);
            haveData := true;
          }
        case OutTimeUs(us) =>
          if Time(us) {
            cur := cur.(outTime := Micros(us.value));
            haveData := true;
            haveUs := true;
          }
        case OutTimeMs(ms) =>
          if !haveUs && Time(ms) {
            cur := cur.(outTime := Micros(ms.value));
            haveData := true;
          }
        case Speed(x) =>
          if x.Some? {
            cur := cur.(speedX := x.value);
            haveData := true;
          }
        case Progress(end) =>
          if haveData || end {
            s := Some(cur.(end := end));
          }
          cur, haveData, haveUs := EMPTY, false, false;
        case NoEquals =>
        case OtherKey =>
      }
    }
  }

  function Delivered(s: Option<Sample>): seq<Sample> { if s.Some? then [s.value] else [] }

  /** A progress line reports its block and starts the next one afresh. */
  lemma BlockCloses(block: seq<Line>, end: bool)
    requires forall i :: 0 <= i < |block| ==> !block[i].Progress?
    ensures Feed(Fed(block), Progress(end)).0 == FRESH
    ensures Delivered(Feed(Fed(block), Progress(end)).1) == Reported(block, end)
  {
    FedIsBlock(block);
  }

  /** Any other line reports nothing and belongs to the block. */
  lemma BlockGrows(block: seq<Line>, line: Line)
    requires !line.Progress?
    ensures Feed(Fed(block), line) == (Fed(block + [line]), None)
  {
    assert (block + [line])[..|block|] == block;
  }

  lemma BlockAndRest(lines: seq<Line>)
    ensures SamplesOf(lines) ==
            var n := BlockLength(lines);
            if n == |lines| then [] else Reported(lines[..n], lines[n].end) + SamplesOf(lines[n + 1..])
  {
    hide Reported, BlockLength;
  }

  lemma FirstBlock(lines: seq<Line>, n: nat)
    requires n <= |lines| && (n < |lines| ==> lines[n].Progress?)
    requires forall i :: 0 <= i < n ==> !lines[i].Progress?
    ensures SamplesOf(lines) ==
            if n == |lines| then [] else Reported(lines[..n], lines[n].end) + SamplesOf(lines[n + 1..])
  {
    hide Reported, BlockLength, SamplesOf;
    BlockEnds(lines, n);
    BlockAndRest(lines);
  }

  /** ScanProgress: each sample it emits is the sample of one block and of that block's lines only. */
  method ScanProgress(lines: seq<Line>) returns (emitted: seq<Sample>)
    ensures emitted == SamplesOf(lines)
  {
    hide Feed, Fed, SamplesOf, Reported, BlockSample, HasData;
    var p := new ProgressParser();
    emitted := [];
    ghost var start := 0;
    var i := 0;
    NothingFed(lines);
    while i < |lines|
      invariant 0 <= start <= i <= |lines|
      invariant forall k :: start <= k < i ==> !lines[k].Progress?
      invariant p.View() == Fed(lines[start..i])
      invariant SamplesOf(lines) == emitted + SamplesOf(lines[start..])
    {
      ghost var block := lines[start..i];
      var s := p.FeedLine(lines[i]);
      if s.Some? {
        emitted := emitted + [s.value];
      }
      if lines[i].Progress? {
        BlockCloses(block, lines[i].end);
        NextBlock(lines, start, i);
        start := i + 1;
        NothingFed(lines[start..]);
        assert lines[start..i + 1] == [];
      } else {
        BlockGrows(block, lines[i]);
        assert lines[start..i + 1] == block + [lines[i]];
      }
      i := i + 1;
    }
    FirstBlock(lines[start..], |lines| - start);
    assert emitted + [] == emitted;
  }

  lemma NothingFed(lines: seq<Line>)
    ensures Fed([]) == FRESH && lines[0..] == lines && lines[0..0] == []
    ensures [] + SamplesOf(lines) == SamplesOf(lines)
  {
  }

  lemma NextBlock(lines: seq<Line>, start: nat, i: nat)
    requires start <= i < |lines| && lines[i].Progress? && forall k :: start <= k < i ==> !lines[k].Progress?
    ensures forall before: seq<Sample> ::
              before + SamplesOf(lines[start..]) == before + Reported(lines[start..i], lines[i].end) + SamplesOf(lines[i + 1..])
  {
    hide SamplesOf, Reported;
    var rest := lines[start..];
    FirstBlock(rest, i - start);
    assert rest[..i - start] == lines[start..i] && rest[i - start + 1..] == lines[i + 1..];
    forall before: seq<Sample>
      ensures before + SamplesOf(rest) == before + Reported(lines[start..i], lines[i].end) + SamplesOf(lines[i + 1..]) {
      assert before + (Reported(lines[start..i], lines[i].end) + SamplesOf(lines[i + 1..]))
          == before + Reported(lines[start..i], lines[i].end) + SamplesOf(lines[i + 1..]);
    }
  }

  lemma {:induction false} BlockEnds(lines: seq<Line>, n: nat)
    requires n <= |lines| && (n < |lines| ==> lines[n].Progress?)
    requires forall i :: 0 <= i < n ==> !lines[i].Progress?
    ensures BlockLength(lines) == n
  {
  }

  // ---- percent ----

  /** DeriveProgress. */
  function Percent(s: Sample, duration: real): (pct: real)
    ensures 0.0 <= pct <= 100.0
    ensures duration <= 0.0 ==> pct == 0.0
    ensures duration > 0.0 ==> (pct == 100.0 <==> s.end || s.outTime >= duration)
    ensures 0.0 <= s.outTime < duration && !s.end ==> pct * duration == s.outTime * 100.0
    ensures s.outTime < 0.0 && !s.end ==> pct == 0.0
  {
    if duration <= 0.0 then 0.0
    else if s.end then 100.0
    else
      var raw := s.outTime / duration * 100.0;
      Scaled(s.outTime, duration);
      ScaledBack(s.outTime, duration);
      if raw > 100.0 then 100.0 else if raw < 0.0 then 0.0 else raw
  }

  lemma Scaled(t: real, duration: real)
    requires duration > 0.0
    ensures t / duration * 100.0 >= 100.0 <==> t >= duration
  {
    var q := t / duration;
    assert q * duration == t;
    if q >= 1.0 {
      assert (q - 1.0) * duration >= 0.0;
    } else {
      assert (1.0 - q) * duration > 0.0;
    }
  }

  lemma ScaledBack(t: real, duration: real)
    requires duration > 0.0
    ensures t / duration * 100.0 * duration == t * 100.0
    ensures t < 0.0 <==> t / duration * 100.0 < 0.0
  {
    var q := t / duration;
    assert q * duration == t;
    assert q * 100.0 * duration == q * duration * 100.0;
    if q < 0.0 {
      ScaleOrder(0.0, q, duration);
    } else if q > 0.0 {
      ScaleOrder(q, 0.0, duration);
    }
  }

  lemma ScaleOrder(x: real, y: real, d: real)
    requires d > 0.0
    ensures x > y ==> x * d > y * d
  {
    if x > y {
      assert (x - y) * d > 0.0;
    }
  }

  lemma DivideMonotone(a: real, b: real, d: real)
    requires a <= b && d > 0.0
    ensures a / d <= b / d
  {
    var x, y := a / d, b / d;
    assert x * d == a && y * d == b;
    ScaleOrder(x, y, d);
  }

  lemma PercentMonotone(a: Sample, b: Sample, duration: real)
    requires a.outTime <= b.outTime && (a.end ==> b.end)
    ensures Percent(a, duration) <= Percent(b, duration)
  {
    if duration > 0.0 {
      DivideMonotone(a.outTime, b.outTime, duration);
    }
  }

  ghost predicate TimesNeverDecrease(samples: seq<Sample>)
  {
    forall i, j :: 0 <= i < j < |samples| ==> samples[i].outTime <= samples[j].outTime
  }

  ghost predicate PercentsNeverDecrease(samples: seq<Sample>, duration: real)
  {
    forall i, j :: 0 <= i < j < |samples| ==> Percent(samples[i], duration) <= Percent(samples[j], duration)
  }

  /** A sample after progress=end is itself an end or at the full duration. */
  ghost predicate EndIsLast(samples: seq<Sample>, duration: real)
  {
    forall i, j :: 0 <= i < j < |samples| && samples[i].end ==> samples[j].end || samples[j].outTime >= duration
  }

  /**
   * When out-times never decrease within a rung, its percent never decreases exactly when
   * nothing short of the full duration follows a progress=end (or the duration is unknown).
   */
  lemma RungMonotoneIff(samples: seq<Sample>, duration: real)
    requires TimesNeverDecrease(samples)
    ensures PercentsNeverDecrease(samples, duration) <==> (duration <= 0.0 || EndIsLast(samples, duration))
  {
    if duration > 0.0 {
      if EndIsLast(samples, duration) {
        forall i, j | 0 <= i < j < |samples| ensures Percent(samples[i], duration) <= Percent(samples[j], duration) {
          if !samples[i].end {
            PercentMonotone(samples[i], samples[j], duration);
          }
        }
      } else {
        var i, j :| 0 <= i < j < |samples| && samples[i].end && !(samples[j].end || samples[j].outTime >= duration);
        assert Percent(samples[i], duration) == 100.0 && Percent(samples[j], duration) < 100.0;
      }
    }
  }

  // ---- the ladder ----

  /** The job percent reported for a sample of one rung out of `total`. */
  function JobPercent(rung: nat, pct: real, total: nat): (p: real)
    requires total > 0
    ensures p * total as real == rung as real * 100.0 + pct
  {
    (rung as real * 100.0 + pct) / total as real
  }

  lemma QuotientBounds(x: real, t: real)
    requires t > 0.0 && 0.0 <= x <= t * 100.0
    ensures 0.0 <= x / t <= 100.0
  {
    var q := x / t;
    assert q * t == x;
    ScaleOrder(q, 100.0, t);
    ScaleOrder(0.0, q, t);
  }

  lemma JobPercentBounds(rung: nat, pct: real, total: nat)
    requires rung < total && 0.0 <= pct <= 100.0
    ensures 0.0 <= JobPercent(rung, pct, total) <= 100.0
  {
    var t := total as real;
    assert rung as real + 1.0 <= t;
    QuotientBounds(rung as real * 100.0 + pct, t);
  }

  /** Within a rung the percent decides; a later rung is never behind an earlier one. */
  lemma JobPercentMonotone(r: nat, p: real, s: nat, q: real, total: nat)
    requires total > 0 && 0.0 <= p <= 100.0 && 0.0 <= q <= 100.0
    requires r < s || (r == s && p <= q)
    ensures JobPercent(r, p, total) <= JobPercent(s, q, total)
  {
    if r < s {
      assert r as real + 1.0 <= s as real;
    }
    DivideMonotone(r as real * 100.0 + p, s as real * 100.0 + q, total as real);
  }
}
