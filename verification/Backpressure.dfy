// Backpressure on chunk bodies: the in-flight byte gauge and the per-session
// backoff (services/upload/backpressure.go), on 64-bit integers.
module Backpressure {
  import opened Basics
  import opened GoInt

  // ---- backoff ----

  /** The production constants, in nanoseconds (services/upload/main.go). */
  const SECOND: int := 1_000_000_000
  const BASE: int := SECOND
  const MAX: int := 60 * SECOND

  /** What Deny returns at a level: the shift wraps, and anything over the cap or not positive becomes the cap. */
  function Delay(base: int, max: int, level: nat): int
  {
    var d := Shl64(base, level);
    if d > max || d <= 0 then max else d
  }

  lemma {:induction false} Pow2Adds(a: nat, b: nat)
    ensures Pow2(a + b) == Pow2(a) * Pow2(b)
  {
    if a > 0 {
      Pow2Adds(a - 1, b);
    }
  }

  lemma {:induction false} Pow2Grows(a: nat, b: nat)
    requires a <= b
    ensures Pow2(a) <= Pow2(b)
  {
    if a < b {
      Pow2Grows(a, b - 1);
    }
  }

  lemma Pow2Of64()
    ensures Pow2(64) == TWO_64
  {
    Pow2Adds(8, 8);
    Pow2Adds(16, 16);
    Pow2Adds(32, 32);
    assert Pow2(8) == 256;
  }

  /** Wrapping keeps the low zero bits: a multiple of 2^s wraps to a multiple of 2^s, and to 0 from 2^64 on. */
  lemma WrapKeepsLowZeros(m: int, s: nat)
    ensures s >= 64 ==> Wrap64(m * Pow2(s)) == 0
    ensures s <= 64 ==> exists q: int :: Wrap64(m * Pow2(s)) == q * Pow2(s)
  {
    Pow2Of64();
    var x := m * Pow2(s);
    var w := (x + TWO_63) / TWO_64;
    assert Wrap64(x) == x - w * TWO_64;
    if s <= 64 {
      Pow2Adds(64 - s, s);
      var q := m - w * Pow2(64 - s);
      assert q * Pow2(s) == m * Pow2(s) - w * Pow2(64 - s) * Pow2(s) by {
        Distribute(m, w * Pow2(64 - s), Pow2(s));
      }
      assert w * Pow2(64 - s) * Pow2(s) == w * TWO_64 by {
        Associate(w, Pow2(64 - s), Pow2(s));
      }
    }
    if s >= 64 {
      Pow2Adds(s - 64, 64);
      Associate(m, Pow2(s - 64), TWO_64);
      assert x == m * Pow2(s - 64) * TWO_64;
      WrapMultiple(m * Pow2(s - 64));
    }
  }

  lemma Distribute(a: int, b: int, c: int)
    ensures (a - b) * c == a * c - b * c
  {
  }

  lemma Associate(a: int, b: int, c: int)
    ensures a * b * c == a * (b * c)
  {
  }

  lemma WrapMultiple(k: int)
    ensures Wrap64(k * TWO_64) == 0
  {
    assert (k * TWO_64 + TWO_63) % TWO_64 == TWO_63 by {
      assert k * TWO_64 + TWO_63 == TWO_64 * k + TWO_63;
    }
  }

  lemma MulMonotone(m: int, x: int, y: int)
    requires m >= 0
    ensures x <= y ==> m * x <= m * y
  {
    if x <= y {
      assert m * (y - x) >= 0;
    }
  }

  /** Where the exact delay overflows, the wrapped one is over the cap or not positive. */
  lemma OverflowIsCapped(m: nat, s: nat, max: int)
    requires m > 0 && max > 0 && m * max < TWO_63 <= m * Pow2(s)
    ensures Wrap64(m * Pow2(s)) > max || Wrap64(m * Pow2(s)) <= 0
  {
    hide Pow2, Wrap64;
    WrapKeepsLowZeros(m, s);
    MulMonotone(m, Pow2(s), max);
    if s <= 64 {
      var q: int :| Wrap64(m * Pow2(s)) == q * Pow2(s);
      MulMonotone(Pow2(s), 1, q);
      MulMonotone(Pow2(s), q, 0);
    }
  }

  /**
   * The wrapped shift never escapes the cap: for base = m * 2^a with m * max below 2^63,
   * Deny at any level, however large, returns min(base * 2^level, max).
   */
  lemma DelayIsCappedExponential(m: nat, a: nat, max: int, level: nat)
    requires m > 0 && max > 0 && m * max < TWO_63
    ensures Delay(m * Pow2(a), max, level) == Min(m * Pow2(a) * Pow2(level), max)
  {
    hide Pow2, Wrap64;
    var s := a + level;
    Pow2Adds(a, level);
    Associate(m, Pow2(a), Pow2(level));
    MulMonotone(m, 1, Pow2(s));
    if m * Pow2(s) >= TWO_63 {
      OverflowIsCapped(m, s, max);
      MulMonotone(max, 1, m);
    }
  }

  /** The production base is 5^9 * 2^9. */
  lemma ProductionDelay(level: nat)
    ensures Delay(BASE, MAX, level) == Min(BASE * Pow2(level), MAX)
  {
    assert Pow2(9) == 512;
    DelayIsCappedExponential(1_953_125, 9, MAX, level);
  }

  /** From the 64th level on every bit is shifted out, and the delay is the cap. */
  lemma LevelsFrom64AreCapped(base: int, max: int, level: nat)
    requires 0 < base && 0 < max <= MAX_INT64 && level >= 64
    ensures Delay(base, max, level) == Min(base * Pow2(level), max)
  {
    WrapKeepsLowZeros(base, level);
    Pow2Of64();
    Pow2Grows(64, level);
    hide Pow2, Wrap64;
    MulMonotone(Pow2(level), 1, base);
  }

  /** Where the product fits it is not wrapped. */
  lemma LevelsThatFit(base: int, max: int, level: nat)
    requires 0 < base && 0 < max && base * Pow2(level) <= MAX_INT64
    ensures Delay(base, max, level) == Min(base * Pow2(level), max)
  {
    Pow2Grows(0, level);
    hide Pow2;
    MulMonotone(base, 1, Pow2(level));
  }

  /**
   * For which constants Deny is the capped exponential: exactly when none of the first 64 shifts that overflow
   * wraps to something between zero and the cap.
   */
  lemma CappedExponentialIff(base: int, max: int)
    requires 0 < base <= MAX_INT64 && 0 < max <= MAX_INT64
    ensures (forall level: nat :: Delay(base, max, level) == Min(base * Pow2(level), max))
       <==> (forall level: nat :: level < 64 && base * Pow2(level) > MAX_INT64 ==> !(0 < Shl64(base, level) < max))
  {
    hide Pow2, Shl64;
    if forall level: nat :: level < 64 && base * Pow2(level) > MAX_INT64 ==> !(0 < Shl64(base, level) < max) {
      forall level: nat ensures Delay(base, max, level) == Min(base * Pow2(level), max) {
        if level >= 64 {
          LevelsFrom64AreCapped(base, max, level);
        } else if base * Pow2(level) <= MAX_INT64 {
          LevelsThatFit(base, max, level);
        }
      }
    } else {
      var level: nat :| level < 64 && base * Pow2(level) > MAX_INT64 && 0 < Shl64(base, level) < max;
      EscapesAt(base, max, level);
    }
  }

  /** A wrapped shift below the cap is returned as it is. */
  lemma EscapesAt(base: int, max: int, level: nat)
    requires base * Pow2(level) > MAX_INT64 >= max && 0 < Shl64(base, level) < max
    ensures Delay(base, max, level) == Shl64(base, level) < Min(base * Pow2(level), max)
  {
  }

  /** With other constants the wrap can get through the cap: 2^62 + 1 shifted twice comes out as 4. */
  lemma OtherConstantsCanEscape()
    ensures Delay(0x4000_0000_0000_0001, MAX_INT64, 2) == 4 < Min(0x4000_0000_0000_0001 * Pow2(2), MAX_INT64)
  {
    assert Pow2(2) == 4;
  }

  /** Delays never shrink as denials pile up and are never zero; the header's whole seconds are exact. */
  lemma DelaysAreMonotone(a: nat, b: nat)
    requires a <= b
    ensures 0 < Delay(BASE, MAX, a) <= Delay(BASE, MAX, b) <= MAX
    ensures Delay(BASE, MAX, a) == RetryAfterSeconds(Delay(BASE, MAX, a)) * SECOND
  {
    ProductionDelay(a);
    ProductionDelay(b);
    Pow2Grows(a, b);
    assert BASE * Pow2(a) == Pow2(a) * SECOND;
  }

  /** ceil(delay.Seconds()), the Retry-After header. */
  function RetryAfterSeconds(d: int): (r: int)
    ensures r * 1_000_000_000 - 1_000_000_000 < d <= r * 1_000_000_000
  {
    (d + SECOND - 1) / SECOND
  }

  type SessionId = nat

  datatype Call = Deny(id: SessionId) | Reset(id: SessionId)

  /** Denials of a session since its last reset. */
  function Denials(calls: seq<Call>, id: SessionId): nat
  {
    if calls == [] then 0
    else match calls[|calls| - 1]
      case Deny(x) => Denials(calls[..|calls| - 1], id) + if x == id then 1 else 0
      case Reset(x) => if x == id then 0 else Denials(calls[..|calls| - 1], id)
  }

  /** Denials counts the denials of this session in what follows its last reset, or in everything when it had none. */
  lemma {:induction false} DenialsSinceReset(before: seq<Call>, id: SessionId, rest: seq<Call>)
    requires Reset(id) !in rest
    ensures Denials(rest, id) == multiset(rest)[Deny(id)]
    ensures Denials(before + [Reset(id)] + rest, id) == multiset(rest)[Deny(id)]
  {
    var calls := before + [Reset(id)] + rest;
    if rest != [] {
      var front, last := rest[..|rest| - 1], rest[|rest| - 1];
      assert rest == front + [last];
      assert calls[..|calls| - 1] == before + [Reset(id)] + front && calls[|calls| - 1] == last;
      DenialsSinceReset(before, id, front);
    } else {
      assert calls[|calls| - 1] == Reset(id);
    }
  }

  /** The production waits: a second after the first denial since the reset, doubling with each, never over a minute. */
  lemma WaitsDouble(before: seq<Call>, id: SessionId, rest: seq<Call>)
    requires Reset(id) !in rest
    ensures Delay(BASE, MAX, Denials(before + [Reset(id)] + rest, id))
         == Min(1_000_000_000 * Pow2(multiset(rest)[Deny(id)]), 60_000_000_000)
  {
    DenialsSinceReset(before, id, rest);
    ProductionDelay(multiset(rest)[Deny(id)]);
  }

  lemma OneMoreCall(calls: seq<Call>, c: Call)
    ensures forall id ::
      Denials(calls + [c], id) == if c == Reset(id) then 0 else Denials(calls, id) + if c == Deny(id) then 1 else 0
  {
    assert (calls + [c])[..|calls|] == calls;
  }

  function LevelOf(levels: map<SessionId, nat>, id: SessionId): nat
  {
    if id in levels then levels[id] else 0
  }

  class BackoffDirector {
    var levels: map<SessionId, nat>
    ghost var calls: seq<Call>
    const base: int
    const max: int

    ghost predicate Valid()
      reads this
    {
      && (forall id :: LevelOf(levels, id) == Denials(calls, id))
      && (forall id :: id in levels ==> levels[id] > 0)
    }

    constructor (base: int, max: int)
      ensures Valid() && calls == [] && this.base == base && this.max == max
    {
      this.base, this.max := base, max;
      levels, calls := map[], [];
    }

    /** The delay depends on this session's denials since its own last reset, and on nothing else. */
    method DenySession(id: SessionId) returns (d: int)
      requires Valid()
      modifies this
      ensures Valid() && calls == old(calls) + [Deny(id)]
      ensures d == Delay(base, max, Denials(old(calls), id))
    {
      hide Denials, Shl64;
      OneMoreCall(calls, Deny(id));
      var level := LevelOf(levels, id);
      levels := levels[id := level + 1];
      calls := calls + [Deny(id)];
      d := Shl64(base, level);
      if d > max || d <= 0 {
        d := max;
      }
    }

    method ResetSession(id: SessionId)
      requires Valid()
      modifies this
      ensures Valid() && calls == old(calls) + [Reset(id)] && id !in levels
    {
      hide Denials;
      OneMoreCall(calls, Reset(id));
      levels := levels - {id};
      calls := calls + [Reset(id)];
    }
  }

  // ---- the in-flight gauge ----

  type Tid = nat

  /** A request between its Load and its CompareAndSwap, and the bytes of the admitted ones. */
  datatype Gauge = Gauge(ceiling: int, current: int, loaded: map<Tid, (int, int)>, held: map<Tid, int>)

  datatype Act =
    | Load(tid: Tid, n: int)
    | Swap(tid: Tid)
    | Release(tid: Tid)

  /** One atomic step. A failed comparison goes back to Load, a refused one leaves. */
  function Step(g: Gauge, a: Act): Gauge
  {
    match a
    case Load(tid, n) =>
      if tid in g.loaded || tid in g.held || Wrap64(g.current + n) > g.ceiling then g
      else g.(loaded := g.loaded[tid := (g.current, n)])
    case Swap(tid) =>
      if tid !in g.loaded then g
      else
        var (cur, n) := g.loaded[tid];
        var gone := g.loaded - {tid};
        if g.current != cur then g.(loaded := gone)
        else g.(current := Wrap64(cur + n), loaded := gone, held := g.held[tid := n])
    case Release(tid) =>
      if tid !in g.held then g
      else g.(current := Wrap64(g.current - g.held[tid]), held := g.held - {tid})
  }

  function Exec(ceiling: int, acts: seq<Act>): Gauge
  {
    if acts == [] then Gauge(ceiling, 0, map[], map[]) else Step(Exec(ceiling, acts[..|acts| - 1]), acts[|acts| - 1])
  }

  ghost function Sum(held: map<Tid, int>): int
    decreases |held|
  {
    if held == map[] then 0
    else
      var t :| t in held;
      held[t] + Sum(held - {t})
  }

  lemma {:induction false} SumRemove(held: map<Tid, int>, t: Tid)
    requires t in held
    ensures Sum(held) == held[t] + Sum(held - {t})
    decreases |held|
  {
    var first :| first in held && Sum(held) == held[first] + Sum(held - {first});
    if first != t {
      SumRemove(held - {first}, t);
      SumRemove(held - {t}, first);
      assert held - {first} - {t} == held - {t} - {first};
    }
  }

  lemma SumInsert(held: map<Tid, int>, t: Tid, n: int)
    requires t !in held
    ensures Sum(held[t := n]) == Sum(held) + n
  {
    SumRemove(held[t := n], t);
    assert held[t := n] - {t} == held;
  }

  lemma {:induction false} SumNonNegative(held: map<Tid, int>)
    requires forall t :: t in held ==> held[t] >= 0
    ensures Sum(held) >= 0
    decreases |held|
  {
    if held != map[] {
      var t :| t in held && Sum(held) == held[t] + Sum(held - {t});
      SumNonNegative(held - {t});
    }
  }

  /** The admission test decides current + n <= ceiling correctly exactly when the sum does not overflow. */
  lemma AdmissionIsExactIff(current: int, n: int, ceiling: int)
    requires 0 <= current <= ceiling <= MAX_INT64 && 0 <= n <= MAX_INT64
    ensures (Wrap64(current + n) <= ceiling <==> current + n <= ceiling) <==> current + n <= MAX_INT64
  {
    assert current + n > MAX_INT64 ==> Wrap64(current + n) == current + n - TWO_64;
  }

  /** Bodies small enough that adding one to a full gauge does not overflow. */
  predicate BodiesFit(ceiling: int, acts: seq<Act>)
  {
    forall i :: 0 <= i < |acts| && acts[i].Load? ==> 0 <= acts[i].n <= MAX_INT64 - ceiling
  }

  ghost predicate GaugeInv(g: Gauge)
  {
    && 0 <= g.current <= g.ceiling <= MAX_INT64 && g.current == Sum(g.held)
    && (forall t :: t in g.held ==> g.held[t] >= 0)
    && (forall t :: t in g.loaded ==>
          t !in g.held && g.loaded[t].1 >= 0 && 0 <= g.loaded[t].0 && g.loaded[t].0 + g.loaded[t].1 <= g.ceiling)
  }

  /** Under any interleaving of loads, swaps and releases, the gauge is the bytes held, within the ceiling. */
  lemma {:induction false} GaugeIsHeldBytes(ceiling: int, acts: seq<Act>)
    requires 0 <= ceiling <= MAX_INT64 && BodiesFit(ceiling, acts)
    ensures var g := Exec(ceiling, acts); GaugeInv(g) && g.ceiling == ceiling
  {
    if acts != [] {
      var front, a := acts[..|acts| - 1], acts[|acts| - 1];
      GaugeIsHeldBytes(ceiling, front);
      var g := Exec(ceiling, front);
      if a.Swap? && a.tid in g.loaded && g.current == g.loaded[a.tid].0 {
        SumInsert(g.held, a.tid, g.loaded[a.tid].1);
      }
      if a.Release? && a.tid in g.held {
        SumRemove(g.held, a.tid);
        SumNonNegative(g.held - {a.tid});
      }
    }
  }

  /** Undisturbed, a request is admitted exactly when its bytes fit, and the gauge then grows by them. */
  lemma AdmittedIffFits(ceiling: int, acts: seq<Act>, tid: Tid, n: int)
    requires 0 <= ceiling <= MAX_INT64 && BodiesFit(ceiling, acts + [Load(tid, n)])
    requires tid !in Exec(ceiling, acts).loaded && tid !in Exec(ceiling, acts).held
    ensures var g, t := Exec(ceiling, acts), Exec(ceiling, acts + [Load(tid, n), Swap(tid)]);
      if g.current + n <= ceiling then t.held == g.held[tid := n] && t.current == g.current + n
      else t.held == g.held && t.current == g.current
  {
    var loaded := acts + [Load(tid, n)];
    assert loaded[|acts|] == Load(tid, n);
    assert forall i :: 0 <= i < |acts| ==> acts[i] == loaded[i];
    GaugeIsHeldBytes(ceiling, acts);
    AdmittedAlone(Exec(ceiling, acts), tid, n);
    hide Step, GaugeInv, BodiesFit;
    var all := acts + [Load(tid, n), Swap(tid)];
    assert all[..|all| - 1] == loaded && loaded[..|loaded| - 1] == acts;
  }

  /** A request that lost the race to another admits nothing and loads again. */
  lemma LostRaceReloads(g: Gauge, tid: Tid)
    requires tid in g.loaded && g.loaded[tid].0 != g.current
    ensures var t := Step(g, Swap(tid)); t.current == g.current && t.held == g.held && t.loaded.Keys == g.loaded.Keys - {tid}
  {
  }

  lemma AdmittedAlone(g: Gauge, tid: Tid, n: int)
    requires GaugeInv(g) && 0 <= n <= MAX_INT64 - g.ceiling && tid !in g.loaded && tid !in g.held
    ensures var t := Step(Step(g, Load(tid, n)), Swap(tid));
      if g.current + n <= g.ceiling then t.held == g.held[tid := n] && t.current == g.current + n
      else t.held == g.held && t.current == g.current
  {
    hide Sum;
  }

  function Total(deltas: seq<int>): int
  {
    if deltas == [] then 0 else Total(deltas[..|deltas| - 1]) + deltas[|deltas| - 1]
  }

  lemma WrapAdds(x: int, y: int)
    ensures Wrap64(Wrap64(x) + y) == Wrap64(x + y)
  {
    var q := (x + TWO_63) / TWO_64;
    assert Wrap64(x) == x - q * TWO_64;
    assert Wrap64(x) + y + TWO_63 == (x + y + TWO_63) - q * TWO_64;
    ModDrop(x + y + TWO_63, q);
  }

  lemma ModDrop(a: int, q: int)
    ensures (a - q * TWO_64) % TWO_64 == a % TWO_64
  {
    var d, r := a / TWO_64, a % TWO_64;
    assert a - q * TWO_64 == (d - q) * TWO_64 + r by { Distribute(d, q, TWO_64); }
  }

  class InflightGauge {
    var current: int
    const ceiling: int

    constructor (ceiling: int)
      ensures current == 0 && this.ceiling == ceiling
    {
      this.ceiling := ceiling;
      current := 0;
    }

    /**
     * The compare-and-swap loop. `others[i]` is what the rest of the program adds to the
     * counter between the i-th load and the i-th swap.
     */
    method TryAcquire(n: int, others: seq<int>) returns (ok: bool, ghost rounds: nat)
      modifies this
      ensures rounds <= |others|
      ensures ok ==> Wrap64(old(current) + Total(others[..rounds]) + n) <= ceiling
                     && current == Wrap64(old(current) + Total(others[..rounds]) + n)
      ensures !ok ==> Wrap64(old(current) + Total(others[..rounds]) + n) > ceiling
                      && current == old(current) + Total(others[..rounds])
    {
      var i := 0;
      rounds := 0;
      while true
        invariant 0 <= i && rounds <= |others| && rounds == Min(i, |others|)
        invariant current == old(current) + Total(others[..rounds])
        decreases |others| - i
      {
        var cur := current;
        if Wrap64(cur + n) > ceiling {
          return false, rounds;
        }
        if i < |others| {
          current := current + others[i];
          assert others[..i + 1][..i] == others[..i];
          rounds := rounds + 1;
        }
        if current == cur {
          current := Wrap64(cur + n);
          return true, rounds;
        }
        i := i + 1;
      }
    }

    method Release(n: int)
      modifies this
      ensures current == Wrap64(old(current) - n)
    {
      current := Wrap64(current - n);
    }
  }
}
