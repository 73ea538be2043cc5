/**
 Timeline and beat-grid arithmetic. Beats are micro-beats, times are
 microseconds; every division rounds to nearest, ties away from zero.
 */
module BeatGrid {
  import opened Types

  const TEMPO_MIN := 60_060
  const TEMPO_MAX := 3_000_000
  const MICRO := 1_000_000

  function Abs(x: int): nat {
    if x < 0 then -x else x
  }

  /** Division truncating toward zero. */
  function TruncDiv(a: int, b: int): int
    requires b > 0
  {
    if a >= 0 then a / b else -((-a) / b)
  }

  function RoundDiv(num: int, den: int): int
    requires den > 0
  {
    if num >= 0 then TruncDiv(num + den / 2, den) else TruncDiv(num - den / 2, den)
  }

  function Phase(b: int, q: int): int {
    if q <= 0 then 0 else b % q
  }

  function AlignUp(x: int, t: int, q: int): int {
    if q <= 0 then x else x + (Phase(t, q) - Phase(x, q)) % q
  }

  function AlignNear(x: int, t: int, q: int): int {
    if q <= 0 then x else AlignUp(x - q / 2, t, q)
  }

  function ClampTempo(tempo: int): (t: int)
    ensures TEMPO_MIN <= t <= TEMPO_MAX
    ensures TEMPO_MIN <= tempo <= TEMPO_MAX ==> t == tempo
  {
    if tempo < TEMPO_MIN then TEMPO_MIN else if tempo > TEMPO_MAX then TEMPO_MAX else tempo
  }

  predicate Clamped(tempo: int) {
    TEMPO_MIN <= tempo <= TEMPO_MAX
  }

  function BeatsAtGhost(tl: Timeline, g: int): int
    requires tl.tempo > 0
  {
    tl.beatOrigin + RoundDiv((g - tl.timeOrigin) * MICRO, tl.tempo)
  }

  function GhostAtBeats(tl: Timeline, beats: int): int {
    tl.timeOrigin + RoundDiv((beats - tl.beatOrigin) * tl.tempo, MICRO)
  }

  function AppBeatAtGhost(tl: Timeline, g: int, q: int): int
    requires tl.tempo > 0
  {
    var b := BeatsAtGhost(tl, g);
    AlignNear(b, b - tl.beatOrigin, q)
  }

  function GhostAtAppBeat(tl: Timeline, b: int, q: int): int {
    if q <= 0 then GhostAtBeats(tl, b) else
    var r := b - tl.beatOrigin;
    var cycle := r - Phase(r, q);
    var delta := AlignNear(q - Phase(r, q), q - Phase(b, q), q);
    GhostAtBeats(tl, tl.beatOrigin + cycle + q - delta)
  }

  function SessionOffset(tl: Timeline, q: int): int
    requires tl.tempo > 0
  {
    var b0 := BeatsAtGhost(tl, tl.timeOrigin);
    AlignNear(b0, b0 - tl.beatOrigin, q)
  }

  // ------------------------------------------------------------- rounding

  lemma MulMono(a: int, b: int, c: int)
    requires a <= b && c >= 0
    ensures a * c <= b * c
  {
    assert b * c - a * c == (b - a) * c;
  }

  /** Multiples of `d` less than `d` out of order are in order. */
  lemma MultipleOrder(p: int, r: int, d: int)
    requires d > 0 && p * d < r * d + d
    ensures p <= r
  {
    assert (r + 1) * d == r * d + d;
    if p > r {
      MulMono(r + 1, p, d);
    }
  }

  /** Euclidean division, as two linear facts about the product. */
  lemma DivBounds(a: int, d: int)
    requires d > 0
    ensures (a / d) * d <= a < (a / d) * d + d
    ensures a % d == a - (a / d) * d
  {
    assert a == (a / d) * d + a % d;
  }

  /** Rounding errs by at most half the divisor. */
  lemma RoundDivNearest(num: int, den: int)
    requires den > 0
    ensures 2 * Abs(RoundDiv(num, den) * den - num) <= den
  {
    if num >= 0 {
      NearestNat(num, den);
    } else {
      NearestNat(-num, den);
      assert -((-num + den / 2) / den) * den == -(((-num + den / 2) / den) * den);
    }
  }

  lemma NearestNat(n: nat, den: int)
    requires den > 0
    ensures var q := (n + den / 2) / den; q >= 0 && 2 * (q * den - n) <= den && 2 * (n - q * den) < den
  {
    DivBounds(n + den / 2, den);
  }

  /** A tie moves away from zero. */
  lemma RoundDivTie(n: int, den: int)
    requires n >= 0 && den > 0 && 2 * Abs(RoundDiv(n, den) * den - n) == den
    ensures RoundDiv(n, den) * den > n && RoundDiv(-n, den) == -RoundDiv(n, den)
  {
    NearestNat(n, den);
    assert n > 0;
    assert RoundDiv(-n, den) == -((n + den / 2) / den);
  }

  /** Conversely, strictly closer than half the divisor identifies the quotient. */
  lemma RoundDivUnique(num: int, den: int, q: int)
    requires den > 0
    requires 2 * Abs(q * den - num) < den
    ensures RoundDiv(num, den) == q
  {
    RoundDivNearest(num, den);
    var r := RoundDiv(num, den);
    assert r * den - q * den == (r - q) * den;
    if r > q {
      MulMono(1, r - q, den);
    } else if r < q {
      MulMono(r - q, -1, den);
    }
  }

  lemma RoundDivExact(q: int, den: int)
    requires den > 0
    ensures RoundDiv(q * den, den) == q
  {
    RoundDivUnique(q * den, den, q);
  }

  lemma RoundDivMonotone(a: int, b: int, den: int)
    requires den > 0 && a <= b
    ensures RoundDiv(a, den) <= RoundDiv(b, den)
  {
    if a >= 0 {
      DivMonotone(a + den / 2, b + den / 2, den);
    } else if b < 0 {
      DivMonotone(-b + den / 2, -a + den / 2, den);
    } else {
      DivMonotone(0, b + den / 2, den);
      DivMonotone(0, -a + den / 2, den);
    }
  }

  lemma DivMonotone(a: int, b: int, d: int)
    requires d > 0 && a <= b
    ensures a / d <= b / d
  {
    DivBounds(a, d);
    DivBounds(b, d);
    MultipleOrder(a / d, b / d, d);
  }

  /** Rounding is additive up to one. */
  lemma RoundDivAdd(a: int, b: int, den: int)
    requires den > 0
    ensures Abs(RoundDiv(a, den) + RoundDiv(b, den) - RoundDiv(a + b, den)) <= 1
  {
    RoundDivNearest(a, den);
    RoundDivNearest(b, den);
    RoundDivNearest(a + b, den);
    QuotientSum(a, b, RoundDiv(a, den), RoundDiv(b, den), RoundDiv(a + b, den), den);
  }

  lemma QuotientSum(a: int, b: int, p: int, q: int, r: int, den: int)
    requires den > 0
    requires 2 * Abs(p * den - a) <= den && 2 * Abs(q * den - b) <= den
    requires 2 * Abs(r * den - (a + b)) <= den
    ensures Abs(p + q - r) <= 1
  {
    assert (p + q) * den == p * den + q * den;
    assert (r + 1) * den == r * den + den && (p + q + 1) * den == (p + q) * den + den;
    MultipleOrder(p + q, r + 1, den);
    MultipleOrder(r, p + q + 1, den);
  }

  // ---------------------------------------------------------- round trips

  /** `x -> y -> x` through the slope num/den and back. */
  function ThereAndBack(x: int, num: int, den: int): int
    requires num > 0 && den > 0
  {
    RoundDiv(RoundDiv(x * num, den) * den, num)
  }

  lemma ThereAndBackError(x: int, num: int, den: int)
    requires num > 0 && den > 0
    ensures 2 * (Abs(ThereAndBack(x, num, den) - x) * num) <= num + den
  {
    var y := RoundDiv(x * num, den);
    RoundDivNearest(x * num, den);
    RoundDivNearest(y * den, num);
    TwoErrors(x, y, ThereAndBack(x, num, den), num, den);
  }

  lemma TwoErrors(x: int, y: int, z: int, num: int, den: int)
    requires num > 0 && den > 0
    requires 2 * Abs(y * den - x * num) <= den && 2 * Abs(z * num - y * den) <= num
    ensures 2 * (Abs(z - x) * num) <= num + den
  {
    assert (z - x) * num == z * num - x * num;
    assert (x - z) * num == x * num - z * num;
  }

  lemma ThereAndBackExact(x: int, num: int, den: int)
    requires 0 < den <= num
    ensures ThereAndBack(x, num, den) == x
  {
    var y := RoundDiv(x * num, den);
    if den == num {
      RoundDivExact(x, num);
    } else {
      RoundDivNearest(x * num, den);
      RoundDivUnique(y * den, num, x);
    }
  }

  predicate Exact(x: int, num: int, den: int)
    requires num > 0 && den > 0
  {
    ThereAndBack(x, num, den) == x
  }

  /** An exact round trip makes the outward map strictly increasing. */
  lemma {:induction false} ExactMeansSteep(k: nat, num: int, den: int)
    requires num > 0 && den > 0
    requires forall x :: Exact(x, num, den)
    ensures RoundDiv(k * num, den) >= k
  {
    if k == 0 {
      assert k * num == 0;
    } else {
      ExactMeansSteep(k - 1, num, den);
      assert Exact(k, num, den) && Exact(k - 1, num, den);
      SteepStep(k, num, den);
    }
  }

  lemma SteepStep(k: int, num: int, den: int)
    requires num > 0 && den > 0
    requires Exact(k, num, den) && Exact(k - 1, num, den)
    ensures RoundDiv((k - 1) * num, den) < RoundDiv(k * num, den)
  {
    MulMono(k - 1, k, num);
    RoundDivMonotone((k - 1) * num, k * num, den);
  }

  /** The same one turn of the grid further on, where the outward value is positive. */
  lemma {:induction false} ExactMeansSteepBeyond(k: nat, num: int, den: int)
    requires num > 0 && den > 0
    requires forall x :: x >= den ==> Exact(x, num, den)
    ensures RoundDiv((den + k) * num, den) >= num + k
  {
    if k == 0 {
      assert den * num == num * den;
      RoundDivExact(num, den);
    } else {
      ExactMeansSteepBeyond(k - 1, num, den);
      assert Exact(den + k, num, den) && Exact(den + k - 1, num, den);
      SteepStep(den + k, num, den);
    }
  }

  /** So exactness there already means a slope of at least one. */
  lemma ExactBeyondMeansSteep(num: int, den: int)
    requires num > 0 && den > 0
    requires forall x :: x >= den ==> Exact(x, num, den)
    ensures den <= num
  {
    ExactMeansSteepBeyond(den, num, den);
    assert (den + den) * num == (2 * num) * den;
    RoundDivExact(2 * num, den);
  }

  /** The round trip is the identity on every integer exactly when the outward
      slope is at least one. */
  lemma ThereAndBackIdentityIff(num: int, den: int)
    requires num > 0 && den > 0
    ensures (forall x :: ThereAndBack(x, num, den) == x) <==> den <= num
  {
    if den <= num {
      forall x ensures ThereAndBack(x, num, den) == x {
        ThereAndBackExact(x, num, den);
      }
    } else if forall x :: ThereAndBack(x, num, den) == x {
      forall x ensures Exact(x, num, den) {
        assert ThereAndBack(x, num, den) == x;
      }
      ExactMeansSteep(den, num, den);
      assert den * num == num * den;
      RoundDivExact(num, den);
    }
  }

  lemma GhostRoundTripIs(tl: Timeline, g: int)
    requires tl.tempo > 0
    ensures GhostAtBeats(tl, BeatsAtGhost(tl, g)) - tl.timeOrigin
         == ThereAndBack(g - tl.timeOrigin, MICRO, tl.tempo)
  {
  }

  lemma BeatRoundTripIs(tl: Timeline, b: int)
    requires tl.tempo > 0
    ensures BeatsAtGhost(tl, GhostAtBeats(tl, b)) - tl.beatOrigin
         == ThereAndBack(b - tl.beatOrigin, tl.tempo, MICRO)
  {
  }

  /** Ghost time survives the trip through beats within one microsecond at every
      clamped tempo, and exactly when a beat lasts at most a second. */
  lemma GhostRoundTrip(tl: Timeline, g: int)
    requires Clamped(tl.tempo)
    ensures Abs(GhostAtBeats(tl, BeatsAtGhost(tl, g)) - g) <= 1
    ensures tl.tempo <= MICRO ==> GhostAtBeats(tl, BeatsAtGhost(tl, g)) == g
  {
    var x := g - tl.timeOrigin;
    GhostRoundTripIs(tl, g);
    if tl.tempo == TEMPO_MAX {
      SlowestRoundTrip(x);
    } else {
      ThereAndBackError(x, MICRO, tl.tempo);
      if tl.tempo <= MICRO {
        ThereAndBackExact(x, MICRO, tl.tempo);
      }
    }
  }

  /** At the slowest tempo a micro-beat is three microseconds: the way back is
      exact, and the first rounding errs by less than two whole microseconds. */
  lemma SlowestRoundTrip(x: int)
    ensures Abs(ThereAndBack(x, MICRO, TEMPO_MAX) - x) <= 1
  {
    var y := RoundDiv(x * MICRO, TEMPO_MAX);
    RoundDivNearest(x * MICRO, TEMPO_MAX);
    RoundDivExact(3 * y, MICRO);
  }

  lemma GhostRoundTripIdentityIff(tl: Timeline)
    requires tl.tempo > 0
    ensures (forall g :: GhostAtBeats(tl, BeatsAtGhost(tl, g)) == g) <==> tl.tempo <= MICRO
  {
    ThereAndBackIdentityIff(MICRO, tl.tempo);
    if forall g :: GhostAtBeats(tl, BeatsAtGhost(tl, g)) == g {
      forall x ensures ThereAndBack(x, MICRO, tl.tempo) == x {
        GhostRoundTripIs(tl, x + tl.timeOrigin);
        assert GhostAtBeats(tl, BeatsAtGhost(tl, x + tl.timeOrigin)) == x + tl.timeOrigin;
      }
    }
    if tl.tempo <= MICRO {
      forall g ensures GhostAtBeats(tl, BeatsAtGhost(tl, g)) == g {
        GhostRoundTripIs(tl, g);
        assert ThereAndBack(g - tl.timeOrigin, MICRO, tl.tempo) == g - tl.timeOrigin;
      }
    }
  }

  /** Beats survive the trip through ghost time within eight micro-beats at every
      clamped tempo, and exactly when a beat lasts at least a second. */
  lemma BeatRoundTrip(tl: Timeline, b: int)
    requires Clamped(tl.tempo)
    ensures Abs(BeatsAtGhost(tl, GhostAtBeats(tl, b)) - b) <= 8
    ensures tl.tempo >= MICRO ==> BeatsAtGhost(tl, GhostAtBeats(tl, b)) == b
  {
    var x := b - tl.beatOrigin;
    BeatRoundTripIs(tl, b);
    ThereAndBackError(x, tl.tempo, MICRO);
    AtMost(Abs(ThereAndBack(x, tl.tempo, MICRO) - x), 8, tl.tempo, (tl.tempo + MICRO) / 2);
    if tl.tempo >= MICRO {
      ThereAndBackExact(x, tl.tempo, MICRO);
    }
  }

  /** `e` multiples of `t` within `limit` are at most `k`. */
  lemma AtMost(e: nat, k: nat, t: int, limit: int)
    requires t > 0 && e * t <= limit && limit < (k + 1) * t
    ensures e <= k
  {
    if e > k {
      MulMono(k + 1, e, t);
    }
  }

  lemma BeatRoundTripIdentityIff(tl: Timeline)
    requires tl.tempo > 0
    ensures (forall b :: BeatsAtGhost(tl, GhostAtBeats(tl, b)) == b) <==> tl.tempo >= MICRO
  {
    ThereAndBackIdentityIff(tl.tempo, MICRO);
    if forall b :: BeatsAtGhost(tl, GhostAtBeats(tl, b)) == b {
      forall x ensures ThereAndBack(x, tl.tempo, MICRO) == x {
        BeatRoundTripIs(tl, x + tl.beatOrigin);
        assert BeatsAtGhost(tl, GhostAtBeats(tl, x + tl.beatOrigin)) == x + tl.beatOrigin;
      }
    }
    if tl.tempo >= MICRO {
      forall b ensures BeatsAtGhost(tl, GhostAtBeats(tl, b)) == b {
        BeatRoundTripIs(tl, b);
        assert ThereAndBack(b - tl.beatOrigin, tl.tempo, MICRO) == b - tl.beatOrigin;
      }
    }
  }

  /** The bounds 1 and 8 are attained, so the documented bijection is only
      approximate. */
  lemma RoundTripBoundsAreTight()
    ensures GhostAtBeats(Timeline(2_000_000, 0, 0), BeatsAtGhost(Timeline(2_000_000, 0, 0), 1)) == 2
    ensures BeatsAtGhost(Timeline(60_060, 0, 0), GhostAtBeats(Timeline(60_060, 0, 0), 8)) == 0
  {
  }

  // ------------------------------------------------------------ alignment

  lemma ModUnique(a: int, q: int, k: int, r: int)
    requires q > 0 && 0 <= r < q && a == k * q + r
    ensures a % q == r && a / q == k
  {
    DivBounds(a, q);
    MultipleOrder(a / q, k, q);
    MultipleOrder(k, a / q, q);
  }

  lemma ModOfMultiple(k: int, q: int)
    requires q > 0
    ensures (k * q) % q == 0
  {
    ModUnique(k * q, q, k, 0);
  }

  /** Congruence modulo the quantum. */
  predicate SamePhase(a: int, b: int, q: int)
    requires q > 0
  {
    (a - b) % q == 0
  }

  lemma SamePhaseIff(a: int, b: int, q: int)
    requires q > 0
    ensures SamePhase(a, b, q) <==> Phase(a, q) == Phase(b, q)
  {
    DivBounds(a, q);
    DivBounds(b, q);
    var k := a / q - b / q;
    assert k * q == (a / q) * q - (b / q) * q;
    if a % q >= b % q {
      ModUnique(a - b, q, k, a % q - b % q);
    } else {
      assert (k - 1) * q == k * q - q;
      ModUnique(a - b, q, k - 1, a % q - b % q + q);
    }
  }

  /** Two values of the same phase less than a quantum apart are equal. */
  lemma SamePhaseClose(a: int, b: int, q: int)
    requires q > 0 && SamePhase(a, b, q) && -q < a - b < q
    ensures a == b
  {
    var k := (a - b) / q;
    DivBounds(a - b, q);
    assert k * q == a - b;
    MultipleOrder(k, 0, q);
    MultipleOrder(0, k, q);
  }

  /** `AlignUp` is the least value at or above `x` with the phase of `t`:
      the window and the phase pin it down. */
  lemma AlignUpUnique(x: int, t: int, q: int, r: int)
    requires q > 0
    ensures r == AlignUp(x, t, q) <==> x <= r < x + q && SamePhase(r, t, q)
  {
    var a := AlignUp(x, t, q);
    AlignUpPhase(x, t, q);
    if x <= r < x + q && SamePhase(r, t, q) {
      SamePhaseIff(r, t, q);
      SamePhaseIff(a, t, q);
      SamePhaseIff(r, a, q);
      SamePhaseClose(r, a, q);
    }
  }

  lemma AlignUpPhase(x: int, t: int, q: int)
    requires q > 0
    ensures SamePhase(AlignUp(x, t, q), t, q)
  {
    var d := t % q - x % q;
    DivBounds(d, q);
    DivBounds(x, q);
    DivBounds(t, q);
    MultipleSum(x / q, t / q, d / q, q);
    assert x + d % q - t == (x / q - t / q - d / q) * q;
    ModOfMultiple(x / q - t / q - d / q, q);
  }

  lemma MultipleSum(i: int, j: int, k: int, q: int)
    ensures (i - j - k) * q == i * q - j * q - k * q
  {
  }

  /** Shifting value and target together shifts the alignment. */
  lemma AlignNearShift(x: int, t: int, k: int, q: int)
    ensures AlignNear(x + k, t + k, q) == AlignNear(x, t, q) + k
  {
    if q > 0 {
      var r := AlignNear(x, t, q);
      AlignUpUnique(x - q / 2, t, q, r);
      assert (r + k) - (t + k) == r - t;
      AlignUpUnique((x + k) - q / 2, t + k, q, r + k);
    }
  }

  /** `AlignNear` moves by at most half a quantum, a tie resolving downward,
      and lands on the target's phase. */
  lemma AlignNearNearest(x: int, t: int, q: int)
    requires q > 0
    ensures SamePhase(AlignNear(x, t, q), t, q)
    ensures -q <= 2 * (AlignNear(x, t, q) - x) < q + 1
    ensures 2 * Abs(AlignNear(x, t, q) - x) == q ==> AlignNear(x, t, q) < x
  {
    AlignUpUnique(x - q / 2, t, q, AlignNear(x, t, q));
  }

  /** A peer's session offset is its beat origin aligned to a whole number of
      quanta. */
  lemma SessionOffsetIs(tl: Timeline, q: int)
    requires tl.tempo > 0
    ensures SessionOffset(tl, q) == AlignNear(tl.beatOrigin, 0, q)
  {
    assert (tl.timeOrigin - tl.timeOrigin) * MICRO == 0;
    RoundDivExact(0, tl.tempo);
  }

  /** Closed form of the reported beat: beats since the origin plus the session
      offset, for every quantum. */
  lemma AppBeatClosedForm(tl: Timeline, g: int, q: int)
    requires tl.tempo > 0
    ensures AppBeatAtGhost(tl, g, q) == BeatsAtGhost(tl, g) - tl.beatOrigin + SessionOffset(tl, q)
  {
    SessionOffsetIs(tl, q);
    AlignNearShift(tl.beatOrigin, 0, BeatsAtGhost(tl, g) - tl.beatOrigin, q);
  }

  /** Closed form of the inverse, ties included. */
  lemma GhostAtAppBeatClosedForm(tl: Timeline, b: int, q: int)
    requires tl.tempo > 0
    ensures GhostAtAppBeat(tl, b, q) == GhostAtBeats(tl, b - SessionOffset(tl, q) + tl.beatOrigin)
  {
    SessionOffsetIs(tl, q);
    if q > 0 {
      var o, off := tl.beatOrigin, AlignNear(tl.beatOrigin, 0, q);
      var p := Phase(b - o, q);
      AlignUpUnique(o - q / 2, 0, q, off);
      InversePhase(b, o, off, q);
      AlignUpUnique(q - p - q / 2, q - Phase(b, q), q, q - p - o + off);
      assert AlignNear(q - p, q - Phase(b, q), q) == q - p - o + off;
    }
  }

  lemma InversePhase(b: int, o: int, off: int, q: int)
    requires q > 0 && SamePhase(off, 0, q)
    ensures SamePhase(q - Phase(b - o, q) - o + off, q - Phase(b, q), q)
  {
    var r := b - o;
    DivBounds(off, q);
    DivBounds(r, q);
    DivBounds(b, q);
    var k := off / q + r / q - b / q;
    assert k * q == (off / q) * q + (r / q) * q - (b / q) * q;
    ModOfMultiple(k, q);
  }

  /** Beat to time to beat through any quantum: within eight micro-beats always,
      the identity when a beat lasts at least a second. */
  lemma AppBeatRoundTrip(tl: Timeline, b: int, q: int)
    requires Clamped(tl.tempo)
    ensures Abs(AppBeatAtGhost(tl, GhostAtAppBeat(tl, b, q), q) - b) <= 8
    ensures tl.tempo >= MICRO ==> AppBeatAtGhost(tl, GhostAtAppBeat(tl, b, q), q) == b
  {
    GhostAtAppBeatClosedForm(tl, b, q);
    AppBeatClosedForm(tl, GhostAtAppBeat(tl, b, q), q);
    BeatRoundTrip(tl, b - SessionOffset(tl, q) + tl.beatOrigin);
  }

  /** ... and it is the identity on every beat only then. */
  lemma AppBeatRoundTripIdentityIff(tl: Timeline, q: int)
    requires Clamped(tl.tempo)
    ensures (forall b :: AppBeatAtGhost(tl, GhostAtAppBeat(tl, b, q), q) == b) <==> tl.tempo >= MICRO
  {
    if tl.tempo >= MICRO {
      forall b ensures AppBeatAtGhost(tl, GhostAtAppBeat(tl, b, q), q) == b {
        AppBeatRoundTrip(tl, b, q);
      }
    } else if forall b :: AppBeatAtGhost(tl, GhostAtAppBeat(tl, b, q), q) == b {
      forall b ensures BeatsAtGhost(tl, GhostAtBeats(tl, b)) == b {
        var b' := b + SessionOffset(tl, q) - tl.beatOrigin;
        GhostAtAppBeatClosedForm(tl, b', q);
        AppBeatClosedForm(tl, GhostAtAppBeat(tl, b', q), q);
        assert AppBeatAtGhost(tl, GhostAtAppBeat(tl, b', q), q) == b';
      }
      BeatRoundTripIdentityIff(tl);
    }
  }

  /** Time to beat to time: within a microsecond, whatever the quantum. */
  lemma AppTimeRoundTrip(tl: Timeline, g: int, q: int)
    requires Clamped(tl.tempo)
    ensures Abs(GhostAtAppBeat(tl, AppBeatAtGhost(tl, g, q), q) - g) <= 1
    ensures tl.tempo <= MICRO ==> GhostAtAppBeat(tl, AppBeatAtGhost(tl, g, q), q) == g
  {
    AppBeatClosedForm(tl, g, q);
    GhostAtAppBeatClosedForm(tl, AppBeatAtGhost(tl, g, q), q);
    GhostRoundTrip(tl, g);
  }

  /** Beat alignment across peers: material stamped with the sender's app beat
      at ghost time `g` and carried as `app - offset` is heard at exactly the
      receiver's app beat for the same instant, whatever the two quanta. */
  lemma BeatAlignment(tl: Timeline, g: int, senderQ: int, receiverQ: int)
    requires tl.tempo > 0
    ensures AppBeatAtGhost(tl, g, senderQ) - SessionOffset(tl, senderQ) + SessionOffset(tl, receiverQ)
         == AppBeatAtGhost(tl, g, receiverQ)
  {
    AppBeatClosedForm(tl, g, senderQ);
    AppBeatClosedForm(tl, g, receiverQ);
  }

  // ---------------------------------------------------- timeline rewrites

  /** The timeline emitted by a tempo change at ghost time `g`. */
  function Retempo(tl: Timeline, g: int, tempo: int): Timeline
    requires tl.tempo > 0
  {
    var now := BeatsAtGhost(tl, g);
    var origin := if now > tl.beatOrigin + 1 then now else tl.beatOrigin + 1;
    Timeline(ClampTempo(tempo), origin, GhostAtBeats(tl, origin))
  }

  /** A tempo change strictly raises the beat origin, so it wins the gossip
      priority rule; past the old origin it moves the current beat by at most 17
      micro-beats, and not at all when a beat lasted at most a second. */
  lemma RetempoContinuous(tl: Timeline, g: int, tempo: int)
    requires Clamped(tl.tempo)
    ensures Clamped(Retempo(tl, g, tempo).tempo) && Retempo(tl, g, tempo).beatOrigin > tl.beatOrigin
    ensures Retempo(tl, g, tempo).beatOrigin >= BeatsAtGhost(tl, g)
    ensures BeatsAtGhost(tl, g) > tl.beatOrigin ==>
              Abs(BeatsAtGhost(Retempo(tl, g, tempo), g) - BeatsAtGhost(tl, g))
              <= (if tl.tempo <= MICRO then 0 else 17)
  {
    if BeatsAtGhost(tl, g) > tl.beatOrigin {
      GhostRoundTrip(tl, g);
      var dt := g - GhostAtBeats(tl, BeatsAtGhost(tl, g));
      if dt == 0 {
        RoundDivExact(0, ClampTempo(tempo));
      } else {
        OneMicrosecond(dt, ClampTempo(tempo));
      }
    }
  }

  /** A microsecond is at most seventeen micro-beats at a clamped tempo. */
  lemma OneMicrosecond(dt: int, tempo: int)
    requires Clamped(tempo) && -1 <= dt <= 1
    ensures Abs(RoundDiv(dt * MICRO, tempo)) <= 17
  {
    RoundDivNearest(dt * MICRO, tempo);
    var r := RoundDiv(dt * MICRO, tempo);
    assert (-r) * tempo == -(r * tempo);
    AtMost(Abs(r), 17, tempo, MICRO + tempo / 2);
  }

  /** Continuity at `g`: the current beat does not move. */
  predicate BeatKept(tl: Timeline, g: int, tempo: int)
    requires tl.tempo > 0
  {
    BeatsAtGhost(Retempo(tl, g, tempo), g) == BeatsAtGhost(tl, g)
  }

  /** A tempo change keeps the current beat at every instant past the old origin
      exactly if a beat lasted at most a second, or will last more than two. */
  lemma RetempoContinuousIff(tl: Timeline, tempo: int)
    requires Clamped(tl.tempo)
    ensures (forall g :: BeatsAtGhost(tl, g) > tl.beatOrigin ==> BeatKept(tl, g, tempo))
       <==> tl.tempo <= MICRO || ClampTempo(tempo) > 2 * MICRO
  {
    if tl.tempo <= MICRO || ClampTempo(tempo) > 2 * MICRO {
      forall g | BeatsAtGhost(tl, g) > tl.beatOrigin ensures BeatKept(tl, g, tempo) {
        KeptIff(tl, g, tempo);
        GhostRoundTrip(tl, g);
      }
    } else if forall g :: BeatsAtGhost(tl, g) > tl.beatOrigin ==> BeatKept(tl, g, tempo) {
      forall x | x >= tl.tempo ensures Exact(x, MICRO, tl.tempo) {
        var g := tl.timeOrigin + x;
        PastTheOrigin(tl, x);
        assert BeatKept(tl, g, tempo);
        KeptIff(tl, g, tempo);
        GhostRoundTripIs(tl, g);
      }
      ExactBeyondMeansSteep(MICRO, tl.tempo);
    }
  }

  /** The beat is kept exactly if the time comes back exactly or the new tempo rounds
      the missing microsecond away. */
  lemma KeptIff(tl: Timeline, g: int, tempo: int)
    requires Clamped(tl.tempo) && BeatsAtGhost(tl, g) > tl.beatOrigin
    ensures BeatKept(tl, g, tempo)
       <==> GhostAtBeats(tl, BeatsAtGhost(tl, g)) == g || ClampTempo(tempo) > 2 * MICRO
  {
    hide RoundDiv, GhostAtBeats;
    GhostRoundTrip(tl, g);
    RetempoBeat(tl, g, tempo);
    var dt := g - GhostAtBeats(tl, BeatsAtGhost(tl, g));
    if dt == 0 {
      RoundDivExact(0, ClampTempo(tempo));
    } else {
      MicrosecondRounds(dt, ClampTempo(tempo));
    }
  }

  lemma RetempoBeat(tl: Timeline, g: int, tempo: int)
    requires tl.tempo > 0 && BeatsAtGhost(tl, g) > tl.beatOrigin
    ensures BeatsAtGhost(Retempo(tl, g, tempo), g)
         == BeatsAtGhost(tl, g) + RoundDiv((g - GhostAtBeats(tl, BeatsAtGhost(tl, g))) * MICRO, ClampTempo(tempo))
  {
  }

  /** A microsecond rounds to no micro-beat exactly if a beat lasts over two seconds. */
  lemma MicrosecondRounds(dt: int, tempo: int)
    requires Clamped(tempo) && -1 <= dt <= 1 && dt != 0
    ensures RoundDiv(dt * MICRO, tempo) == 0 <==> tempo > 2 * MICRO
  {
    RoundDivNearest(dt * MICRO, tempo);
    if tempo > 2 * MICRO {
      RoundDivUnique(dt * MICRO, tempo, 0);
    } else if RoundDiv(dt * MICRO, tempo) == 0 {
      assert 0 * tempo == 0;
      RoundDivTie(MICRO, tempo);
    }
  }

  /** One beat in, the old timeline is past its origin. */
  lemma PastTheOrigin(tl: Timeline, x: int)
    requires Clamped(tl.tempo) && x >= tl.tempo
    ensures BeatsAtGhost(tl, tl.timeOrigin + x) > tl.beatOrigin
  {
    assert tl.tempo * MICRO == MICRO * tl.tempo;
    RoundDivExact(MICRO, tl.tempo);
    MulMono(tl.tempo, x, MICRO);
    RoundDivMonotone(tl.tempo * MICRO, x * MICRO, tl.tempo);
  }

  /** Seventeen micro-beats are attained. */
  lemma RetempoBoundIsTight()
    ensures var tl := Timeline(2_000_000, 0, 0);
            BeatsAtGhost(tl, 1) == 1 && BeatsAtGhost(Retempo(tl, 1, TEMPO_MIN), 1) == -16
  {
  }

  /** The tempo that is set is the nearest one allowed: the requested one, if in range. */
  lemma ClampNearest(tempo: int, other: int)
    requires Clamped(other)
    ensures Clamped(ClampTempo(tempo)) && Abs(ClampTempo(tempo) - tempo) <= Abs(other - tempo)
    ensures Clamped(tempo) <==> ClampTempo(tempo) == tempo
  {
  }

  /** Two beats of one timeline are as far apart as its tempo says, to within a
      micro-beat; both sides are scaled by the tempo. */
  lemma BeatsApart(tl: Timeline, g: int, dt: int)
    requires tl.tempo > 0
    ensures Abs((BeatsAtGhost(tl, g + dt) - BeatsAtGhost(tl, g)) * tl.tempo - dt * MICRO) <= tl.tempo
  {
    hide RoundDiv;
    var x, y := (g - tl.timeOrigin) * MICRO, (g + dt - tl.timeOrigin) * MICRO;
    assert y == x + dt * MICRO;
    RoundDivNearest(x, tl.tempo);
    RoundDivNearest(y, tl.tempo);
    assert (RoundDiv(y, tl.tempo) - RoundDiv(x, tl.tempo)) * tl.tempo
        == RoundDiv(y, tl.tempo) * tl.tempo - RoundDiv(x, tl.tempo) * tl.tempo;
  }

  /** After a tempo change beats run at the requested tempo, whenever that is allowed, and
      else at the nearest that is. */
  lemma RetempoRuns(tl: Timeline, at: int, tempo: int, g: int, dt: int)
    requires tl.tempo > 0
    ensures var n, t := Retempo(tl, at, tempo), ClampTempo(tempo);
            Abs((BeatsAtGhost(n, g + dt) - BeatsAtGhost(n, g)) * t - dt * MICRO) <= t
    ensures Clamped(tempo) ==> Retempo(tl, at, tempo).tempo == tempo
  {
    BeatsApart(Retempo(tl, at, tempo), g, dt);
  }

  /** Old and new timeline meet at the new origin, to within eight micro-beats, whether
      the change came before the old origin or after it. */
  lemma RetempoMeets(tl: Timeline, g: int, tempo: int)
    requires Clamped(tl.tempo)
    ensures var n := Retempo(tl, g, tempo);
            && BeatsAtGhost(n, n.timeOrigin) == n.beatOrigin
            && Abs(BeatsAtGhost(tl, n.timeOrigin) - n.beatOrigin) <= 8
            && n.beatOrigin >= BeatsAtGhost(tl, g) && n.beatOrigin > tl.beatOrigin
            && (n.beatOrigin == BeatsAtGhost(tl, g) || n.beatOrigin == tl.beatOrigin + 1)
  {
    var n := Retempo(tl, g, tempo);
    RoundDivExact(0, n.tempo);
    BeatRoundTrip(tl, n.beatOrigin);
  }

  /** The timeline of a session founded at ghost time `g` of the old one; its
      own ghost clock starts at zero at that instant. */
  function Refound(tl: Timeline, g: int): Timeline
    requires tl.tempo > 0
  {
    Timeline(tl.tempo, BeatsAtGhost(tl, g), 0)
  }

  /** Founding a fresh session keeps the beat exact at that instant and within
      one micro-beat at every other one. */
  lemma RefoundContinuous(tl: Timeline, g: int, dt: int)
    requires tl.tempo > 0
    ensures Refound(tl, g).tempo == tl.tempo
    ensures BeatsAtGhost(Refound(tl, g), 0) == BeatsAtGhost(tl, g)
    ensures Abs(BeatsAtGhost(Refound(tl, g), dt) - BeatsAtGhost(tl, g + dt)) <= 1
  {
    RoundDivExact(0, tl.tempo);
    assert (g + dt - tl.timeOrigin) * MICRO == (g - tl.timeOrigin) * MICRO + dt * MICRO;
    RoundDivAdd((g - tl.timeOrigin) * MICRO, dt * MICRO, tl.tempo);
  }
}
