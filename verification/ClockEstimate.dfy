/**
 Clock-offset estimation. Samples are kept doubled, so the midpoint estimators are
 whole numbers: a sample `s` stands for an offset of `s / 2` microseconds.
 */
module ClockEstimate {
  import opened Wrappers
  import opened BeatGrid

  // ------------------------------------------------------------ estimators

  /** Twice `gt - (now + pht) / 2`: the pong's ghost time against the midpoint of
      the exchange on our clock. */
  function PongMidpoint(gt: int, now: int, pht: int): int {
    2 * gt - (now + pht)
  }

  /** Twice `(gt + pgt) / 2 - pht`: our ping against the midpoint of the two pongs
      around it. */
  function PingMidpoint(gt: int, pgt: int, pht: int): int {
    gt + pgt - 2 * pht
  }

  /** The samples one pong yields; a zero or missing time contributes nothing. */
  function SamplesFrom(gt: int, now: int, pht: Option<int>, pgt: Option<int>): seq<int> {
    if gt == 0 || pht.None? || pht.value == 0 then []
    else [PongMidpoint(gt, now, pht.value)]
         + (if pgt.Some? && pgt.value != 0 then [PingMidpoint(gt, pgt.value, pht.value)] else [])
  }

  method CollectSamples(gt: int, now: int, pht: Option<int>, pgt: Option<int>) returns (samples: seq<int>)
    ensures samples == SamplesFrom(gt, now, pht, pgt)
    ensures |samples| <= 2 && (samples == [] <==> gt == 0 || pht.None? || pht.value == 0)
  {
    samples := [];
    if gt != 0 && pht.Some? && pht.value != 0 {
      samples := samples + [2 * gt - (now + pht.value)];
      if pgt.Some? && pgt.value != 0 {
        samples := samples + [gt + pgt.value - 2 * pht.value];
      }
    }
  }

  /** One exchange in a chain, told on our clock: our ping left at `pht`, which is
      when the previous pong, `back0` under way, arrived; it reached the responder
      after `out`, whose pong came back after `back`. The responder's ghost clock is
      ours plus `theta`. */
  ghost predicate Exchange(gt: int, now: int, pht: int, pgt: int, theta: int, back0: int, out: int, back: int) {
    gt == pht + out + theta && now == pht + out + back && pgt == pht - back0 + theta
  }

  /** With every one-way delay in [0, d], both estimators lie within d/2 of the
      true offset. */
  lemma EstimatorsNear(gt: int, now: int, pht: int, pgt: int, theta: int, back0: int, out: int, back: int, d: int)
    requires Exchange(gt, now, pht, pgt, theta, back0, out, back)
    requires 0 <= back0 <= d && 0 <= out <= d && 0 <= back <= d
    ensures forall i :: 0 <= i < |SamplesFrom(gt, now, Some(pht), Some(pgt))| ==>
              2 * theta - d <= SamplesFrom(gt, now, Some(pht), Some(pgt))[i] <= 2 * theta + d
  {
  }

  // ---------------------------------------------------------------- median

  predicate Sorted(s: seq<int>) {
    forall i, j :: 0 <= i < j < |s| ==> s[i] <= s[j]
  }

  /** The median of sorted samples, rounded to microseconds. */
  function MedianOf(s: seq<int>): int
    requires s != []
  {
    var n := |s|;
    if n % 2 == 1 then RoundDiv(s[n / 2], 2) else RoundDiv(s[n / 2 - 1] + s[n / 2], 4)
  }

  /** Move element `k` left into place among the sorted ones before it. */
  method Insert(a: array<int>, k: nat)
    requires k < a.Length && Sorted(a[..k])
    modifies a
    ensures Sorted(a[..k + 1]) && multiset(a[..]) == multiset(old(a[..]))
  {
    var j := k;
    while j > 0 && a[j - 1] > a[j]
      invariant 0 <= j <= k
      invariant forall p, q :: 0 <= p < q <= k && q != j ==> a[p] <= a[q]
      invariant forall q :: j < q <= k ==> a[j] < a[q]
      invariant multiset(a[..]) == multiset(old(a[..]))
    {
      a[j - 1], a[j] := a[j], a[j - 1];
      j := j - 1;
    }
  }

  method Sort(a: array<int>)
    modifies a
    ensures Sorted(a[..]) && multiset(a[..]) == multiset(old(a[..]))
  {
    for k := 0 to a.Length
      invariant Sorted(a[..k]) && multiset(a[..]) == multiset(old(a[..]))
    {
      Insert(a, k);
    }
    assert a[..a.Length] == a[..];
  }

  /** The median of the collected samples; sorts them in place. */
  method MedianRound(a: array<int>) returns (r: int)
    requires a.Length > 0
    modifies a
    ensures Sorted(a[..]) && multiset(a[..]) == multiset(old(a[..])) && r == MedianOf(a[..])
  {
    Sort(a);
    var n := a.Length;
    if n % 2 == 1 {
      r := RoundDiv(a[n / 2], 2);
    } else {
      r := RoundDiv(a[n / 2 - 1] + a[n / 2], 4);
    }
  }

  // ------------------------------------------------------------ robustness

  /** How many samples lie in the band. */
  function Count(s: seq<int>, lo: int, hi: int): nat {
    if s == [] then 0 else (if lo <= s[0] <= hi then 1 else 0) + Count(s[1..], lo, hi)
  }

  lemma {:induction false} CountAppend(a: seq<int>, b: seq<int>, lo: int, hi: int)
    ensures Count(a + b, lo, hi) == Count(a, lo, hi) + Count(b, lo, hi)
  {
    if a == [] {
      assert a + b == b;
    } else {
      assert (a + b)[1..] == a[1..] + b;
      CountAppend(a[1..], b, lo, hi);
    }
  }

  lemma {:induction false} CountAtMost(s: seq<int>, lo: int, hi: int)
    ensures Count(s, lo, hi) <= |s|
    ensures (forall i :: 0 <= i < |s| ==> s[i] < lo) || (forall i :: 0 <= i < |s| ==> s[i] > hi) ==>
              Count(s, lo, hi) == 0
  {
    if s != [] {
      CountAtMost(s[1..], lo, hi);
    }
  }

  /** The count depends only on which samples there are. */
  lemma {:induction false} CountOfMultiset(a: seq<int>, b: seq<int>, lo: int, hi: int)
    requires multiset(a) == multiset(b)
    ensures Count(a, lo, hi) == Count(b, lo, hi) && |a| == |b|
    decreases |a|
  {
    hide Count;
    assert |multiset(a)| == |a| && |multiset(b)| == |b|;
    if a != [] {
      assert a[0] in multiset(b) by {
        assert a[0] in multiset(a);
      }
      var i :| 0 <= i < |b| && b[i] == a[0];
      assert multiset(a[1..]) == multiset(a) - multiset{a[0]} by {
        assert a == [a[0]] + a[1..];
      }
      WithoutOne(b, i);
      var rest := b[..i] + b[i + 1..];
      CountOfMultiset(a[1..], rest, lo, hi);
      CountHead(a, lo, hi);
      CountSplit(b, i, lo, hi);
    } else {
      assert b == [];
    }
  }

  lemma CountHead(a: seq<int>, lo: int, hi: int)
    requires a != []
    ensures Count(a, lo, hi) == Count(a[1..], lo, hi) + (if lo <= a[0] <= hi then 1 else 0)
  {
  }

  lemma WithoutOne(b: seq<int>, i: nat)
    requires i < |b|
    ensures multiset(b[..i] + b[i + 1..]) == multiset(b) - multiset{b[i]}
  {
    assert b == b[..i] + [b[i]] + b[i + 1..];
  }

  lemma CountSplit(b: seq<int>, i: nat, lo: int, hi: int)
    requires i < |b|
    ensures Count(b, lo, hi) == Count(b[..i] + b[i + 1..], lo, hi) + (if lo <= b[i] <= hi then 1 else 0)
  {
    assert b == b[..i] + b[i..];
    CountAppend(b[..i], b[i..], lo, hi);
    CountAppend(b[..i], b[i + 1..], lo, hi);
    assert b[i..][1..] == b[i + 1..];
  }

  /** In sorted samples, an index with more than half of them in the band on each
      account is itself in the band. */
  lemma MajorityAt(s: seq<int>, k: nat, lo: int, hi: int)
    requires Sorted(s) && k < |s|
    requires Count(s, lo, hi) > |s| - 1 - k && Count(s, lo, hi) > k
    ensures lo <= s[k] <= hi
  {
    if s[k] < lo {
      assert s == s[..k + 1] + s[k + 1..];
      CountAppend(s[..k + 1], s[k + 1..], lo, hi);
      CountAtMost(s[..k + 1], lo, hi);
      CountAtMost(s[k + 1..], lo, hi);
    } else if s[k] > hi {
      assert s == s[..k] + s[k..];
      CountAppend(s[..k], s[k..], lo, hi);
      CountAtMost(s[..k], lo, hi);
      CountAtMost(s[k..], lo, hi);
    }
  }

  /** The rounded median is robust: if a strict majority of the samples lies within
      d/2 of the true offset, it lies within d/2 + 1/2, for odd and even counts and
      whatever the rest are. */
  lemma MedianRobust(samples: seq<int>, sorted: seq<int>, theta: int, d: int)
    requires samples != [] && Sorted(sorted) && multiset(sorted) == multiset(samples)
    requires 2 * Count(samples, 2 * theta - d, 2 * theta + d) > |samples|
    ensures sorted != [] && 2 * Abs(MedianOf(sorted) - theta) <= d + 1
  {
    var lo, hi, n := 2 * theta - d, 2 * theta + d, |samples|;
    CountOfMultiset(samples, sorted, lo, hi);
    CountAtMost(sorted, lo, hi);
    MajorityAt(sorted, n / 2, lo, hi);
    if n % 2 == 1 {
      RoundDivNearest(sorted[n / 2], 2);
    } else {
      MajorityAt(sorted, n / 2 - 1, lo, hi);
      RoundDivNearest(sorted[n / 2 - 1] + sorted[n / 2], 4);
    }
  }

  /** Twice the middle of sorted samples: the middle one, or the mean of the middle two. */
  function DoubledMiddle(s: seq<int>): int
    requires s != []
  {
    if |s| % 2 == 1 then 2 * s[|s| / 2] else s[|s| / 2 - 1] + s[|s| / 2]
  }

  /** The median is the whole microsecond nearest to the middle, a tie going away from
      zero; a sample being a doubled offset, the middle is quadrupled here. */
  lemma MedianNearest(s: seq<int>, m: int)
    requires s != []
    ensures Abs(4 * MedianOf(s) - DoubledMiddle(s)) <= 2
    ensures Abs(4 * m - DoubledMiddle(s)) <= 2 && Abs(m) >= Abs(MedianOf(s)) ==> m == MedianOf(s)
  {
    var n := |s|;
    if n % 2 == 1 {
      RoundDivNearest(s[n / 2], 2);
    } else {
      RoundDivNearest(s[n / 2 - 1] + s[n / 2], 4);
    }
  }

  /** The result does not depend on the order the samples came in. */
  lemma {:induction false} SortedUnique(a: seq<int>, b: seq<int>)
    requires Sorted(a) && Sorted(b) && multiset(a) == multiset(b)
    ensures a == b
    decreases |a|
  {
    assert |multiset(a)| == |a| && |multiset(b)| == |b|;
    if a != [] {
      assert a[0] in multiset(b) && b[0] in multiset(a);
      assert a[0] == b[0];
      assert a == [a[0]] + a[1..] && b == [b[0]] + b[1..];
      assert multiset(a[1..]) == multiset(a) - multiset{a[0]};
      assert multiset(b[1..]) == multiset(b) - multiset{b[0]};
      SortedUnique(a[1..], b[1..]);
    }
  }
}
