/**
 The sender's queue seen as a list of frame counts: what is left of it once frames
 were cut, how far its first runs reach, and what a write does to it.
 */
module FrameCounts {
  import opened Types
  import opened BeatGrid
  import opened AudioSink
  import opened EmittedStamps

  /** The runs that hold a whole frame. */
  function NonZero(c: seq<nat>): (r: seq<nat>)
    ensures AllPositive(r)
  {
    if c == [] then [] else if c[0] == 0 then NonZero(c[1..]) else [c[0]] + NonZero(c[1..])
  }

  predicate AllPositive(c: seq<nat>) {
    forall i :: 0 <= i < |c| ==> c[i] > 0
  }

  /** The runs of a queue, in frames. */
  function Runs(segs: seq<Segment>, ch: nat): (r: seq<nat>)
    requires ch > 0
    ensures AllPositive(r)
  {
    NonZero(Counts(segs, ch))
  }

  /** What is left once `k` frames are cut from the front. */
  function Drop(c: seq<nat>, k: nat): (r: seq<nat>)
    ensures k <= Sum(c) ==> Sum(r) == Sum(c) - k
    ensures AllPositive(c) ==> AllPositive(r)
    decreases |c|
  {
    if c == [] then []
    else if c[0] <= k then Drop(c[1..], k - c[0])
    else
      var r := [c[0] - k] + c[1..];
      assert r[1..] == c[1..];
      r
  }

  /** The last run extended by `m` frames. */
  function Grow(c: seq<nat>, m: nat): (r: seq<nat>)
    requires c != []
    ensures r != [] && Sum(r) == Sum(c) + m
    ensures AllPositive(c) ==> AllPositive(r)
  {
    if |c| == 1 then
      var r := [c[0] + m];
      assert r[1..] == c[1..] == [];
      r
    else
      var r := [c[0]] + Grow(c[1..], m);
      assert r[1..] == Grow(c[1..], m);
      r
  }

  /** Frames of the first `r` runs that hold any. */
  function Leading(c: seq<nat>, r: nat): nat {
    if c == [] || r == 0 then 0
    else if c[0] == 0 then Leading(c[1..], r)
    else c[0] + Leading(c[1..], r - 1)
  }

  // ------------------------------------------------------------ lists of counts

  lemma {:induction false} SumAppend(a: seq<nat>, b: seq<nat>)
    ensures Sum(a + b) == Sum(a) + Sum(b)
  {
    if a == [] {
      assert a + b == b;
    } else {
      assert (a + b)[1..] == a[1..] + b;
      SumAppend(a[1..], b);
    }
  }

  lemma SumOne(m: nat)
    ensures Sum([m]) == m
  {
    var one: seq<nat> := [m];
    assert one[1..] == [];
  }

  lemma {:induction false} NonZeroAppend(a: seq<nat>, b: seq<nat>)
    ensures NonZero(a + b) == NonZero(a) + NonZero(b)
  {
    if a == [] {
      assert a + b == b;
    } else {
      assert (a + b)[1..] == a[1..] + b;
      NonZeroAppend(a[1..], b);
    }
  }

  lemma NonZeroOne(m: nat)
    ensures NonZero([m]) == if m == 0 then [] else [m]
  {
    var one: seq<nat> := [m];
    assert one[1..] == [];
  }

  lemma {:induction false} DropNothing(c: seq<nat>)
    requires AllPositive(c)
    ensures Drop(c, 0) == c
  {
  }

  lemma {:induction false} DropAll(c: seq<nat>, k: nat)
    requires Sum(c) <= k
    ensures Drop(c, k) == []
  {
    if c != [] {
      DropAll(c[1..], k - c[0]);
    }
  }

  lemma {:induction false} DropTwice(c: seq<nat>, j: nat, k: nat)
    ensures Drop(Drop(c, j), k) == Drop(c, j + k)
    decreases |c|
  {
    if c != [] {
      if c[0] <= j {
        DropTwice(c[1..], j - c[0], k);
      } else {
        var cut := [c[0] - j] + c[1..];
        assert cut[1..] == c[1..];
      }
    }
  }

  lemma {:induction false} DropAppend(a: seq<nat>, b: seq<nat>, k: nat)
    requires k <= Sum(a) && AllPositive(b)
    ensures Drop(a + b, k) == Drop(a, k) + b
    decreases |a|
  {
    if a == [] {
      assert a + b == b;
      DropNothing(b);
    } else {
      assert (a + b)[1..] == a[1..] + b;
      if a[0] <= k {
        DropAppend(a[1..], b, k - a[0]);
      }
    }
  }

  lemma GrowOne(n: nat, m: nat)
    ensures Grow([n], m) == [n + m] && [n + m][1..] == []
  {
  }

  lemma GrowFront(a: nat, c: seq<nat>, m: nat)
    requires c != []
    ensures Grow([a] + c, m) == [a] + Grow(c, m)
  {
    assert ([a] + c)[1..] == c;
  }

  lemma {:induction false} DropGrow(c: seq<nat>, m: nat, k: nat)
    requires c != [] && k < Sum(c)
    ensures Drop(c, k) != [] && Drop(Grow(c, m), k) == Grow(Drop(c, k), m)
    decreases |c|
  {
    var g := Grow(c, m);
    if |c| == 1 {
      assert c[1..] == [] && g[1..] == [];
    } else if c[0] <= k {
      assert g[1..] == Grow(c[1..], m);
      DropGrow(c[1..], m, k - c[0]);
    } else {
      var cut := [c[0] - k] + c[1..];
      assert cut[1..] == c[1..] && g[1..] == Grow(c[1..], m);
    }
  }

  /** Growing a fully cut list leaves what it grew by. */
  lemma {:induction false} DropGrowAll(c: seq<nat>, m: nat)
    requires c != [] && m > 0
    ensures Drop(Grow(c, m), Sum(c)) == [m]
    decreases |c|
  {
    var g := Grow(c, m);
    if |c| == 1 {
      assert c[1..] == [] && g[1..] == [];
    } else {
      assert g[1..] == Grow(c[1..], m);
      DropGrowAll(c[1..], m);
    }
  }

  lemma {:induction false} LeadingMore(c: seq<nat>, r: nat)
    ensures Leading(c, r) <= Leading(c, r + 1) <= Sum(c)
  {
    if c != [] {
      if c[0] == 0 {
        LeadingMore(c[1..], r);
      } else if r > 0 {
        LeadingMore(c[1..], r - 1);
      } else {
        assert Leading(c[1..], 0) == 0;
      }
    }
  }

  lemma {:induction false} LeadingNonZero(c: seq<nat>, r: nat)
    ensures Leading(NonZero(c), r) == Leading(c, r)
  {
    if c != [] && r > 0 {
      if c[0] == 0 {
        LeadingNonZero(c[1..], r);
      } else {
        assert NonZero(c)[1..] == NonZero(c[1..]);
        LeadingNonZero(c[1..], r - 1);
      }
    }
  }

  // ------------------------------------------------------- the queue as a list

  /** Runs without a whole frame do not affect the plan. */
  lemma {:induction false} PlanOfRuns(c: seq<nat>, left: nat, fb: nat, z: Sizing)
    requires fb > 0 && ValidSizing(z)
    ensures PlanFrom(NonZero(c), left, fb, z) == PlanFrom(c, left, fb, z)
    decreases |c|, if c == [] then 0 else c[0]
  {
    if c != [] {
      if c[0] == 0 {
        PlanOfRuns(c[1..], left, fb, z);
      } else if left >= z.record + fb {
        TakeSizeFits(c[0], left, fb, z);
        var take := TakeSize(c[0], left, fb, z);
        var cut, left' := [c[0] - take] + c[1..], left - z.record - take * fb;
        assert cut[1..] == c[1..] && NonZero(c)[1..] == NonZero(c[1..]);
        PlanOfRuns(cut, left', fb, z);
        var front := [c[0] - take] + NonZero(c[1..]);
        assert front[1..] == NonZero(c[1..]);
        assert PlanFrom(front, left', fb, z) == PlanFrom(NonZero(cut), left', fb, z);
      }
    }
  }

  lemma {:induction false} RunsSkipShort(segs: seq<Segment>, ch: nat)
    requires ch > 0
    ensures Runs(DropShort(segs, ch), ch) == Runs(segs, ch)
  {
    if segs != [] && |segs[0].samples| < ch {
      NoWholeFrame(segs, ch);
      RunsSkipShort(segs[1..], ch);
    }
  }

  lemma RunsAfterCut(segs: seq<Segment>, take: nat, ch: nat, rate: int)
    requires ch > 0 && rate > 0 && Timed(segs) && segs != [] && 0 < take && take * ch <= |segs[0].samples|
    ensures Runs(CutFront(segs, take, ch, rate), ch) == Drop(Runs(segs, ch), take)
  {
    CutArithmetic(|segs[0].samples|, take, ch);
    var c, rest := Counts(segs, ch), Advance(segs[0], take, ch, rate);
    assert c[1..] == Counts(segs[1..], ch);
    var after := [c[0] - take] + c[1..];
    assert after[1..] == c[1..];
    assert NonZero(c)[1..] == NonZero(c[1..]);
    DropNothing(NonZero(c[1..]));
    if rest.samples != [] {
      assert ([rest] + segs[1..])[1..] == segs[1..];
    }
  }

  /** Cutting a datagram drops its frames from the runs. */
  lemma {:induction false} RunsAfterConsume(segs: seq<Segment>, takes: seq<nat>, nextSeq: nat, ch: nat, rate: int)
    requires ch > 0 && rate > 0 && Timed(segs) && Feasible(segs, takes, ch, rate) && AllPositive(takes)
    ensures Runs(Consume(segs, takes, nextSeq, ch, rate).segs, ch) == Drop(Runs(segs, ch), Sum(takes))
    decreases |takes|
  {
    hide Runs, Drop, CutFront, DropShort;
    if takes == [] {
      DropNothing(Runs(segs, ch));
    } else {
      var d := DropShort(segs, ch);
      RunsSkipShort(segs, ch);
      RunsAfterCut(d, takes[0], ch, rate);
      RunsAfterConsume(CutFront(d, takes[0], ch, rate), takes[1..], nextSeq + 1, ch, rate);
      DropTwice(Runs(segs, ch), takes[0], Sum(takes[1..]));
    }
  }

  lemma {:induction false} SumNonZero(c: seq<nat>)
    ensures Sum(NonZero(c)) == Sum(c)
  {
    if c != [] {
      SumNonZero(c[1..]);
      assert c[0] > 0 ==> NonZero(c)[1..] == NonZero(c[1..]);
    }
  }

  /** The write continues a pending run that holds a whole frame. */
  predicate Joins(segs: seq<Segment>, w: Write, ch: nat, rate: int)
    requires ch > 0 && rate > 0 && w.tempo > 0
  {
    Contiguous(segs, w.begin, w.tempo, rate, ch) && |segs[|segs| - 1].samples| >= ch
  }

  /** The runs once `m` frames are written. */
  function Extended(c: seq<nat>, m: nat, joins: bool): (r: seq<nat>)
    requires joins ==> c != []
    requires AllPositive(c)
    ensures AllPositive(r)
  {
    if m == 0 then c else if joins then Grow(c, m) else c + [m]
  }

  lemma {:induction false} LastRun(segs: seq<Segment>, ch: nat)
    requires ch > 0 && segs != [] && |segs[|segs| - 1].samples| >= ch
    ensures Runs(segs, ch) != []
  {
    if |segs| == 1 {
      OneFrame(|segs[0].samples|, ch);
    } else {
      assert segs[1..][|segs| - 2] == segs[|segs| - 1];
      assert Counts(segs, ch)[1..] == Counts(segs[1..], ch);
      LastRun(segs[1..], ch);
    }
  }

  lemma OneFrame(n: nat, ch: nat)
    requires ch > 0
    ensures n >= ch <==> n / ch > 0
  {
    DivBounds(n, ch);
    if n >= ch {
      Fits(1, n, ch);
    } else {
      ModUnique(n, ch, 0, n);
    }
  }

  /** Queueing a write extends the last run or adds one. */
  lemma {:induction false} RunsAfterEnqueue(segs: seq<Segment>, w: Write, ch: nat, rate: int)
    requires ch > 0 && rate > 0 && w.tempo > 0 && Aligned(segs, ch) && |w.samples| % ch == 0
    ensures Joins(segs, w, ch, rate) ==> Runs(segs, ch) != []
    ensures Runs(Enqueue(segs, w.begin, w.tempo, w.samples, rate, ch), ch)
         == Extended(Runs(segs, ch), |w.samples| / ch, Joins(segs, w, ch, rate))
    decreases |segs|
  {
    hide FramesToMicroBeats;
    var q, m := Enqueue(segs, w.begin, w.tempo, w.samples, rate, ch), |w.samples| / ch;
    if segs == [] {
      assert q == [Segment(w.begin, w.tempo, w.samples)] && q[1..] == [];
      assert Counts(q, ch) == [m];
      NonZeroOne(m);
    } else if |segs| == 1 && Contiguous(segs, w.begin, w.tempo, rate, ch) {
      var n := |segs[0].samples| / ch;
      FramesAdd(|segs[0].samples|, |w.samples|, ch);
      OneFrame(|segs[0].samples|, ch);
      assert q == [segs[0].(samples := segs[0].samples + w.samples)] && q[1..] == [] && segs[1..] == [];
      assert Counts(q, ch) == [n + m] && Counts(segs, ch) == [n];
      NonZeroOne(n + m);
      NonZeroOne(n);
    } else {
      EnqueueBehind(segs, w, ch, rate);
      RunsAfterEnqueue(segs[1..], w, ch, rate);
      BehindFirst(segs, q, w, ch, rate);
    }
  }

  lemma BehindFirst(segs: seq<Segment>, q: seq<Segment>, w: Write, ch: nat, rate: int)
    requires ch > 0 && rate > 0 && w.tempo > 0 && segs != [] && q != [] && q[0] == segs[0]
    requires |segs| > 1 || !Contiguous(segs, w.begin, w.tempo, rate, ch)
    requires Joins(segs[1..], w, ch, rate) ==> Runs(segs[1..], ch) != []
    requires Runs(q[1..], ch) == Extended(Runs(segs[1..], ch), |w.samples| / ch, Joins(segs[1..], w, ch, rate))
    ensures Joins(segs, w, ch, rate) ==> Runs(segs, ch) != []
    ensures Runs(q, ch) == Extended(Runs(segs, ch), |w.samples| / ch, Joins(segs, w, ch, rate))
  {
    hide FramesToMicroBeats;
    var n := |segs[0].samples| / ch;
    assert |segs| > 1 ==> segs[1..][|segs| - 2] == segs[|segs| - 1];
    assert Joins(segs, w, ch, rate) == Joins(segs[1..], w, ch, rate);
    assert Counts(segs, ch)[1..] == Counts(segs[1..], ch) && Counts(q, ch)[1..] == Counts(q[1..], ch);
    var tail := Runs(segs[1..], ch);
    if n > 0 {
      assert Runs(segs, ch) == [n] + tail && Runs(q, ch) == [n] + Runs(q[1..], ch);
      assert ([n] + tail)[1..] == tail;
    }
  }
}
