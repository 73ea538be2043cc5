/**
 How many chunks a datagram of reference sizing holds, and with them whether it fits
 1200 bytes: in terms of the queue, and of the writes its block of the stream is made of.
 */
module ChunkCounts {
  import opened Types
  import opened Wrappers
  import opened BeatGrid
  import opened AudioWire
  import opened AudioSink
  import opened AudioSender
  import opened AudioStream
  import opened EmittedStamps
  import opened FrameCounts

  // -------------------------------------------------------------- on the queue

  /** A plan without record cost has at most `r` chunks exactly if the first `r` runs
      cover the frames the budget allows. */
  lemma {:induction false} LeadingPlan(c: seq<nat>, left: nat, fb: nat, r: nat)
    requires fb > 0 && left / fb <= Sum(c)
    ensures |PlanFrom(c, left, fb, REFERENCE).takes| <= r <==> Leading(c, r) >= left / fb
    decreases |c|, r
  {
    hide PlanFrom;
    DivBounds(left, fb);
    if left < fb {
      ModUnique(left, fb, 0, left);
      NoRoom(c, left, fb, REFERENCE);
    } else {
      Fits(1, left, fb);
      if c[0] == 0 {
        PlanSkipsZero(c, left, fb, REFERENCE);
        LeadingPlan(c[1..], left, fb, r);
      } else {
        ReferenceStep(c, left, fb);
        if c[0] < left / fb && r > 0 {
          LeadingPlan(c[1..], left - c[0] * fb, fb, r - 1);
        }
      }
    }
  }

  /** The first run is taken whole, or ends the plan. */
  lemma ReferenceStep(c: seq<nat>, left: nat, fb: nat)
    requires fb > 0 && c != [] && c[0] > 0 && left >= fb
    ensures var p := PlanFrom(c, left, fb, REFERENCE);
            if c[0] < left / fb then
              && left >= c[0] * fb && (left - c[0] * fb) / fb == left / fb - c[0]
              && p.takes == [c[0]] + PlanFrom(c[1..], left - c[0] * fb, fb, REFERENCE).takes
            else p.takes == [left / fb]
  {
    var take := Min(c[0], left / fb);
    DivBounds(left, fb);
    TakeSizeFits(c[0], left, fb, REFERENCE);
    CutArithmetic(left, take, fb);
    var cut := [c[0] - take] + c[1..];
    assert cut[1..] == c[1..];
    if take == c[0] {
      PlanSkipsZero(cut, left - take * fb, fb, REFERENCE);
    }
    if take == left / fb {
      NoRoom(cut, left - take * fb, fb, REFERENCE);
    }
  }

  /** A reference datagram draws on every frame of its block. */
  lemma ReferenceFrames(segs: seq<Segment>, ch: nat)
    requires ch > 0 && Full(NextPlan(segs, ch, REFERENCE), 2 * ch, REFERENCE)
    ensures Sum(NextPlan(segs, ch, REFERENCE).takes) == BlockFrames(ch) <= Sum(Counts(segs, ch))
  {
    var p, fb := NextPlan(segs, ch, REFERENCE), 2 * ch;
    PlanProperties(Counts(segs, ch), SAMPLE_BYTE_CAP, fb, REFERENCE);
    ModUnique(SAMPLE_BYTE_CAP, fb, Sum(p.takes), p.left) by { assert fb * Sum(p.takes) == Sum(p.takes) * fb; }
  }

  /** A queue fills a reference datagram exactly if it holds a block. */
  lemma ReferenceFullIff(segs: seq<Segment>, ch: nat)
    requires 0 < ch <= 251
    ensures Full(NextPlan(segs, ch, REFERENCE), 2 * ch, REFERENCE) <==> Sum(Counts(segs, ch)) >= BlockFrames(ch)
  {
    if Full(NextPlan(segs, ch, REFERENCE), 2 * ch, REFERENCE) {
      ReferenceFrames(segs, ch);
    } else {
      PendingFrames(segs, ch);
    }
  }

  lemma ReferenceChunks(segs: seq<Segment>, ch: nat, r: nat)
    requires ch > 0 && Full(NextPlan(segs, ch, REFERENCE), 2 * ch, REFERENCE)
    ensures |NextPlan(segs, ch, REFERENCE).takes| <= r <==> Leading(Runs(segs, ch), r) >= BlockFrames(ch)
  {
    ReferenceFrames(segs, ch);
    LeadingPlan(Counts(segs, ch), SAMPLE_BYTE_CAP, 2 * ch, r);
    LeadingNonZero(Counts(segs, ch), r);
  }

  /** The next datagram of a queue fits 1200 bytes if and only if as many runs as there
      is room for chunks cover a block. */
  lemma QueueFits(segs: seq<Segment>, nextSeq: nat, node: Id, channel: Id, session: Id, rate: nat, ch: nat)
    requires 0 < ch < 256 && 0 < rate && IsU32(rate) && Timed(segs)
    requires Full(NextPlan(segs, ch, REFERENCE), 2 * ch, REFERENCE)
    ensures Drain(segs, nextSeq, ch, rate, REFERENCE).out != []
    ensures var m := Drain(segs, nextSeq, ch, rate, REFERENCE).out[0];
            WellPacked(m, ch, REFERENCE)
            && (MaterialInRange(m) ==>
                  var f := NewFrame(node, Audio(BufferOf(m, channel, session, rate, ch)));
                  && FrameInRange(f)
                  && (|EncodeFrame(f)| <= MAX_MESSAGE_SIZE
                      <==> Leading(Runs(segs, ch), ChunkRoom(ch)) >= BlockFrames(ch)))
  {
    hide Consume, PlanFrom, Counts, Runs, FrameInRange, EncodeFrame, WellPacked;
    var p, d := NextPlan(segs, ch, REFERENCE), Drain(segs, nextSeq, ch, rate, REFERENCE);
    FirstDrained(segs, nextSeq, ch, rate, REFERENCE);
    DrainPacked(segs, nextSeq, ch, rate, REFERENCE);
    var m := d.out[0];
    if MaterialInRange(m) {
      ReferenceFits(m, node, channel, session, rate, ch);
      ReferenceChunks(segs, ch, ChunkRoom(ch));
    }
  }

  lemma FirstDrained(segs: seq<Segment>, nextSeq: nat, ch: nat, rate: int, z: Sizing)
    requires ch > 0 && ValidSizing(z) && rate > 0 && Timed(segs) && Full(NextPlan(segs, ch, z), 2 * ch, z)
    ensures Feasible(segs, NextPlan(segs, ch, z).takes, ch, rate)
    ensures var p, d := NextPlan(segs, ch, z), Drain(segs, nextSeq, ch, rate, z);
            var c := Consume(segs, p.takes, nextSeq, ch, rate);
            var rest := Drain(c.segs, nextSeq + |p.takes|, ch, rate, z);
            d == Drained([c.material] + rest.out, rest.segs, rest.nextSeq) && |d.out[0].chunks| == |p.takes|
  {
    hide PlanFrom, Counts, Consume;
    FullPlanShrinks(segs, nextSeq, ch, rate, z);
  }

  // --------------------------------------------------- runs and written pieces

  /** Every run is made of whole written pieces: `c` joins neighbours of `f`. */
  predicate Coarser(f: seq<nat>, c: seq<nat>)
    decreases |f|
  {
    if f == [] then c == []
    else if f[0] == 0 then Coarser(f[1..], c)
    else
      && c != [] && f[0] <= c[0]
      && Coarser(f[1..], if f[0] == c[0] then c[1..] else [c[0] - f[0]] + c[1..])
  }

  lemma {:induction false} CoarserSum(f: seq<nat>, c: seq<nat>)
    requires Coarser(f, c)
    ensures Sum(f) == Sum(c)
    decreases |f|
  {
    if f != [] {
      if f[0] == 0 {
        CoarserSum(f[1..], c);
      } else if f[0] == c[0] {
        CoarserSum(f[1..], c[1..]);
      } else {
        var cut := [c[0] - f[0]] + c[1..];
        assert cut[1..] == c[1..];
        CoarserSum(f[1..], cut);
      }
    }
  }

  lemma {:induction false} CoarserDrop(f: seq<nat>, c: seq<nat>, k: nat)
    requires Coarser(f, c)
    ensures Coarser(Drop(f, k), Drop(c, k))
    decreases |f|
  {
    if f != [] {
      if f[0] == 0 {
        CoarserDrop(f[1..], c, k);
      } else if f[0] <= k {
        var cut := if f[0] == c[0] then c[1..] else [c[0] - f[0]] + c[1..];
        assert f[0] < c[0] ==> cut[1..] == c[1..];
        CoarserDrop(f[1..], cut, k - f[0]);
      } else {
        var less, cut := [f[0] - k] + f[1..], [c[0] - k] + c[1..];
        assert less[1..] == f[1..] && cut[1..] == c[1..];
      }
    }
  }

  lemma {:induction false} CoarserBehind(f: seq<nat>, c: seq<nat>, m: nat)
    requires Coarser(f, c) && m > 0
    ensures Coarser(f + [m], c + [m])
    decreases |f|
  {
    if f == [] {
      assert f + [m] == [m] && c + [m] == [m] && [m][1..] == [];
    } else {
      assert (f + [m])[1..] == f[1..] + [m];
      if f[0] == 0 {
        CoarserBehind(f[1..], c, m);
      } else {
        var cut := if f[0] == c[0] then c[1..] else [c[0] - f[0]] + c[1..];
        CoarserBehind(f[1..], cut, m);
        assert (c + [m])[1..] == c[1..] + [m];
        assert f[0] < c[0] ==> cut + [m] == [c[0] - f[0]] + (c + [m])[1..];
      }
    }
  }

  lemma {:induction false} CoarserGrown(f: seq<nat>, c: seq<nat>, m: nat)
    requires Coarser(f, c) && c != [] && m > 0
    ensures Coarser(f + [m], Grow(c, m))
    decreases |f|
  {
    assert (f + [m])[1..] == f[1..] + [m];
    if f[0] == 0 {
      CoarserGrown(f[1..], c, m);
    } else {
      var cut := if f[0] == c[0] then c[1..] else [c[0] - f[0]] + c[1..];
      if cut == [] {
        assert c == [c[0]];
        GrowOne(f[0], m);
        CoarserBehind(f[1..], [], m);
        assert [] + [m] == [m] && [f[0] + m - f[0]] + [f[0] + m][1..] == [m];
      } else {
        CoarserGrown(f[1..], cut, m);
        GrownFront(f[0], c, cut, m);
      }
    }
  }

  lemma GrownFront(n: nat, c: seq<nat>, cut: seq<nat>, m: nat)
    requires c != [] && 0 < n <= c[0] && cut == (if n == c[0] then c[1..] else [c[0] - n] + c[1..]) && cut != []
    ensures var g := Grow(c, m);
            n <= g[0] && Grow(cut, m) == (if n == g[0] then g[1..] else [g[0] - n] + g[1..])
  {
    if |c| == 1 {
      assert c[1..] == [] && c == [c[0]] && cut == [c[0] - n];
      GrowOne(c[0], m);
      GrowOne(c[0] - n, m);
    } else {
      var g := Grow(c, m);
      assert g[1..] == Grow(c[1..], m);
      assert n < c[0] ==> cut[1..] == c[1..];
    }
  }

  lemma {:induction false} CoarserLeading(f: seq<nat>, c: seq<nat>, r: nat)
    requires Coarser(f, c)
    ensures Leading(f, r) <= Leading(c, r)
    decreases |f|
  {
    if f != [] && r > 0 {
      if f[0] == 0 {
        CoarserLeading(f[1..], c, r);
      } else if f[0] == c[0] {
        CoarserLeading(f[1..], c[1..], r - 1);
      } else {
        var cut := [c[0] - f[0]] + c[1..];
        assert cut[1..] == c[1..];
        CoarserLeading(f[1..], cut, r - 1);
        if r > 1 {
          LeadingMore(c[1..], r - 2);
        }
      }
    }
  }

  lemma {:induction false} DropAppendTwice(a: seq<nat>, b: seq<nat>, j: nat, k: nat)
    requires j <= Sum(a)
    ensures Drop(a + b, j + k) == Drop(Drop(a, j) + b, k)
    decreases |a|
  {
    if a == [] {
      assert a + b == b && Drop(a, j) + b == b;
    } else {
      assert (a + b)[1..] == a[1..] + b;
      if a[0] <= j {
        DropAppendTwice(a[1..], b, j - a[0], k);
      } else {
        var cut := [a[0] - j] + a[1..];
        assert (cut + b)[1..] == a[1..] + b;
      }
    }
  }

  lemma {:induction false} LeadingPrefix(a: seq<nat>, b: seq<nat>, r: nat, need: int)
    requires Sum(a) >= need && Leading(a + b, r) >= need
    ensures Leading(a, r) >= need
    decreases |a|
  {
    if a != [] && r > 0 {
      assert (a + b)[1..] == a[1..] + b;
      if a[0] == 0 {
        LeadingPrefix(a[1..], b, r, need);
      } else {
        LeadingPrefix(a[1..], b, r - 1, need - a[0]);
      }
    }
  }

  // ------------------------------------------------------------------- on a run

  /** Frames of each write. */
  function Pieces(ws: seq<Write>, ch: nat): (f: seq<nat>)
    requires ch > 0
    ensures |f| == |ws|
  {
    if ws == [] then [] else [|ws[0].samples| / ch] + Pieces(ws[1..], ch)
  }

  lemma QueuedCoarser(pend: seq<nat>, c: seq<nat>, m: nat, joins: bool)
    requires Coarser(pend, c) && AllPositive(c) && (joins ==> c != [])
    ensures Coarser(pend + [m], Extended(c, m, joins))
  {
    if m == 0 {
      CoarserZero(pend, c);
    } else if joins {
      CoarserGrown(pend, c, m);
    } else {
      CoarserBehind(pend, c, m);
    }
  }

  lemma {:induction false} CoarserZero(f: seq<nat>, c: seq<nat>)
    requires Coarser(f, c)
    ensures Coarser(f + [0], c)
    decreases |f|
  {
    if f == [] {
      assert f + [0] == [0] && [0][1..] == [];
    } else {
      assert (f + [0])[1..] == f[1..] + [0];
      CoarserZero(f[1..], if f[0] == 0 then c else if f[0] == c[0] then c[1..] else [c[0] - f[0]] + c[1..]);
    }
  }

  /** At most as many chunks as pieces cover the first `k` frames. */
  ghost predicate FewChunks(m: Material, pend: seq<nat>, k: nat) {
    forall r: nat :: Leading(pend, r) >= k ==> |m.chunks| <= r
  }

  /** Each datagram, block by block. */
  ghost predicate BlockChunks(out: seq<Material>, pend: seq<nat>, k: nat)
    decreases |out|
  {
    out == [] || (FewChunks(out[0], pend, k) && BlockChunks(out[1..], Drop(pend, k), k))
  }

  /** A datagram cut from runs made of these pieces. */
  lemma FirstBlock(q: seq<Segment>, nextSeq: nat, pend: seq<nat>, ch: nat, rate: int)
    requires 0 < ch <= 251 && rate > 0 && Timed(q) && Coarser(pend, Runs(q, ch))
    requires Full(NextPlan(q, ch, REFERENCE), 2 * ch, REFERENCE)
    ensures var p, k := NextPlan(q, ch, REFERENCE), BlockFrames(ch);
            && Feasible(q, p.takes, ch, rate) && k <= Sum(pend)
            && var c := Consume(q, p.takes, nextSeq, ch, rate);
               FewChunks(c.material, pend, k) && Coarser(Drop(pend, k), Runs(c.segs, ch))
  {
    hide Coarser, Consume, PlanFrom, Counts, Runs, Drop, Leading, BlockFrames;
    var p, k := NextPlan(q, ch, REFERENCE), BlockFrames(ch);
    FullPlanShrinks(q, nextSeq, ch, rate, REFERENCE);
    CoarserDrop(pend, Runs(q, ch), k);
    ReferenceFrames(q, ch);
    PlanProperties(Counts(q, ch), SAMPLE_BYTE_CAP, 2 * ch, REFERENCE);
    RunsAfterConsume(q, p.takes, nextSeq, ch, rate);
    CoarserSum(pend, Runs(q, ch));
    SumRuns(q, ch);
    forall r: nat | Leading(pend, r) >= k ensures |p.takes| <= r {
      CoarserLeading(pend, Runs(q, ch), r);
      ReferenceChunks(q, ch, r);
    }
  }

  lemma SumRuns(q: seq<Segment>, ch: nat)
    requires ch > 0
    ensures Sum(Runs(q, ch)) == Sum(Counts(q, ch))
  {
    SumNonZero(Counts(q, ch));
  }

  /** What is emitted are whole blocks of the pieces, and the rest stays. */
  ghost predicate WholeBlocks(d: Drained, pend: seq<nat>, ch: nat)
    requires ch > 0
  {
    var n: nat := |d.out| * BlockFrames(ch);
    n <= Sum(pend) && Coarser(Drop(pend, n), Runs(d.segs, ch)) && BlockChunks(d.out, pend, BlockFrames(ch))
  }

  /** Draining takes whole blocks of the pieces. */
  lemma {:induction false} DrainChunks(q: seq<Segment>, nextSeq: nat, pend: seq<nat>, ch: nat, rate: int)
    requires 0 < ch <= 251 && rate > 0 && Timed(q) && Coarser(pend, Runs(q, ch))
    ensures WholeBlocks(Drain(q, nextSeq, ch, rate, REFERENCE), pend, ch)
    decreases |Whole(q, ch)|
  {
    hide Coarser, Consume, NextPlan, Runs, Drop, BlockFrames, FewChunks, BlockChunks, Whole;
    var p, k := NextPlan(q, ch, REFERENCE), BlockFrames(ch);
    if Full(p, 2 * ch, REFERENCE) {
      FirstBlock(q, nextSeq, pend, ch, rate);
      FullPlanShrinks(q, nextSeq, ch, rate, REFERENCE);
      FirstDrained(q, nextSeq, ch, rate, REFERENCE);
      var c := Consume(q, p.takes, nextSeq, ch, rate);
      DrainChunks(c.segs, nextSeq + |p.takes|, Drop(pend, k), ch, rate);
      OneMoreBlock(c.material, Drain(c.segs, nextSeq + |p.takes|, ch, rate, REFERENCE).out, pend, k);
    } else {
      CoarserDrop(pend, Runs(q, ch), 0);
      DropNothing(Runs(q, ch));
      NoBlock(pend, k);
    }
  }

  lemma NoBlock(pend: seq<nat>, k: nat)
    ensures BlockChunks([], pend, k)
  {
  }

  lemma OneMoreBlock(m: Material, rest: seq<Material>, pend: seq<nat>, k: nat)
    requires k <= Sum(pend) && |rest| * k <= Sum(Drop(pend, k))
    requires FewChunks(m, pend, k) && BlockChunks(rest, Drop(pend, k), k)
    ensures var n := |[m] + rest| * k;
            n <= Sum(pend) && Drop(pend, n) == Drop(Drop(pend, k), |rest| * k)
    ensures BlockChunks([m] + rest, pend, k)
  {
    hide Drop, FewChunks, BlockChunks;
    assert |[m] + rest| == |rest| + 1;
    OneMoreSpan(pend, |rest|, k);
    BlocksFront(m, rest, pend, k);
  }

  lemma OneMoreSpan(pend: seq<nat>, n: nat, k: nat)
    requires k <= Sum(pend) && n * k <= Sum(Drop(pend, k))
    ensures (n + 1) * k <= Sum(pend) && Drop(pend, (n + 1) * k) == Drop(Drop(pend, k), n * k)
  {
    hide Drop;
    Distribute(n, 1, k);
    DropTwice(pend, k, n * k);
  }

  lemma BlocksFront(m: Material, rest: seq<Material>, pend: seq<nat>, k: nat)
    requires FewChunks(m, pend, k) && BlockChunks(rest, Drop(pend, k), k)
    ensures BlockChunks([m] + rest, pend, k)
  {
    hide Drop, FewChunks;
    assert ([m] + rest)[1..] == rest;
  }

  lemma {:induction false} LeadingSkipsZeros(f: seq<nat>, r: nat)
    ensures Leading(Drop(f, 0), r) == Leading(f, r)
  {
    if f != [] {
      if f[0] == 0 {
        LeadingSkipsZeros(f[1..], r);
      } else {
        assert [f[0] - 0] + f[1..] == f;
      }
    }
  }

  lemma SkipZeros(out: seq<Material>, f: seq<nat>, k: nat)
    ensures BlockChunks(out, Drop(f, 0), k) <==> BlockChunks(out, f, k)
  {
    DropTwice(f, 0, k);
    forall r: nat ensures Leading(Drop(f, 0), r) == Leading(f, r) {
      LeadingSkipsZeros(f, r);
    }
  }

  /** Later datagrams are about the pieces behind. */
  lemma {:induction false} BlockChunksAppend(a: seq<Material>, b: seq<Material>, pend: seq<nat>, more: seq<nat>, k: nat)
    requires |a| * k <= Sum(pend) && BlockChunks(a, pend, k) && BlockChunks(b, Drop(pend, |a| * k) + more, k)
    ensures BlockChunks(a + b, pend + more, k)
    decreases |a|
  {
    hide Drop, FewChunks;
    if a == [] {
      assert a + b == b;
      DropAppendTwice(pend, more, 0, 0);
      SkipZeros(b, Drop(pend, 0) + more, k);
      SkipZeros(b, pend + more, k);
    } else {
      hide BlockChunks;
      FirstOfBlocks(a, b, pend, more, k);
      BlockChunksAppend(a[1..], b, Drop(pend, k), more, k);
      LaterBlocks(a, b, pend, more, k);
    }
  }

  lemma FirstOfBlocks(a: seq<Material>, b: seq<Material>, pend: seq<nat>, more: seq<nat>, k: nat)
    requires a != [] && |a| * k <= Sum(pend) && BlockChunks(a, pend, k)
    requires BlockChunks(b, Drop(pend, |a| * k) + more, k)
    ensures k <= Sum(pend) && |a[1..]| * k <= Sum(Drop(pend, k)) && BlockChunks(a[1..], Drop(pend, k), k)
    ensures BlockChunks(b, Drop(Drop(pend, k), |a[1..]| * k) + more, k)
  {
    hide Drop, FewChunks;
    Distribute(|a| - 1, 1, k);
    DropTwice(pend, k, |a[1..]| * k);
  }

  lemma LaterBlocks(a: seq<Material>, b: seq<Material>, pend: seq<nat>, more: seq<nat>, k: nat)
    requires a != [] && k <= Sum(pend) && BlockChunks(a, pend, k) && BlockChunks(a[1..] + b, Drop(pend, k) + more, k)
    ensures BlockChunks(a + b, pend + more, k)
  {
    hide Drop;
    assert (a + b)[1..] == a[1..] + b && (a + b)[0] == a[0];
    DropAppendTwice(pend, more, k, 0);
    SkipZeros(a[1..] + b, Drop(pend, k) + more, k);
    forall r: nat | Leading(pend + more, r) >= k ensures |a[0].chunks| <= r {
      LeadingPrefix(pend, more, r, k);
    }
    FewAre(a[0], pend + more, k);
  }

  lemma FewAre(m: Material, pend: seq<nat>, k: nat)
    requires forall r: nat :: Leading(pend, r) >= k ==> |m.chunks| <= r
    ensures FewChunks(m, pend, k)
  {
  }

  /** One write adds a piece. */
  lemma OneWriteChunks(segs: seq<Segment>, nextSeq: nat, w: Write, pend: seq<nat>, ch: nat, rate: int)
    requires 0 < ch <= 251 && rate > 0 && Timed(segs) && Aligned(segs, ch) && w.tempo > 0 && |w.samples| % ch == 0
    requires Coarser(pend, Runs(segs, ch))
    ensures var d := Drain(Enqueue(segs, w.begin, w.tempo, w.samples, rate, ch), nextSeq, ch, rate, REFERENCE);
            Aligned(d.segs, ch) && WholeBlocks(d, pend + [|w.samples| / ch], ch)
  {
    hide Coarser, Drain, Enqueue, Runs, WholeBlocks, Aligned, Contiguous;
    var q := Enqueue(segs, w.begin, w.tempo, w.samples, rate, ch);
    EnqueueAppends(segs, w.begin, w.tempo, w.samples, rate, ch);
    RunsAfterEnqueue(segs, w, ch, rate);
    QueuedCoarser(pend, Runs(segs, ch), |w.samples| / ch, Joins(segs, w, ch, rate));
    DrainChunks(q, nextSeq, pend + [|w.samples| / ch], ch, rate);
    DrainAligned(q, nextSeq, ch, rate, REFERENCE);
  }

  /** Over a run of writes, what is pending being made of `pend`. */
  lemma {:induction false} RunChunks(segs: seq<Segment>, nextSeq: nat, ws: seq<Write>, pend: seq<nat>, ch: nat,
                                     rate: int)
    requires 0 < ch <= 251 && rate > 0 && Timed(segs) && Aligned(segs, ch) && ValidWrites(ws, ch)
    requires Coarser(pend, Runs(segs, ch))
    ensures BlockChunks(RunWrites(segs, nextSeq, ws, ch, rate, REFERENCE).out, pend + Pieces(ws, ch), BlockFrames(ch))
    decreases |ws|
  {
    hide Coarser, Drain, Enqueue, Runs, Drop, BlockChunks, Aligned, BlockFrames;
    if ws == [] {
      NoBlock(pend + [], BlockFrames(ch));
    } else {
      var w, now := ws[0], pend + [|ws[0].samples| / ch];
      var d := Drain(Enqueue(segs, w.begin, w.tempo, w.samples, rate, ch), nextSeq, ch, rate, REFERENCE);
      OneWriteChunks(segs, nextSeq, w, pend, ch, rate);
      RunChunks(d.segs, d.nextSeq, ws[1..], Drop(now, |d.out| * BlockFrames(ch)), ch, rate);
      PiecesStep(pend, ws, ch);
      BlockChunksAppend(d.out, RunWrites(d.segs, d.nextSeq, ws[1..], ch, rate, REFERENCE).out,
                        now, Pieces(ws[1..], ch), BlockFrames(ch));
    }
  }

  lemma PiecesStep(pend: seq<nat>, ws: seq<Write>, ch: nat)
    requires ch > 0 && ws != []
    ensures pend + Pieces(ws, ch) == pend + [|ws[0].samples| / ch] + Pieces(ws[1..], ch)
  {
    hide Pieces;
    PiecesFront(ws, ch);
  }

  lemma PiecesFront(ws: seq<Write>, ch: nat)
    requires ch > 0 && ws != []
    ensures Pieces(ws, ch) == [|ws[0].samples| / ch] + Pieces(ws[1..], ch)
  {
  }

  /** How many of these pieces, laid end to end, have a frame among those from `lo` up to
      `hi`. */
  function Touching(f: seq<nat>, lo: int, hi: int): nat
    decreases |f|
  {
    if f == [] then 0
    else (if f[0] > 0 && lo < f[0] && 0 < hi then 1 else 0) + Touching(f[1..], lo - f[0], hi - f[0])
  }

  lemma {:induction false} TouchingNone(f: seq<nat>, lo: int, hi: int)
    requires hi <= 0
    ensures Touching(f, lo, hi) == 0
    decreases |f|
  {
    if f != [] {
      TouchingNone(f[1..], lo - f[0], hi - f[0]);
    }
  }

  lemma {:induction false} TouchingFirst(f: seq<nat>, lo: int, hi: int, r: nat)
    requires lo <= 0 && hi <= Sum(f)
    ensures Touching(f, lo, hi) <= r <==> Leading(f, r) >= hi
    decreases |f|
  {
    if hi <= 0 {
      TouchingNone(f, lo, hi);
    } else if f[0] == 0 {
      TouchingFirst(f[1..], lo, hi, r);
    } else if r > 0 {
      TouchingFirst(f[1..], lo - f[0], hi - f[0], r - 1);
    }
  }

  /** The pieces that touch a stretch of the stream are the first ones that cover it. */
  lemma {:induction false} TouchingIff(f: seq<nat>, lo: nat, k: nat, r: nat)
    requires k > 0 && lo + k <= Sum(f)
    ensures Touching(f, lo, lo + k) <= r <==> Leading(Drop(f, lo), r) >= k
    decreases |f|
  {
    if f[0] <= lo {
      TouchingIff(f[1..], lo - f[0], k, r);
    } else {
      var cut := [f[0] - lo] + f[1..];
      assert cut[1..] == f[1..];
      if r > 0 {
        TouchingFirst(f[1..], lo - f[0], lo + k - f[0], r - 1);
      }
    }
  }

  lemma {:induction false} ChunksOfBlock(out: seq<Material>, f: seq<nat>, k: nat, j: nat, at: nat, r: nat)
    requires BlockChunks(out, f, k) && j < |out| && at == j * k && Leading(Drop(f, at), r) >= k
    ensures |out[j].chunks| <= r
    decreases j
  {
    hide Drop, Leading;
    if j == 0 {
      LeadingSkipsZeros(f, r);
    } else {
      hide FewChunks;
      MulMono(0, j - 1, k);
      Distribute(j - 1, 1, k);
      DropTwice(f, k, at - k);
      ChunksOfBlock(out[1..], Drop(f, k), k, j - 1, at - k, r);
    }
  }

  lemma {:induction false} PiecesTotal(ws: seq<Write>, ch: nat)
    requires ch > 0 && ValidWrites(ws, ch)
    ensures Sum(Pieces(ws, ch)) * ch == |Stream(ws)|
  {
    if ws != [] {
      PiecesTotal(ws[1..], ch);
      assert Pieces(ws, ch)[1..] == Pieces(ws[1..], ch);
      DivBounds(|ws[0].samples|, ch);
      Distribute(|ws[0].samples| / ch, Sum(Pieces(ws[1..], ch)), ch);
    }
  }

  /** Over any run of writes a datagram of reference sizing has at most as many chunks as
      writes touch its block of the stream. */
  lemma ChunksPerBlock(nextSeq: nat, ws: seq<Write>, ch: nat, rate: int, j: nat)
    requires 0 < ch <= 251 && rate > 0 && ValidWrites(ws, ch)
    requires j < |RunWrites([], nextSeq, ws, ch, rate, REFERENCE).out|
    ensures var m, k := RunWrites([], nextSeq, ws, ch, rate, REFERENCE).out[j], BlockFrames(ch);
            |m.chunks| <= Touching(Pieces(ws, ch), j * k, j * k + k)
  {
    hide RunWrites, BlockChunks, Drop, Leading, Touching, BlockFrames;
    var out, k, f := RunWrites([], nextSeq, ws, ch, rate, REFERENCE).out, BlockFrames(ch), Pieces(ws, ch);
    RunChunks([], nextSeq, ws, [], ch, rate);
    assert [] + f == f;
    StreamRefinement(nextSeq, ws, ch, rate);
    PiecesTotal(ws, ch);
    BlockWithin(j, k, Sum(f), ch, |Stream(ws)|);
    var r := Touching(f, j * k, j * k + k);
    TouchingIff(f, j * k, k, r);
    ChunksOfBlock(out, f, k, j, j * k, r);
  }

  lemma BlockWithin(j: nat, k: nat, frames: nat, ch: nat, samples: nat)
    requires ch > 0 && samples == frames * ch && j * (k * ch) + k * ch <= samples
    ensures j * k + k <= frames
  {
    assert j * (k * ch) + k * ch == (j * k + k) * ch;
    MultipleOrder(j * k + k, frames, ch);
  }

  /** So a block touched by no more writes than there is room for chunks always fits. */
  lemma TouchedBlockFits(nextSeq: nat, ws: seq<Write>, node: Id, channel: Id, session: Id, rate: nat, ch: nat, j: nat)
    requires 0 < ch <= 251 && 0 < rate && IsU32(rate) && ValidWrites(ws, ch)
    requires j < |RunWrites([], nextSeq, ws, ch, rate, REFERENCE).out|
    requires Touching(Pieces(ws, ch), j * BlockFrames(ch), j * BlockFrames(ch) + BlockFrames(ch)) <= ChunkRoom(ch)
    ensures var m := RunWrites([], nextSeq, ws, ch, rate, REFERENCE).out[j];
            MaterialInRange(m) ==>
              var f := NewFrame(node, Audio(BufferOf(m, channel, session, rate, ch)));
              FrameInRange(f) && |EncodeFrame(f)| <= MAX_MESSAGE_SIZE
  {
    hide RunWrites, Touching, BlockFrames, FrameInRange, EncodeFrame, ChunkRoom;
    var m := RunWrites([], nextSeq, ws, ch, rate, REFERENCE).out[j];
    ChunksPerBlock(nextSeq, ws, ch, rate, j);
    RunPacked([], nextSeq, ws, ch, rate, REFERENCE) by { NothingFull(ch); }
    if MaterialInRange(m) {
      ReferenceFits(m, node, channel, session, rate, ch);
    }
  }

  lemma NothingFull(ch: nat)
    requires ch > 0
    ensures !Full(NextPlan([], ch, REFERENCE), 2 * ch, REFERENCE)
  {
  }

  // ------------------------------------------------------ a datagram too large

  /** Tempos of successive writes. */
  function Tempo(i: nat): int {
    if i % 2 == 0 then 500_000 else 600_000
  }

  /** The queue after `k` one-frame writes. */
  function Singles(k: nat): (q: seq<Segment>)
    ensures |q| == k && Timed(q)
    ensures forall i :: 0 <= i < k ==> q[i] == Segment(0, Tempo(i), [0])
  {
    seq(k, i requires 0 <= i => Segment(0, Tempo(i), [0]))
  }

  /** The writes from the `k`-th on: 26 of one frame, then one of 225. */
  function Ragged(k: nat): (ws: seq<Write>)
    requires k <= 26
    ensures ValidWrites(ws, 1)
    decreases 26 - k
  {
    if k == 26 then [Write(0, 500_000, seq(225, i => 0))] else [Write(0, Tempo(k), [0])] + Ragged(k + 1)
  }

  lemma {:induction false} CountsAt(segs: seq<Segment>, ch: nat, i: nat)
    requires ch > 0 && i < |segs|
    ensures Counts(segs, ch)[i] == |segs[i].samples| / ch
    decreases i
  {
    if i > 0 {
      CountsAt(segs[1..], ch, i - 1);
    }
  }

  function Ones(k: nat): seq<nat> {
    seq(k, i => 1)
  }

  lemma {:induction false} SumOnes(k: nat)
    ensures Sum(Ones(k)) == k
  {
    if k > 0 {
      assert Ones(k)[1..] == Ones(k - 1);
      SumOnes(k - 1);
    }
  }

  lemma SinglesCounts(k: nat)
    ensures Counts(Singles(k), 1) == Ones(k)
  {
    forall i | 0 <= i < k ensures Counts(Singles(k), 1)[i] == 1 {
      CountsAt(Singles(k), 1, i);
    }
  }

  lemma NextSingle(k: nat)
    requires k < 26
    ensures Enqueue(Singles(k), 0, Tempo(k), [0], 48_000, 1) == Singles(k + 1)
    ensures Drain(Singles(k + 1), 1, 1, 48_000, REFERENCE) == Drained([], Singles(k + 1), 1)
  {
    hide Counts;
    assert !Contiguous(Singles(k), 0, Tempo(k), 48_000, 1);
    SinglesCounts(k + 1);
    SumOnes(k + 1);
    ReferenceFullIff(Singles(k + 1), 1);
  }

  lemma {:induction false} RaggedQueues(k: nat)
    requires k <= 26
    ensures RunWrites(Singles(k), 1, Ragged(k), 1, 48_000, REFERENCE)
         == RunWrites(Singles(26), 1, Ragged(26), 1, 48_000, REFERENCE)
    decreases 26 - k
  {
    hide Drain, Enqueue, Singles, Tempo;
    if k < 26 {
      NextSingle(k);
      var w := Write(0, Tempo(k), [0]);
      assert Ragged(k)[0] == w && Ragged(k)[1..] == Ragged(k + 1);
      RaggedQueues(k + 1);
      var rest := RunWrites(Singles(k + 1), 1, Ragged(k + 1), 1, 48_000, REFERENCE);
      assert [] + rest.out == rest.out;
    }
  }

  /** A queue that just fills a block is taken as it is. */
  lemma {:induction false} PlanTakesAll(c: seq<nat>, left: nat, fb: nat)
    requires fb > 0 && AllPositive(c) && Sum(c) * fb <= left
    ensures PlanFrom(c, left, fb, REFERENCE).takes == c
  {
    if c != [] {
      hide PlanFrom;
      RoomForAll(c[0], Sum(c[1..]), left, fb);
      ReferenceStep(c, left, fb);
      assert c == [c[0]] + c[1..];
      if c[0] < left / fb {
        PlanTakesAll(c[1..], left - c[0] * fb, fb);
      } else {
        NoFrames(c[1..]);
      }
    }
  }

  lemma NoFrames(c: seq<nat>)
    requires AllPositive(c)
    ensures Sum(c) == 0 <==> c == []
  {
  }

  lemma RoomForAll(n: nat, rest: nat, left: nat, fb: nat)
    requires fb > 0 && n > 0 && (n + rest) * fb <= left
    ensures left >= fb && n + rest <= left / fb && n * fb + rest * fb <= left
  {
    Distribute(n, rest, fb);
    MulMono(0, rest, fb);
    MulMono(1, n, fb);
    Fits(n + rest, left, fb);
  }

  /** Segments taken whole become chunks with their own stamps. */
  lemma {:induction false} ConsumeWhole(segs: seq<Segment>, nextSeq: nat, ch: nat, rate: int)
    requires ch > 0 && rate > 0 && Timed(segs) && Aligned(segs, ch)
    requires AllPositive(Counts(segs, ch)) && Feasible(segs, Counts(segs, ch), ch, rate)
    ensures var m := Consume(segs, Counts(segs, ch), nextSeq, ch, rate).material;
            forall i :: 0 <= i < |segs| ==>
              m.chunks[i] == Chunk(nextSeq + i, Counts(segs, ch)[i], segs[i].begin, segs[i].tempo)
  {
    if segs != [] {
      var c := Counts(segs, ch);
      assert c[1..] == Counts(segs[1..], ch) && c[0] > 0;
      DivBounds(|segs[0].samples|, ch);
      OneFrame(|segs[0].samples|, ch);
      assert DropShort(segs, ch) == segs && CutFront(segs, c[0], ch, rate) == segs[1..];
      ConsumeWhole(segs[1..], nextSeq + 1, ch, rate);
    }
  }

  /** The queue after `k` one-frame writes and the long one. */
  function RaggedQueue(k: nat): (q: seq<Segment>)
    ensures Timed(q) && |q| == k + 1
    ensures forall i :: 0 <= i < k ==> q[i] == Segment(0, Tempo(i), [0])
    ensures q[k].begin == 0 && q[k].tempo == 500_000 && |q[k].samples| == 225
  {
    Singles(k) + [Segment(0, 500_000, seq(225, i => 0))]
  }

  lemma RaggedCounts(k: nat)
    ensures Counts(RaggedQueue(k), 1) == Ones(k) + [225] && Sum(Ones(k) + [225]) == k + 225
  {
    hide RaggedQueue;
    var q := RaggedQueue(k);
    forall i | 0 <= i <= k ensures Counts(q, 1)[i] == (Ones(k) + [225])[i] {
      CountsAt(q, 1, i);
    }
    SumOnes(k);
    SumOne(225);
    SumAppend(Ones(k), [225]);
  }

  /** Of 26 and one; the number is a variable so that proofs do not count it out. */
  lemma RaggedPlan(k: nat)
    requires k == 26
    ensures var p := NextPlan(RaggedQueue(k), 1, REFERENCE);
            && Full(p, 2, REFERENCE) && p.takes == Counts(RaggedQueue(k), 1) && AllPositive(p.takes)
  {
    hide RaggedQueue, PlanFrom, Counts;
    var q := RaggedQueue(k);
    RaggedCounts(k);
    assert BlockFrames(1) == 251;
    ReferenceFullIff(q, 1);
    PlanTakesAll(Counts(q, 1), SAMPLE_BYTE_CAP, 2);
  }

  lemma RaggedDatagram(k: nat)
    requires k == 26
    ensures var d := Drain(RaggedQueue(k), 1, 1, 48_000, REFERENCE);
            && d.out != [] && |d.out[0].chunks| == 27 && MaterialInRange(d.out[0]) && WellPacked(d.out[0], 1, REFERENCE)
  {
    hide RaggedQueue, Drain, NextPlan, Counts, Consume, WellPacked;
    var q := RaggedQueue(k);
    RaggedPlan(k);
    FirstDrained(q, 1, 1, 48_000, REFERENCE);
    DrainPacked(q, 1, 1, 48_000, REFERENCE);
    ConsumeWhole(q, 1, 1, 48_000);
  }

  lemma RaggedRun(k: nat)
    requires k == 26
    ensures var d, out := Drain(RaggedQueue(k), 1, 1, 48_000, REFERENCE),
                          RunWrites([], 1, Ragged(0), 1, 48_000, REFERENCE).out;
            d.out != [] ==> out != [] && out[0] == d.out[0]
  {
    hide Drain, RaggedQueue, Ragged;
    RaggedQueues(0);
    assert Singles(0) == [];
    LongWrite(k);
    var d := Drain(RaggedQueue(k), 1, 1, 48_000, REFERENCE);
    var rest := RunWrites(d.segs, d.nextSeq, [], 1, 48_000, REFERENCE);
    assert RunWrites(Singles(k), 1, Ragged(k), 1, 48_000, REFERENCE).out == d.out + rest.out;
  }

  lemma LongWrite(k: nat)
    requires k == 26
    ensures Ragged(k) != [] && Ragged(k)[1..] == []
    ensures var w := Ragged(k)[0];
            Enqueue(Singles(k), w.begin, w.tempo, w.samples, 48_000, 1) == RaggedQueue(k)
  {
    hide FramesToMicroBeats;
    assert Tempo(k - 1) != 500_000;
  }

  /** From a fresh sink, 26 one-frame mono writes of alternating tempo and one of 225
      frames: 27 chunks in a datagram of 1252 bytes. */
  lemma OversizeDatagram(node: Id, channel: Id, session: Id)
    ensures var out := RunWrites([], 1, Ragged(0), 1, 48_000, REFERENCE).out;
            && out != [] && |out[0].chunks| == 27
            && WellPacked(out[0], 1, REFERENCE) && MaterialInRange(out[0])
            && var f := NewFrame(node, Audio(BufferOf(out[0], channel, session, 48_000, 1)));
               FrameInRange(f) && |EncodeFrame(f)| == 1252
  {
    hide RunWrites, Drain, EncodeFrame, FrameInRange;
    RaggedDatagram(26);
    RaggedRun(26);
    var m := RunWrites([], 1, Ragged(0), 1, 48_000, REFERENCE).out[0];
    PackedDecodes(m, node, channel, session, 48_000, 1, REFERENCE);
    AudioSize(NewFrame(node, Audio(BufferOf(m, channel, session, 48_000, 1))));
    ReferenceBlock(m, 1);
  }
}
