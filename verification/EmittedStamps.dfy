/**
 The stamps that reach the wire: every chunk a sink emits, over any run of writes,
 stays near the line through the stamp of the write its first frame came from.
 */
module EmittedStamps {
  import opened Types
  import opened BeatGrid
  import opened AudioWire
  import opened AudioSink
  import opened StampDrift

  /** A write as the stream remembers it: its stamp and tempo, the frames written
      before it, its own frames, and the next chunk number when it came. */
  datatype Record = Record(begin: int, tempo: int, start: nat, frames: nat, chunks: nat)

  function Frames(seg: Segment, ch: nat): nat
    requires ch > 0
  {
    |seg.samples| / ch
  }

  function Pending(segs: seq<Segment>, ch: nat): nat
    requires ch > 0
  {
    if segs == [] then 0 else Frames(segs[0], ch) + Pending(segs[1..], ch)
  }

  /** A stamp at stream frame `p` is near the write's line, the more chunks were cut
      since the write the less. */
  ghost predicate Held(begin: int, tempo: int, p: nat, r: Record, now: nat, rate: int) {
    tempo == r.tempo && r.chunks <= now && Near(begin, r.begin, r.start - p, now - r.chunks + 3, rate, tempo)
  }

  /** The write has material among the `n` frames from `p`. */
  predicate Touches(r: Record, p: nat, n: nat) {
    n > 0 && r.frames > 0 && r.start < p + n && p < r.start + r.frames
  }

  ghost predicate SegmentHeld(seg: Segment, p: nat, log: seq<Record>, now: nat, ch: nat, rate: int)
    requires ch > 0
  {
    forall i :: 0 <= i < |log| && Touches(log[i], p, Frames(seg, ch)) ==>
      Held(seg.begin, seg.tempo, p, log[i], now, rate)
  }

  /** Every pending segment, the queue starting at stream frame `p`. */
  ghost predicate QueueHeld(segs: seq<Segment>, p: nat, log: seq<Record>, now: nat, ch: nat, rate: int)
    requires ch > 0
    decreases |segs|
  {
    segs == []
    || (SegmentHeld(segs[0], p, log, now, ch, rate)
       && QueueHeld(segs[1..], p + Frames(segs[0], ch), log, now, ch, rate))
  }

  /** The chunk at stream frame `p`, against the write that frame belongs to. */
  ghost predicate ChunkHeld(c: Chunk, p: nat, log: seq<Record>, rate: int) {
    forall i :: 0 <= i < |log| && log[i].start <= p < log[i].start + log[i].frames
                ==> Held(c.beginBeats, c.tempo, p, log[i], c.num, rate)
  }

  ghost predicate ChunksHeld(chunks: seq<Chunk>, p: nat, log: seq<Record>, rate: int)
    decreases |chunks|
  {
    chunks == [] || (ChunkHeld(chunks[0], p, log, rate) && ChunksHeld(chunks[1..], p + chunks[0].numFrames, log, rate))
  }

  // ------------------------------------------------------------------ cutting

  lemma HeldLater(begin: int, tempo: int, p: nat, r: Record, now: nat, later: nat, rate: int)
    requires rate > 0 && tempo > 0 && now <= later && Held(begin, tempo, p, r, now, rate)
    ensures Held(begin, tempo, p, r, later, rate)
  {
    NearMore(begin, r.begin, r.start - p, now - r.chunks + 3, later - r.chunks + 3, rate, tempo);
  }

  lemma {:induction false} QueueHeldLater(segs: seq<Segment>, p: nat, log: seq<Record>, now: nat, later: nat,
                                          ch: nat, rate: int)
    requires ch > 0 && rate > 0 && Timed(segs) && now <= later && QueueHeld(segs, p, log, now, ch, rate)
    ensures QueueHeld(segs, p, log, later, ch, rate)
    decreases |segs|
  {
    hide Held;
    if segs != [] {
      forall i | 0 <= i < |log| && Touches(log[i], p, Frames(segs[0], ch))
        ensures Held(segs[0].begin, segs[0].tempo, p, log[i], later, rate)
      {
        HeldLater(segs[0].begin, segs[0].tempo, p, log[i], now, later, rate);
      }
      QueueHeldLater(segs[1..], p + Frames(segs[0], ch), log, now, later, ch, rate);
    }
  }

  /** Dropping segments without a whole frame moves nothing. */
  lemma {:induction false} DropHeld(segs: seq<Segment>, p: nat, log: seq<Record>, now: nat, ch: nat, rate: int)
    requires ch > 0 && QueueHeld(segs, p, log, now, ch, rate)
    ensures QueueHeld(DropShort(segs, ch), p, log, now, ch, rate)
            && Pending(DropShort(segs, ch), ch) == Pending(segs, ch)
  {
    hide Held;
    if segs != [] && |segs[0].samples| < ch {
      NoWholeFrame(segs, ch);
      DropHeld(segs[1..], p, log, now, ch, rate);
    }
  }

  lemma AdvanceHeld(seg: Segment, take: nat, p: nat, log: seq<Record>, now: nat, ch: nat, rate: int)
    requires ch > 0 && rate > 0 && seg.tempo > 0 && take * ch <= |seg.samples|
    requires SegmentHeld(seg, p, log, now, ch, rate)
    ensures Frames(Advance(seg, take, ch, rate), ch) == Frames(seg, ch) - take
    ensures SegmentHeld(Advance(seg, take, ch, rate), p + take, log, now + 1, ch, rate)
  {
    hide Near;
    CutArithmetic(|seg.samples|, take, ch);
    var rest := Advance(seg, take, ch, rate);
    forall i | 0 <= i < |log| && Touches(log[i], p + take, Frames(rest, ch))
      ensures Held(rest.begin, rest.tempo, p + take, log[i], now + 1, rate)
    {
      assert Touches(log[i], p, Frames(seg, ch));
      NearCut(seg.begin, log[i].begin, log[i].start - p, now - log[i].chunks + 3, take, rate, seg.tempo);
    }
  }

  lemma CutHeld(segs: seq<Segment>, take: nat, p: nat, log: seq<Record>, now: nat, ch: nat, rate: int)
    requires ch > 0 && rate > 0 && Timed(segs) && segs != [] && take * ch <= |segs[0].samples|
    requires QueueHeld(segs, p, log, now, ch, rate)
    ensures QueueHeld(CutFront(segs, take, ch, rate), p + take, log, now + 1, ch, rate)
    ensures take <= Pending(segs, ch) && Pending(CutFront(segs, take, ch, rate), ch) == Pending(segs, ch) - take
  {
    hide Held, Near;
    AdvanceHeld(segs[0], take, p, log, now, ch, rate);
    QueueHeldLater(segs[1..], p + Frames(segs[0], ch), log, now, now + 1, ch, rate);
    var rest := Advance(segs[0], take, ch, rate);
    assert ([rest] + segs[1..])[1..] == segs[1..];
  }

  /** The chunks cut for one datagram are held, and so is what stays. */
  lemma {:induction false} ConsumeHeld(segs: seq<Segment>, takes: seq<nat>, nextSeq: nat, p: nat, log: seq<Record>,
                                       ch: nat, rate: int)
    requires ch > 0 && rate > 0 && Timed(segs) && Feasible(segs, takes, ch, rate)
    requires QueueHeld(segs, p, log, nextSeq, ch, rate)
    ensures var c := Consume(segs, takes, nextSeq, ch, rate);
            && ChunksHeld(c.material.chunks, p, log, rate)
            && QueueHeld(c.segs, p + Sum(takes), log, nextSeq + |takes|, ch, rate)
            && Pending(c.segs, ch) + Sum(takes) == Pending(segs, ch)
    decreases |takes|
  {
    hide Held;
    if takes != [] {
      var d := DropShort(segs, ch);
      DropHeld(segs, p, log, nextSeq, ch, rate);
      var chunk := Chunk(nextSeq, takes[0], d[0].begin, d[0].tempo);
      FirstChunkHeld(d, chunk, p, log, nextSeq, ch, rate);
      CutHeld(d, takes[0], p, log, nextSeq, ch, rate);
      var next := CutFront(d, takes[0], ch, rate);
      ConsumeHeld(next, takes[1..], nextSeq + 1, p + takes[0], log, ch, rate);
      var rest := Consume(next, takes[1..], nextSeq + 1, ch, rate).material;
      assert ([chunk] + rest.chunks)[1..] == rest.chunks;
    }
  }

  lemma FirstChunkHeld(d: seq<Segment>, chunk: Chunk, p: nat, log: seq<Record>, nextSeq: nat, ch: nat, rate: int)
    requires ch > 0 && d != [] && |d[0].samples| >= ch && QueueHeld(d, p, log, nextSeq, ch, rate)
    requires chunk.num == nextSeq && chunk.beginBeats == d[0].begin && chunk.tempo == d[0].tempo
    ensures ChunkHeld(chunk, p, log, rate)
  {
    hide Held;
    assert Frames(d[0], ch) > 0 by {
      DivMonotone(ch, |d[0].samples|, ch);
      ModUnique(ch, ch, 1, 0);
    }
    forall i | 0 <= i < |log| && log[i].start <= p < log[i].start + log[i].frames
      ensures Held(chunk.beginBeats, chunk.tempo, p, log[i], chunk.num, rate)
    {
      assert Touches(log[i], p, Frames(d[0], ch));
    }
  }

  lemma {:induction false} ChunksHeldAppend(a: seq<Chunk>, b: seq<Chunk>, p: nat, log: seq<Record>, rate: int)
    requires ChunksHeld(a, p, log, rate) && ChunksHeld(b, p + TotalFrames(a), log, rate)
    ensures ChunksHeld(a + b, p, log, rate) && TotalFrames(a + b) == TotalFrames(a) + TotalFrames(b)
    decreases |a|
  {
    hide ChunkHeld;
    if a == [] {
      assert a + b == b;
    } else {
      assert (a + b)[1..] == a[1..] + b;
      ChunksHeldAppend(a[1..], b, p + a[0].numFrames, log, rate);
    }
  }

  lemma {:induction false} DrainHeld(segs: seq<Segment>, nextSeq: nat, p: nat, log: seq<Record>, ch: nat, rate: int,
                                     z: Sizing)
    requires ch > 0 && ValidSizing(z) && rate > 0 && Timed(segs) && QueueHeld(segs, p, log, nextSeq, ch, rate)
    ensures DrainedHeld(Drain(segs, nextSeq, ch, rate, z), Pending(segs, ch), p, log, ch, rate)
    decreases |Whole(segs, ch)|
  {
    hide DrainedHeld, QueueHeld, Whole, Counts, PlanFrom, Consume, Pending;
    var plan := NextPlan(segs, ch, z);
    if Full(plan, 2 * ch, z) {
      FullPlanShrinks(segs, nextSeq, ch, rate, z);
      ConsumeHeld(segs, plan.takes, nextSeq, p, log, ch, rate);
      ConsumeCovers(segs, plan.takes, nextSeq, ch, rate);
      var c := Consume(segs, plan.takes, nextSeq, ch, rate);
      DrainHeld(c.segs, nextSeq + |plan.takes|, p + Sum(plan.takes), log, ch, rate, z);
      var rest := Drain(c.segs, nextSeq + |plan.takes|, ch, rate, z);
      OneMoreDatagram(c.material, rest, Pending(c.segs, ch), p, log, ch, rate);
    } else {
      NothingDrained(segs, nextSeq, p, log, ch, rate);
    }
  }

  /** What is emitted is held from frame `p` on, and what stays from where it ends. */
  ghost predicate DrainedHeld(d: Drained, pending: nat, p: nat, log: seq<Record>, ch: nat, rate: int)
    requires ch > 0
  {
    var sent := TotalFrames(ChunksOf(d.out));
    && ChunksHeld(ChunksOf(d.out), p, log, rate)
    && QueueHeld(d.segs, p + sent, log, d.nextSeq, ch, rate) && Pending(d.segs, ch) + sent == pending
  }

  lemma OneMoreDatagram(m: Material, rest: Drained, pending: nat, p: nat, log: seq<Record>, ch: nat, rate: int)
    requires ch > 0 && ChunksHeld(m.chunks, p, log, rate)
    requires DrainedHeld(rest, pending, p + TotalFrames(m.chunks), log, ch, rate)
    ensures DrainedHeld(Drained([m] + rest.out, rest.segs, rest.nextSeq), pending + TotalFrames(m.chunks),
                        p, log, ch, rate)
  {
    hide QueueHeld, ChunksHeld, Pending;
    ChunksHeldAppend(m.chunks, ChunksOf(rest.out), p, log, rate);
    assert ([m] + rest.out)[1..] == rest.out;
  }

  lemma NothingDrained(segs: seq<Segment>, nextSeq: nat, p: nat, log: seq<Record>, ch: nat, rate: int)
    requires ch > 0 && QueueHeld(segs, p, log, nextSeq, ch, rate)
    ensures DrainedHeld(Drained([], segs, nextSeq), Pending(segs, ch), p, log, ch, rate)
  {
  }

  // ------------------------------------------------------------------ writing

  /** The log knows this write as its `k`-th: earlier ones end before it, later ones
      start after it. */
  ghost predicate Logged(log: seq<Record>, k: nat, begin: int, tempo: int, end: nat, frames: nat, now: nat) {
    && k < |log| && log[k] == Record(begin, tempo, end, frames, now)
    && (forall i :: 0 <= i < k ==> log[i].start + log[i].frames <= end)
    && (forall i :: k < i < |log| ==> log[i].start >= end + frames)
  }

  /** A write that starts a segment. */
  lemma NewHeld(seg: Segment, log: seq<Record>, k: nat, end: nat, now: nat, ch: nat, rate: int)
    requires ch > 0 && rate > 0 && seg.tempo > 0
    requires Logged(log, k, seg.begin, seg.tempo, end, Frames(seg, ch), now)
    ensures QueueHeld([seg], end, log, now, ch, rate)
  {
    hide Near;
    assert [seg][1..] == [];
    NearSelf(seg.begin, rate, seg.tempo);
    NearMore(seg.begin, seg.begin, 0, 0, 3, rate, seg.tempo);
    forall i | 0 <= i < |log| && Touches(log[i], end, Frames(seg, ch))
      ensures Held(seg.begin, seg.tempo, end, log[i], now, rate)
    {
      assert i == k;
    }
  }

  /** A write that extends one. */
  lemma LongerHeld(seg: Segment, samples: seq<i16>, begin: int, log: seq<Record>, k: nat, p: nat, now: nat, ch: nat,
                   rate: int)
    requires ch > 0 && rate > 0 && seg.tempo > 0 && |seg.samples| % ch == 0 && |samples| % ch == 0
    requires Contiguous([seg], begin, seg.tempo, rate, ch)
    requires SegmentHeld(seg, p, log, now, ch, rate)
    requires Logged(log, k, begin, seg.tempo, p + Frames(seg, ch), |samples| / ch, now)
    ensures QueueHeld([seg.(samples := seg.samples + samples)], p, log, now, ch, rate)
  {
    hide Near, FramesToMicroBeats;
    var longer := seg.(samples := seg.samples + samples);
    assert [longer][1..] == [];
    FramesAdd(|seg.samples|, |samples|, ch);
    NearJoin(seg.begin, Frames(seg, ch), begin, rate, seg.tempo);
    forall i | 0 <= i < |log| && Touches(log[i], p, Frames(longer, ch))
      ensures Held(longer.begin, longer.tempo, p, log[i], now, rate)
    {
      if i != k {
        assert i < k && Touches(log[i], p, Frames(seg, ch));
      }
    }
  }

  lemma FramesAdd(a: nat, b: nat, ch: nat)
    requires ch > 0 && a % ch == 0 && b % ch == 0
    ensures (a + b) / ch == a / ch + b / ch
  {
    DivBounds(a, ch);
    DivBounds(b, ch);
    Distribute(a / ch, b / ch, ch);
    ModUnique(a + b, ch, a / ch + b / ch, 0);
  }

  lemma {:induction false} EnqueueHeld(segs: seq<Segment>, w: Write, log: seq<Record>, k: nat, p: nat, now: nat,
                                       ch: nat, rate: int)
    requires ch > 0 && rate > 0 && w.tempo > 0 && Timed(segs) && Aligned(segs, ch) && |w.samples| % ch == 0
    requires QueueHeld(segs, p, log, now, ch, rate)
    requires Logged(log, k, w.begin, w.tempo, p + Pending(segs, ch), |w.samples| / ch, now)
    ensures QueueHeld(Enqueue(segs, w.begin, w.tempo, w.samples, rate, ch), p, log, now, ch, rate)
    decreases |segs|
  {
    hide Near, Held, FramesToMicroBeats, Logged;
    var q := Enqueue(segs, w.begin, w.tempo, w.samples, rate, ch);
    if segs == [] {
      NewHeld(Segment(w.begin, w.tempo, w.samples), log, k, p, now, ch, rate);
      assert q == [Segment(w.begin, w.tempo, w.samples)];
    } else if |segs| == 1 && Contiguous(segs, w.begin, w.tempo, rate, ch) {
      assert segs == [segs[0]];
      LongerHeld(segs[0], w.samples, w.begin, log, k, p, now, ch, rate);
      assert q == [segs[0].(samples := segs[0].samples + w.samples)];
    } else {
      EnqueueBehind(segs, w, ch, rate);
      EnqueueHeld(segs[1..], w, log, k, p + Frames(segs[0], ch), now, ch, rate);
    }
  }

  /** Behind a first segment that is not extended, the write joins the rest. */
  lemma EnqueueBehind(segs: seq<Segment>, w: Write, ch: nat, rate: int)
    requires ch > 0 && rate > 0 && w.tempo > 0 && segs != []
    requires |segs| > 1 || !Contiguous(segs, w.begin, w.tempo, rate, ch)
    ensures var q := Enqueue(segs, w.begin, w.tempo, w.samples, rate, ch);
            q != [] && q[0] == segs[0] && q[1..] == Enqueue(segs[1..], w.begin, w.tempo, w.samples, rate, ch)
  {
    hide FramesToMicroBeats;
    var q, tail := Enqueue(segs, w.begin, w.tempo, w.samples, rate, ch), segs[1..];
    if |segs| > 1 {
      assert tail[|tail| - 1] == segs[|segs| - 1];
      assert tail[..|tail| - 1] == segs[..|segs| - 1][1..];
    }
  }

  lemma {:induction false} EnqueuePending(segs: seq<Segment>, w: Write, ch: nat, rate: int)
    requires ch > 0 && rate > 0 && w.tempo > 0 && Aligned(segs, ch) && |w.samples| % ch == 0
    ensures Pending(Enqueue(segs, w.begin, w.tempo, w.samples, rate, ch), ch) == Pending(segs, ch) + |w.samples| / ch
    decreases |segs|
  {
    hide FramesToMicroBeats;
    var q := Enqueue(segs, w.begin, w.tempo, w.samples, rate, ch);
    if segs == [] {
      assert q == [Segment(w.begin, w.tempo, w.samples)] && q[1..] == [];
    } else if |segs| == 1 && Contiguous(segs, w.begin, w.tempo, rate, ch) {
      assert q == [segs[0].(samples := segs[0].samples + w.samples)] && q[1..] == [] && segs[1..] == [];
      FramesAdd(|segs[0].samples|, |w.samples|, ch);
    } else {
      EnqueueBehind(segs, w, ch, rate);
      EnqueuePending(segs[1..], w, ch, rate);
    }
  }

  // ------------------------------------------------------------ runs of writes

  /** The records of a run, `start` frames having been written before it. */
  function LogOf(segs: seq<Segment>, nextSeq: nat, ws: seq<Write>, start: nat, ch: nat, rate: int,
                 z: Sizing): (log: seq<Record>)
    requires ch > 0 && ValidSizing(z) && rate > 0 && Timed(segs) && ValidWrites(ws, ch)
    ensures |log| == |ws|
    decreases |ws|
  {
    if ws == [] then []
    else
      var n := |ws[0].samples| / ch;
      var d := Drain(Enqueue(segs, ws[0].begin, ws[0].tempo, ws[0].samples, rate, ch), nextSeq, ch, rate, z);
      [Record(ws[0].begin, ws[0].tempo, start, n, nextSeq)] + LogOf(d.segs, d.nextSeq, ws[1..], start + n, ch, rate, z)
  }

  ghost predicate AllFrom(log: seq<Record>, start: nat) {
    forall i :: 0 <= i < |log| ==> log[i].start >= start
  }

  lemma {:induction false} LogStarts(segs: seq<Segment>, nextSeq: nat, ws: seq<Write>, start: nat, ch: nat,
                                     rate: int, z: Sizing)
    requires ch > 0 && ValidSizing(z) && rate > 0 && Timed(segs) && ValidWrites(ws, ch)
    ensures AllFrom(LogOf(segs, nextSeq, ws, start, ch, rate, z), start)
    decreases |ws|
  {
    hide Drain, Enqueue;
    if ws != [] {
      var n := |ws[0].samples| / ch;
      var d := Drain(Enqueue(segs, ws[0].begin, ws[0].tempo, ws[0].samples, rate, ch), nextSeq, ch, rate, z);
      LogStarts(d.segs, d.nextSeq, ws[1..], start + n, ch, rate, z);
      var rest := LogOf(d.segs, d.nextSeq, ws[1..], start + n, ch, rate, z);
      assert n >= 0;
      assert LogOf(segs, nextSeq, ws, start, ch, rate, z)
             == [Record(ws[0].begin, ws[0].tempo, start, n, nextSeq)] + rest;
    }
  }

  /** What was written before ends by frame `end`. */
  ghost predicate Behind(past: seq<Record>, end: nat) {
    forall i :: 0 <= i < |past| ==> past[i].start + past[i].frames <= end
  }

  lemma NothingHeld(p: nat, log: seq<Record>, rate: int)
    ensures ChunksHeld(ChunksOf([]), p, log, rate)
  {
  }

  /** Every chunk of a run is held by its write. */
  lemma {:induction false} RunHeld(segs: seq<Segment>, nextSeq: nat, ws: seq<Write>, past: seq<Record>, p: nat,
                                   ch: nat, rate: int, z: Sizing)
    requires ch > 0 && ValidSizing(z) && rate > 0 && Timed(segs) && ValidWrites(ws, ch) && Aligned(segs, ch)
    requires var log := past + LogOf(segs, nextSeq, ws, p + Pending(segs, ch), ch, rate, z);
             QueueHeld(segs, p, log, nextSeq, ch, rate) && Behind(past, p + Pending(segs, ch))
    ensures var log := past + LogOf(segs, nextSeq, ws, p + Pending(segs, ch), ch, rate, z);
            ChunksHeld(ChunksOf(RunWrites(segs, nextSeq, ws, ch, rate, z).out), p, log, rate)
    decreases |ws|, 1
  {
    hide QueueHeld, ChunksHeld, Drain, Enqueue, Pending, Aligned, Behind, Logged, DrainedHeld, AllFrom;
    var end := p + Pending(segs, ch);
    var log := past + LogOf(segs, nextSeq, ws, end, ch, rate, z);
    if ws == [] {
      NothingHeld(p, log, rate);
    } else {
      var w := ws[0];
      var n := |w.samples| / ch;
      var q := Enqueue(segs, w.begin, w.tempo, w.samples, rate, ch);
      var rec := Record(w.begin, w.tempo, end, n, nextSeq);
      var d := Drain(q, nextSeq, ch, rate, z);
      var later := LogOf(d.segs, d.nextSeq, ws[1..], end + n, ch, rate, z);
      assert log == past + ([rec] + later);
      assert log == (past + [rec]) + later;
      LogStarts(d.segs, d.nextSeq, ws[1..], end + n, ch, rate, z);
      InTheLog(past, rec, later, end);
      EnqueueHeld(segs, w, log, |past|, p, nextSeq, ch, rate);
      EnqueuePending(segs, w, ch, rate);
      EnqueueAppends(segs, w.begin, w.tempo, w.samples, rate, ch);
      DrainHeld(q, nextSeq, p, log, ch, rate, z);
      DrainAligned(q, nextSeq, ch, rate, z);
      ThenTheRest(d, ws[1..], past, rec, log, later, p, end, Pending(q, ch), ch, rate, z);
    }
  }

  lemma InTheLog(past: seq<Record>, rec: Record, later: seq<Record>, end: nat)
    requires Behind(past, end) && rec.start == end
    requires AllFrom(later, end + rec.frames)
    ensures Logged(past + ([rec] + later), |past|, rec.begin, rec.tempo, end, rec.frames, rec.chunks)
    ensures Behind(past + [rec], end + rec.frames)
  {
    var log := past + ([rec] + later);
    forall i | |past| < i < |log| ensures log[i].start >= end + rec.frames {
      assert log[i] == later[i - |past| - 1];
    }
  }

  /** After one write's datagrams, the rest of the run. */
  lemma {:induction false} ThenTheRest(d: Drained, ws: seq<Write>, past: seq<Record>, rec: Record, log: seq<Record>,
                                       later: seq<Record>, p: nat, end: nat, pending: nat,
                                       ch: nat, rate: int, z: Sizing)
    requires ch > 0 && ValidSizing(z) && rate > 0 && Timed(d.segs) && ValidWrites(ws, ch) && Aligned(d.segs, ch)
    requires DrainedHeld(d, pending, p, log, ch, rate) && p + pending == end + rec.frames
    requires later == LogOf(d.segs, d.nextSeq, ws, end + rec.frames, ch, rate, z) && log == (past + [rec]) + later
    requires Behind(past + [rec], end + rec.frames)
    ensures var rest := RunWrites(d.segs, d.nextSeq, ws, ch, rate, z);
            ChunksHeld(ChunksOf(d.out + rest.out), p, log, rate)
    decreases |ws| + 1, 0
  {
    hide QueueHeld, ChunksHeld, Drain, Enqueue, Pending, Aligned, Behind;
    var sent := TotalFrames(ChunksOf(d.out));
    assert p + sent + Pending(d.segs, ch) == end + rec.frames;
    RunHeld(d.segs, d.nextSeq, ws, past + [rec], p + sent, ch, rate, z);
    var rest := RunWrites(d.segs, d.nextSeq, ws, ch, rate, z);
    ChunksOfAppend(d.out, rest.out);
    ChunksHeldAppend(ChunksOf(d.out), ChunksOf(rest.out), p, log, rate);
  }

  // --------------------------------------------------------------- the theorem

  lemma {:induction false} StreamAligned(ws: seq<Write>, ch: nat)
    requires ch > 0 && ValidWrites(ws, ch)
    ensures |Stream(ws)| % ch == 0
  {
    if ws != [] {
      StreamAligned(ws[1..], ch);
      AlignedSum(|ws[0].samples|, |Stream(ws[1..])|, ch);
    } else {
      ModUnique(0, ch, 0, 0);
    }
  }

  /** Frames written before the `i`-th write. */
  function StartOf(ws: seq<Write>, i: nat, ch: nat): nat
    requires ch > 0 && i <= |ws|
  {
    |Stream(ws[..i])| / ch
  }

  lemma StartAfterFirst(ws: seq<Write>, i: nat, ch: nat)
    requires ch > 0 && ValidWrites(ws, ch) && 0 < i <= |ws|
    ensures StartOf(ws, i, ch) == |ws[0].samples| / ch + StartOf(ws[1..], i - 1, ch)
  {
    assert ws[..i][1..] == ws[1..][..i - 1];
    StreamAligned(ws[1..][..i - 1], ch);
    FramesAdd(|ws[0].samples|, |Stream(ws[1..][..i - 1])|, ch);
  }

  /** What the log of a run holds. */
  lemma {:induction false} LogIs(segs: seq<Segment>, nextSeq: nat, ws: seq<Write>, start: nat, ch: nat, rate: int,
                                 z: Sizing, i: nat)
    requires ch > 0 && ValidSizing(z) && rate > 0 && Timed(segs) && ValidWrites(ws, ch) && i < |ws|
    ensures LogOf(segs, nextSeq, ws, start, ch, rate, z)[i]
         == Record(ws[i].begin, ws[i].tempo, start + StartOf(ws, i, ch), |ws[i].samples| / ch,
                   RunWrites(segs, nextSeq, ws[..i], ch, rate, z).nextSeq)
    decreases i
  {
    hide Drain, Enqueue;
    if i == 0 {
      assert ws[..0] == [] && Stream(ws[..0]) == [];
      ModUnique(0, ch, 0, 0);
    } else {
      hide StartOf;
      var d := Drain(Enqueue(segs, ws[0].begin, ws[0].tempo, ws[0].samples, rate, ch), nextSeq, ch, rate, z);
      LogIs(d.segs, d.nextSeq, ws[1..], start + |ws[0].samples| / ch, ch, rate, z, i - 1);
      assert ws[..i][1..] == ws[1..][..i - 1] && ws[..i][0] == ws[0];
      StartAfterFirst(ws, i, ch);
    }
  }

  lemma {:induction false} ChunkAt(chunks: seq<Chunk>, p: nat, log: seq<Record>, rate: int, k: nat)
    requires ChunksHeld(chunks, p, log, rate) && k < |chunks|
    ensures ChunkHeld(chunks[k], p + TotalFrames(chunks[..k]), log, rate)
    decreases k
  {
    hide ChunkHeld;
    if k > 0 {
      ChunkAt(chunks[1..], p + chunks[0].numFrames, log, rate, k - 1);
      assert chunks[..k][1..] == chunks[1..][..k - 1];
    }
  }

  /** Stamp drift on the wire. Over any run of frame-aligned writes, in either sizing:
      the stamp of an emitted chunk whose first frame came from the `i`-th write has
      that write's tempo and lies within (m+3)/2 micro-beats of the exact line through
      that write's stamp, m being the chunks cut between the write and this one. */
  lemma EmittedDrift(nextSeq: nat, ws: seq<Write>, ch: nat, rate: int, z: Sizing, k: nat, i: nat)
    requires ch > 0 && ValidSizing(z) && rate > 0 && ValidWrites(ws, ch) && i < |ws|
    requires k < |ChunksOf(RunWrites([], nextSeq, ws, ch, rate, z).out)|
    ensures var chunks := ChunksOf(RunWrites([], nextSeq, ws, ch, rate, z).out);
            var p, sent := TotalFrames(chunks[..k]), RunWrites([], nextSeq, ws[..i], ch, rate, z).nextSeq;
            StartOf(ws, i, ch) <= p < StartOf(ws, i, ch) + |ws[i].samples| / ch ==>
              && chunks[k].tempo == ws[i].tempo && sent <= chunks[k].num
              && Near(chunks[k].beginBeats, ws[i].begin, StartOf(ws, i, ch) - p, chunks[k].num - sent + 3,
                      rate, ws[i].tempo)
  {
    hide Near, Drain, Enqueue, StartOf, RunWrites;
    var log := LogOf([], nextSeq, ws, 0, ch, rate, z);
    assert [] + log == log;
    RunHeld([], nextSeq, ws, [], 0, ch, rate, z);
    var chunks := ChunksOf(RunWrites([], nextSeq, ws, ch, rate, z).out);
    ChunkAt(chunks, 0, log, rate, k);
    LogIs([], nextSeq, ws, 0, ch, rate, z, i);
  }

  /** Every frame of the stream belongs to a write. */
  lemma {:induction false} WriteOfFrame(ws: seq<Write>, p: nat, ch: nat) returns (i: nat)
    requires ch > 0 && ValidWrites(ws, ch) && p < |Stream(ws)| / ch
    ensures i < |ws| && StartOf(ws, i, ch) <= p < StartOf(ws, i, ch) + |ws[i].samples| / ch
    decreases |ws|
  {
    ModUnique(0, ch, 0, 0);
    var n := |ws[0].samples| / ch;
    StreamAligned(ws[1..], ch);
    FramesAdd(|ws[0].samples|, |Stream(ws[1..])|, ch);
    if p < n {
      assert ws[..0] == [];
      return 0;
    }
    var j := WriteOfFrame(ws[1..], p - n, ch);
    StartAfterFirst(ws, j + 1, ch);
    return j + 1;
  }

  /** Every emitted chunk has such a write. */
  lemma EmittedHasWrite(nextSeq: nat, ws: seq<Write>, ch: nat, rate: int, z: Sizing, k: nat) returns (i: nat)
    requires ch > 0 && ValidSizing(z) && rate > 0 && ValidWrites(ws, ch)
    requires k < |ChunksOf(RunWrites([], nextSeq, ws, ch, rate, z).out)|
    ensures var p := TotalFrames(ChunksOf(RunWrites([], nextSeq, ws, ch, rate, z).out)[..k]);
            i < |ws| && StartOf(ws, i, ch) <= p < StartOf(ws, i, ch) + |ws[i].samples| / ch
  {
    hide StartOf, RunWrites;
    var d := RunWrites([], nextSeq, ws, ch, rate, z);
    RunConserves([], nextSeq, ws, ch, rate, z);
    RunPacked([], nextSeq, ws, ch, rate, z);
    PackedFrames(d.out, ch, z, k);
    assert |DataOf(d.out)| <= |Stream(ws)|;
    DivMonotone(|DataOf(d.out)|, |Stream(ws)|, ch);
    i := WriteOfFrame(ws, TotalFrames(ChunksOf(d.out)[..k]), ch);
  }

  /** Well-packed datagrams have as many frames as their samples, some in every chunk. */
  lemma PackedFrames(out: seq<Material>, ch: nat, z: Sizing, k: nat)
    requires ch > 0 && k < |ChunksOf(out)| && forall i :: 0 <= i < |out| ==> WellPacked(out[i], ch, z)
    ensures TotalFrames(ChunksOf(out)[..k]) < |DataOf(out)| / ch
  {
    PackedTotal(out, ch, z);
    FramesBefore(ChunksOf(out), k);
    var t := TotalFrames(ChunksOf(out));
    ModUnique(t * ch, ch, t, 0);
  }

  lemma {:induction false} FramesBefore(chunks: seq<Chunk>, k: nat)
    requires k < |chunks| && forall c :: c in chunks ==> c.numFrames > 0
    ensures TotalFrames(chunks[..k]) < TotalFrames(chunks)
    decreases k
  {
    assert chunks[0] in chunks;
    if k > 0 {
      FramesBefore(chunks[1..], k - 1);
      assert chunks[..k][1..] == chunks[1..][..k - 1];
    }
  }

  lemma {:induction false} PackedTotal(out: seq<Material>, ch: nat, z: Sizing)
    requires ch > 0 && forall i :: 0 <= i < |out| ==> WellPacked(out[i], ch, z)
    ensures TotalFrames(ChunksOf(out)) * ch == |DataOf(out)| && forall c :: c in ChunksOf(out) ==> c.numFrames > 0
  {
    if out != [] {
      PackedTotal(out[1..], ch, z);
      var cs, rest := out[0].chunks, ChunksOf(out[1..]);
      TotalAppend(cs, rest);
      Distribute(TotalFrames(cs), TotalFrames(rest), ch);
      assert WellPacked(out[0], ch, z);
      assert forall c :: c in cs ==> c.numFrames > 0;
    }
  }

  lemma {:induction false} TotalAppend(a: seq<Chunk>, b: seq<Chunk>)
    ensures TotalFrames(a + b) == TotalFrames(a) + TotalFrames(b)
  {
    if a == [] {
      assert a + b == b;
    } else {
      assert (a + b)[1..] == a[1..] + b;
      TotalAppend(a[1..], b);
    }
  }
}
