/**
 The transmitting end of a channel. Written material queues in beat-stamped
 segments; full datagrams are planned over the queue and then cut from it in a
 second pass.
 */
module AudioSink {
  import opened Types
  import opened Wrappers
  import opened AudioWire
  import opened BeatGrid

  /** One pending run of contiguous material: session beat of its first frame,
      tempo, interleaved samples. */
  datatype Segment = Segment(begin: int, tempo: int, samples: seq<i16>)

  /** How datagrams are sized: the byte budget, the bytes each chunk costs beside
      its samples, and the most frames a chunk may cover (none means no cap). */
  datatype Sizing = Sizing(budget: nat, record: nat, cap: Option<nat>)

  const REFERENCE := Sizing(SAMPLE_BYTE_CAP, 0, None)
  const FILL := Sizing(MAX_PAYLOAD - AUDIO_FIXED_OVERHEAD, CHUNK_RECORD_SIZE, Some(V1_MAX_CHUNK_FRAMES))

  function SizingOf(fill: bool): Sizing {
    if fill then FILL else REFERENCE
  }

  predicate ValidSizing(z: Sizing) {
    z.cap.Some? ==> z.cap.value > 0
  }

  /** Duration of `frames`, in micro-beats. */
  function FramesToMicroBeats(frames: int, rate: int, tempo: int): int
    requires rate > 0 && tempo > 0
  {
    assert rate * tempo > 0;
    RoundDiv(frames * 1_000_000_000_000, rate * tempo)
  }

  predicate Timed(segs: seq<Segment>) {
    forall i :: 0 <= i < |segs| ==> segs[i].tempo > 0
  }

  // ------------------------------------------------------------- planning

  /** Whole frames pending in each segment. */
  function Counts(segs: seq<Segment>, ch: nat): (c: seq<nat>)
    requires ch > 0
    ensures |c| == |segs|
  {
    if segs == [] then [] else [|segs[0].samples| / ch] + Counts(segs[1..], ch)
  }

  function Sum(s: seq<nat>): nat {
    if s == [] then 0 else s[0] + Sum(s[1..])
  }

  /** Frames per chunk, budget left, and whether the budget ran out first. */
  datatype Plan = Plan(takes: seq<nat>, left: nat, exhausted: bool)

  function TakeSize(frames: nat, left: nat, fb: nat, z: Sizing): nat
    requires fb > 0 && left >= z.record + fb
  {
    var fit := Min(frames, (left - z.record) / fb);
    if z.cap.Some? then Min(fit, z.cap.value) else fit
  }

  lemma TakeSizeFits(frames: nat, left: nat, fb: nat, z: Sizing)
    requires fb > 0 && left >= z.record + fb && frames > 0 && ValidSizing(z)
    ensures 0 < TakeSize(frames, left, fb, z) <= frames
    ensures z.record + TakeSize(frames, left, fb, z) * fb <= left
  {
    DivBounds(left - z.record, fb);
    var d := (left - z.record) / fb;
    if d <= 0 { MulMono(d, 0, fb); }
    MulMono(TakeSize(frames, left, fb, z), d, fb);
  }

  function PlanFrom(counts: seq<nat>, left: nat, fb: nat, z: Sizing): Plan
    requires fb > 0 && ValidSizing(z)
    decreases |counts|, if counts == [] then 0 else counts[0]
  {
    if counts == [] then Plan([], left, false)
    else if counts[0] == 0 then PlanFrom(counts[1..], left, fb, z)
    else if left < z.record + fb then Plan([], left, true)
    else
      TakeSizeFits(counts[0], left, fb, z);
      var take := TakeSize(counts[0], left, fb, z);
      var rest := PlanFrom([counts[0] - take] + counts[1..], left - z.record - take * fb, fb, z);
      Plan([take] + rest.takes, rest.left, rest.exhausted)
  }

  /** Only full datagrams go out; a partial one waits. */
  predicate Full(p: Plan, fb: nat, z: Sizing) {
    p.takes != [] && (p.exhausted || p.left < z.record + fb)
  }

  /** The plan spends the budget exactly, draws at least one frame a chunk and
      never more than the cap, and stops only for want of budget or of frames. */
  lemma {:induction false} PlanProperties(counts: seq<nat>, left: nat, fb: nat, z: Sizing)
    requires fb > 0 && ValidSizing(z)
    ensures var p := PlanFrom(counts, left, fb, z);
            && (forall i :: 0 <= i < |p.takes| ==> 0 < p.takes[i] && (z.cap.Some? ==> p.takes[i] <= z.cap.value))
            && p.left + z.record * |p.takes| + fb * Sum(p.takes) == left
            && Sum(p.takes) <= Sum(counts)
            && (p.exhausted ==> p.left < z.record + fb)
            && (!p.exhausted ==> Sum(p.takes) == Sum(counts))
    decreases |counts|, if counts == [] then 0 else counts[0]
  {
    if counts == [] || (counts[0] != 0 && left < z.record + fb) {
    } else if counts[0] == 0 {
      PlanProperties(counts[1..], left, fb, z);
    } else {
      TakeSizeFits(counts[0], left, fb, z);
      var take := TakeSize(counts[0], left, fb, z);
      var cut := [counts[0] - take] + counts[1..];
      PlanProperties(cut, left - z.record - take * fb, fb, z);
      var rest := PlanFrom(cut, left - z.record - take * fb, fb, z);
      var takes := [take] + rest.takes;
      assert takes[1..] == rest.takes && cut[1..] == counts[1..];
      PlanCost(take, rest.takes, fb, z.record);
    }
  }

  lemma PlanCost(take: nat, rest: seq<nat>, fb: nat, record: nat)
    ensures record * |[take] + rest| + fb * Sum([take] + rest) == record + take * fb + record * |rest| + fb * Sum(rest)
  {
    assert ([take] + rest)[1..] == rest;
    assert record * (1 + |rest|) == record + record * |rest|;
    assert fb * (take + Sum(rest)) == fb * take + fb * Sum(rest);
  }

  // -------------------------------------------------------------- cutting

  /** Segments too short for a frame in front of the queue are discarded. */
  function DropShort(segs: seq<Segment>, ch: nat): (r: seq<Segment>)
    ensures Timed(segs) ==> Timed(r)
    ensures r != [] ==> |r[0].samples| >= ch
  {
    if segs != [] && |segs[0].samples| < ch then DropShort(segs[1..], ch) else segs
  }

  /** What remains of a segment once its first frames are cut. */
  function Advance(seg: Segment, take: nat, ch: nat, rate: int): Segment
    requires rate > 0 && seg.tempo > 0 && take * ch <= |seg.samples|
  {
    Segment(seg.begin + FramesToMicroBeats(take, rate, seg.tempo), seg.tempo, seg.samples[take * ch..])
  }

  /** The queue after cutting `take` frames from its front. */
  function CutFront(segs: seq<Segment>, take: nat, ch: nat, rate: int): (r: seq<Segment>)
    requires rate > 0 && Timed(segs) && segs != [] && take * ch <= |segs[0].samples|
    ensures Timed(r)
  {
    var seg := Advance(segs[0], take, ch, rate);
    if seg.samples == [] then segs[1..] else [seg] + segs[1..]
  }

  /** Every planned chunk finds its frames at the front of the queue. */
  predicate Feasible(segs: seq<Segment>, takes: seq<nat>, ch: nat, rate: int)
    requires rate > 0 && Timed(segs)
    decreases |takes|
  {
    takes == [] ||
    (var d := DropShort(segs, ch);
     d != [] && takes[0] * ch <= |d[0].samples| && Feasible(CutFront(d, takes[0], ch, rate), takes[1..], ch, rate))
  }

  /** The content of one datagram. */
  datatype Material = Material(chunks: seq<Chunk>, data: seq<i16>)

  datatype Cut = Cut(segs: seq<Segment>, material: Material)

  function Consume(segs: seq<Segment>, takes: seq<nat>, nextSeq: nat, ch: nat, rate: int): (c: Cut)
    requires rate > 0 && Timed(segs) && Feasible(segs, takes, ch, rate)
    ensures Timed(c.segs) && |c.material.chunks| == |takes|
    decreases |takes|
  {
    if takes == [] then Cut(segs, Material([], []))
    else
      var d := DropShort(segs, ch);
      var chunk := Chunk(nextSeq, takes[0], d[0].begin, d[0].tempo);
      var data := d[0].samples[..takes[0] * ch];
      var rest := Consume(CutFront(d, takes[0], ch, rate), takes[1..], nextSeq + 1, ch, rate);
      Cut(rest.segs, Material([chunk] + rest.material.chunks, data + rest.material.data))
  }

  /** Cutting `take` frames of `ch` samples from `n` samples. */
  lemma CutArithmetic(n: nat, take: nat, ch: nat)
    requires ch > 0 && take * ch <= n
    ensures take <= n / ch && (n - take * ch) / ch == n / ch - take
    ensures take * ch <= (n / ch) * ch <= n
    ensures (n / ch - take) * ch == (n / ch) * ch - take * ch
  {
    var m := n / ch;
    DivBounds(n, ch);
    MultipleOrder(take, m, ch);
    MulMono(take, m, ch);
    assert (m - take) * ch == m * ch - take * ch;
    ModUnique(n - take * ch, ch, m - take, n - m * ch);
  }

  lemma DivMul(n: nat, take: nat, ch: nat)
    requires ch > 0 && take <= n / ch
    ensures take * ch <= n
  {
    DivBounds(n, ch);
    MulMono(take, n / ch, ch);
  }

  /** Segments without a whole frame do not affect the plan. */
  lemma {:induction false} PlanSkipsShort(segs: seq<Segment>, ch: nat, left: nat, fb: nat, z: Sizing)
    requires ch > 0 && fb > 0 && ValidSizing(z)
    ensures PlanFrom(Counts(segs, ch), left, fb, z) == PlanFrom(Counts(DropShort(segs, ch), ch), left, fb, z)
  {
    if segs != [] && |segs[0].samples| < ch {
      NoWholeFrame(segs, ch);
      PlanSkipsZero(Counts(segs, ch), left, fb, z);
      PlanSkipsShort(segs[1..], ch, left, fb, z);
    }
  }

  lemma NoWholeFrame(segs: seq<Segment>, ch: nat)
    requires segs != [] && |segs[0].samples| < ch
    ensures Counts(segs, ch)[0] == 0 && Counts(segs, ch)[1..] == Counts(segs[1..], ch)
  {
    ModUnique(|segs[0].samples|, ch, 0, |segs[0].samples|);
  }

  lemma PlanSkipsZero(counts: seq<nat>, left: nat, fb: nat, z: Sizing)
    requires fb > 0 && ValidSizing(z) && counts != [] && counts[0] == 0
    ensures PlanFrom(counts, left, fb, z) == PlanFrom(counts[1..], left, fb, z)
  {
  }

  lemma CountsAfterCut(segs: seq<Segment>, take: nat, ch: nat, rate: int, left: nat, fb: nat, z: Sizing)
    requires ch > 0 && fb > 0 && ValidSizing(z) && rate > 0 && Timed(segs)
    requires segs != [] && take * ch <= |segs[0].samples|
    ensures var c := Counts(segs, ch);
            take <= c[0] && PlanFrom(Counts(CutFront(segs, take, ch, rate), ch), left, fb, z)
                         == PlanFrom([c[0] - take] + c[1..], left, fb, z)
  {
    CutArithmetic(|segs[0].samples|, take, ch);
    PlanFront(segs[1..], Advance(segs[0], take, ch, rate), ch, left, fb, z);
    assert Counts(segs, ch)[1..] == Counts(segs[1..], ch);
  }

  lemma PlanFront(tail: seq<Segment>, rest: Segment, ch: nat, left: nat, fb: nat, z: Sizing)
    requires ch > 0 && fb > 0 && ValidSizing(z)
    ensures PlanFrom(Counts(if rest.samples == [] then tail else [rest] + tail, ch), left, fb, z)
         == PlanFrom([|rest.samples| / ch] + Counts(tail, ch), left, fb, z)
  {
    var front := [|rest.samples| / ch] + Counts(tail, ch);
    assert front[1..] == Counts(tail, ch);
    if rest.samples == [] {
      PlanSkipsZero(front, left, fb, z);
    } else {
      assert ([rest] + tail)[1..] == tail;
    }
  }

  /** The second pass stays aligned with the first: every planned take finds its
      frames, for any queue whatever, short and empty segments included. */
  lemma {:induction false} PlanFeasible(segs: seq<Segment>, ch: nat, rate: int, left: nat, fb: nat, z: Sizing)
    requires ch > 0 && fb > 0 && ValidSizing(z) && rate > 0 && Timed(segs)
    ensures Feasible(segs, PlanFrom(Counts(segs, ch), left, fb, z).takes, ch, rate)
    decreases |PlanFrom(Counts(segs, ch), left, fb, z).takes|
  {
    var p := PlanFrom(Counts(segs, ch), left, fb, z);
    if p.takes != [] {
      PlanSkipsShort(segs, ch, left, fb, z);
      var d := DropShort(segs, ch);
      var c := Counts(d, ch);
      assert c[0] > 0 by { DivBounds(|d[0].samples|, ch); if c[0] <= 0 { MulMono(c[0], 0, ch); } }
      TakeSizeFits(c[0], left, fb, z);
      var take := TakeSize(c[0], left, fb, z);
      var left' := left - z.record - take * fb;
      DivMul(|d[0].samples|, take, ch);
      CountsAfterCut(d, take, ch, rate, left', fb, z);
      assert p.takes == [take] + PlanFrom([c[0] - take] + c[1..], left', fb, z).takes;
      assert p.takes[1..] == PlanFrom(Counts(CutFront(d, take, ch, rate), ch), left', fb, z).takes;
      PlanFeasible(CutFront(d, take, ch, rate), ch, rate, left', fb, z);
    }
  }

  // --------------------------------------------------------- conservation

  /** The whole frames pending, in order. */
  function Whole(segs: seq<Segment>, ch: nat): seq<i16>
    requires ch > 0
  {
    if segs == [] then [] else WholeOf(segs[0], ch) + Whole(segs[1..], ch)
  }

  function WholeOf(seg: Segment, ch: nat): seq<i16>
    requires ch > 0
  {
    DivMul(|seg.samples|, |seg.samples| / ch, ch);
    seg.samples[..(|seg.samples| / ch) * ch]
  }

  lemma {:induction false} WholeSkipsShort(segs: seq<Segment>, ch: nat)
    requires ch > 0
    ensures Whole(segs, ch) == Whole(DropShort(segs, ch), ch)
  {
    if segs != [] && |segs[0].samples| < ch {
      WholeSkipsShort(segs[1..], ch);
      ModUnique(|segs[0].samples|, ch, 0, |segs[0].samples|);
      assert WholeOf(segs[0], ch) == [];
    }
  }

  lemma WholeAfterCut(segs: seq<Segment>, take: nat, ch: nat, rate: int)
    requires ch > 0 && rate > 0 && Timed(segs) && segs != [] && take * ch <= |segs[0].samples|
    ensures segs[0].samples[..take * ch] + Whole(CutFront(segs, take, ch, rate), ch) == Whole(segs, ch)
  {
    var head, rest := segs[0].samples[..take * ch], Advance(segs[0], take, ch, rate);
    WholeOfAdvanced(segs[0], take, ch, rate);
    WholeFront(segs[1..], rest, ch);
    SampleAssoc(head, WholeOf(rest, ch), Whole(segs[1..], ch));
  }

  lemma WholeFront(tail: seq<Segment>, rest: Segment, ch: nat)
    requires ch > 0
    ensures Whole(if rest.samples == [] then tail else [rest] + tail, ch) == WholeOf(rest, ch) + Whole(tail, ch)
  {
    if rest.samples == [] {
      assert WholeOf(rest, ch) == [];
    } else {
      assert ([rest] + tail)[1..] == tail;
    }
  }

  lemma WholeOfAdvanced(seg: Segment, take: nat, ch: nat, rate: int)
    requires ch > 0 && rate > 0 && seg.tempo > 0 && take * ch <= |seg.samples|
    ensures seg.samples[..take * ch] + WholeOf(Advance(seg, take, ch, rate), ch) == WholeOf(seg, ch)
  {
    CutArithmetic(|seg.samples|, take, ch);
    SliceJoin(seg.samples, take * ch, (|seg.samples| / ch) * ch);
  }

  lemma SampleAssoc(a: seq<i16>, b: seq<i16>, c: seq<i16>)
    ensures a + b + c == a + (b + c)
  {
  }

  lemma SliceJoin(s: seq<i16>, i: nat, j: nat)
    requires i <= j <= |s|
    ensures s[..i] + s[i..][..j - i] == s[..j]
  {
  }

  /** Cutting moves whole frames from the queue into the datagram, in order,
      without loss or duplication. */
  lemma {:induction false} ConsumeConserves(segs: seq<Segment>, takes: seq<nat>, nextSeq: nat, ch: nat, rate: int)
    requires ch > 0 && rate > 0 && Timed(segs) && Feasible(segs, takes, ch, rate)
    ensures var c := Consume(segs, takes, nextSeq, ch, rate);
            c.material.data + Whole(c.segs, ch) == Whole(segs, ch)
    decreases |takes|
  {
    if takes != [] {
      WholeSkipsShort(segs, ch);
      var d := DropShort(segs, ch);
      var next := CutFront(d, takes[0], ch, rate);
      WholeAfterCut(d, takes[0], ch, rate);
      ConsumeConserves(next, takes[1..], nextSeq + 1, ch, rate);
      var rest := Consume(next, takes[1..], nextSeq + 1, ch, rate);
      var data := d[0].samples[..takes[0] * ch];
      SampleAssoc(data, rest.material.data, Whole(rest.segs, ch));
    }
  }

  /** A chunk list numbered from `first`, covering exactly these frame counts. */
  ghost predicate Covers(chunks: seq<Chunk>, takes: seq<nat>, first: nat) {
    |chunks| == |takes|
    && forall i :: 0 <= i < |takes| ==> chunks[i].num == first + i && chunks[i].numFrames == takes[i]
  }

  lemma CoversFront(chunk: Chunk, chunks: seq<Chunk>, takes: seq<nat>, first: nat)
    requires takes != [] && chunk.num == first && chunk.numFrames == takes[0] && Covers(chunks, takes[1..], first + 1)
    ensures Covers([chunk] + chunks, takes, first)
  {
    var all := [chunk] + chunks;
    forall i | 0 <= i < |takes| ensures all[i].num == first + i && all[i].numFrames == takes[i] {
      if i > 0 {
        assert all[i] == chunks[i - 1] && takes[i] == takes[1..][i - 1];
      }
    }
  }

  /** The chunks number consecutively and cover the planned frames, which are
      the frames of the data. */
  lemma {:induction false} ConsumeCovers(segs: seq<Segment>, takes: seq<nat>, nextSeq: nat, ch: nat, rate: int)
    requires ch > 0 && rate > 0 && Timed(segs) && Feasible(segs, takes, ch, rate)
    ensures var m := Consume(segs, takes, nextSeq, ch, rate).material;
            Covers(m.chunks, takes, nextSeq) && TotalFrames(m.chunks) == Sum(takes) && |m.data| == Sum(takes) * ch
    decreases |takes|
  {
    if takes != [] {
      var d := DropShort(segs, ch);
      var next := CutFront(d, takes[0], ch, rate);
      ConsumeCovers(next, takes[1..], nextSeq + 1, ch, rate);
      var rest := Consume(next, takes[1..], nextSeq + 1, ch, rate).material;
      var chunk := Chunk(nextSeq, takes[0], d[0].begin, d[0].tempo);
      CoversFront(chunk, rest.chunks, takes, nextSeq);
      assert ([chunk] + rest.chunks)[1..] == rest.chunks;
      Distribute(takes[0], Sum(takes[1..]), ch);
    }
  }

  lemma Distribute(a: nat, b: nat, ch: nat)
    ensures (a + b) * ch == a * ch + b * ch
  {
  }

  // ------------------------------------------------------------- draining

  datatype Drained = Drained(out: seq<Material>, segs: seq<Segment>, nextSeq: nat)

  function NextPlan(segs: seq<Segment>, ch: nat, z: Sizing): Plan
    requires ch > 0 && ValidSizing(z)
  {
    PlanFrom(Counts(segs, ch), z.budget, 2 * ch, z)
  }

  lemma WholeLength(segs: seq<Segment>, ch: nat)
    requires ch > 0
    ensures |Whole(segs, ch)| == Sum(Counts(segs, ch)) * ch
  {
    if segs != [] {
      WholeLength(segs[1..], ch);
      var c := Counts(segs, ch);
      assert c[1..] == Counts(segs[1..], ch);
      DivMul(|segs[0].samples|, c[0], ch);
      Distribute(c[0], Sum(c[1..]), ch);
    }
  }

  /** A full plan moves at least one frame out of the queue. */
  lemma FullPlanShrinks(segs: seq<Segment>, nextSeq: nat, ch: nat, rate: int, z: Sizing)
    requires ch > 0 && ValidSizing(z) && rate > 0 && Timed(segs) && NextPlan(segs, ch, z).takes != []
    ensures Feasible(segs, NextPlan(segs, ch, z).takes, ch, rate)
    ensures |Whole(Consume(segs, NextPlan(segs, ch, z).takes, nextSeq, ch, rate).segs, ch)| < |Whole(segs, ch)|
  {
    var p := NextPlan(segs, ch, z);
    PlanFeasible(segs, ch, rate, z.budget, 2 * ch, z);
    PlanProperties(Counts(segs, ch), z.budget, 2 * ch, z);
    ConsumeConserves(segs, p.takes, nextSeq, ch, rate);
    ConsumeCovers(segs, p.takes, nextSeq, ch, rate);
    assert p.takes[0] > 0;
    MulMono(1, Sum(p.takes), ch);
  }

  function Drain(segs: seq<Segment>, nextSeq: nat, ch: nat, rate: int, z: Sizing): (d: Drained)
    requires ch > 0 && ValidSizing(z) && rate > 0 && Timed(segs)
    ensures Timed(d.segs)
    decreases |Whole(segs, ch)|
  {
    var p := NextPlan(segs, ch, z);
    if !Full(p, 2 * ch, z) then Drained([], segs, nextSeq)
    else
      FullPlanShrinks(segs, nextSeq, ch, rate, z);
      var c := Consume(segs, p.takes, nextSeq, ch, rate);
      var rest := Drain(c.segs, nextSeq + |p.takes|, ch, rate, z);
      Drained([c.material] + rest.out, rest.segs, rest.nextSeq)
  }

  function DataOf(out: seq<Material>): seq<i16> {
    if out == [] then [] else out[0].data + DataOf(out[1..])
  }

  function ChunksOf(out: seq<Material>): seq<Chunk> {
    if out == [] then [] else out[0].chunks + ChunksOf(out[1..])
  }

  /** What is true of every emitted datagram: at least one chunk, frames that
      match the samples, chunks within the cap, and a budget spent to within one
      more one-frame chunk. */
  predicate WellPacked(m: Material, ch: nat, z: Sizing) {
    && m.chunks != []
    && TotalFrames(m.chunks) * ch == |m.data|
    && (forall i :: 0 <= i < |m.chunks| ==>
          0 < m.chunks[i].numFrames && (z.cap.Some? ==> m.chunks[i].numFrames <= z.cap.value))
    && var cost := z.record * |m.chunks| + 2 * |m.data|;
       cost <= z.budget < cost + z.record + 2 * ch
  }

  lemma PackedOne(segs: seq<Segment>, nextSeq: nat, ch: nat, rate: int, z: Sizing)
    requires ch > 0 && ValidSizing(z) && rate > 0 && Timed(segs) && Full(NextPlan(segs, ch, z), 2 * ch, z)
    ensures Feasible(segs, NextPlan(segs, ch, z).takes, ch, rate)
    ensures WellPacked(Consume(segs, NextPlan(segs, ch, z).takes, nextSeq, ch, rate).material, ch, z)
  {
    var p := NextPlan(segs, ch, z);
    PlanFeasible(segs, ch, rate, z.budget, 2 * ch, z);
    PlanProperties(Counts(segs, ch), z.budget, 2 * ch, z);
    ConsumeCovers(segs, p.takes, nextSeq, ch, rate);
    FrameBytes(ch, Sum(p.takes));
  }

  lemma FrameBytes(ch: nat, frames: nat)
    ensures (2 * ch) * frames == 2 * (frames * ch)
  {
  }

  /** Draining conserves samples in order, for any queue of segments. */
  lemma {:induction false} DrainConserves(segs: seq<Segment>, nextSeq: nat, ch: nat, rate: int, z: Sizing)
    requires ch > 0 && ValidSizing(z) && rate > 0 && Timed(segs)
    ensures var d := Drain(segs, nextSeq, ch, rate, z);
            DataOf(d.out) + Whole(d.segs, ch) == Whole(segs, ch)
    decreases |Whole(segs, ch)|
  {
    var p := NextPlan(segs, ch, z);
    var d := Drain(segs, nextSeq, ch, rate, z);
    if Full(p, 2 * ch, z) {
      FullPlanShrinks(segs, nextSeq, ch, rate, z);
      ConsumeConserves(segs, p.takes, nextSeq, ch, rate);
      var c := Consume(segs, p.takes, nextSeq, ch, rate);
      DrainConserves(c.segs, nextSeq + |p.takes|, ch, rate, z);
      assert d.out[1..] == Drain(c.segs, nextSeq + |p.takes|, ch, rate, z).out;
      SampleAssoc(c.material.data, DataOf(d.out[1..]), Whole(d.segs, ch));
    } else {
      assert DataOf(d.out) + Whole(d.segs, ch) == Whole(segs, ch);
    }
  }

  /** Every datagram is well packed, and what stays pending does not fill
      another. */
  lemma {:induction false} DrainPacked(segs: seq<Segment>, nextSeq: nat, ch: nat, rate: int, z: Sizing)
    requires ch > 0 && ValidSizing(z) && rate > 0 && Timed(segs)
    ensures var d := Drain(segs, nextSeq, ch, rate, z);
            && (forall i :: 0 <= i < |d.out| ==> WellPacked(d.out[i], ch, z))
            && !Full(NextPlan(d.segs, ch, z), 2 * ch, z)
    decreases |Whole(segs, ch)|
  {
    hide WellPacked, Consume, Counts, PlanFrom;
    var p := NextPlan(segs, ch, z);
    if Full(p, 2 * ch, z) {
      PackedOne(segs, nextSeq, ch, rate, z);
      FullPlanShrinks(segs, nextSeq, ch, rate, z);
      var c := Consume(segs, p.takes, nextSeq, ch, rate);
      DrainPacked(c.segs, nextSeq + |p.takes|, ch, rate, z);
      assert Drain(segs, nextSeq, ch, rate, z).out
          == [c.material] + Drain(c.segs, nextSeq + |p.takes|, ch, rate, z).out;
    }
  }

  /** Chunk numbers run on consecutively from chunk to chunk and from datagram to
      datagram. */
  lemma {:induction false} DrainNumbers(segs: seq<Segment>, nextSeq: nat, ch: nat, rate: int, z: Sizing)
    requires ch > 0 && ValidSizing(z) && rate > 0 && Timed(segs)
    ensures var d := Drain(segs, nextSeq, ch, rate, z);
            && d.nextSeq == nextSeq + |ChunksOf(d.out)|
            && Numbered(ChunksOf(d.out), nextSeq)
    decreases |Whole(segs, ch)|
  {
    var p := NextPlan(segs, ch, z);
    var d := Drain(segs, nextSeq, ch, rate, z);
    if Full(p, 2 * ch, z) {
      FullPlanShrinks(segs, nextSeq, ch, rate, z);
      ConsumeCovers(segs, p.takes, nextSeq, ch, rate);
      var c := Consume(segs, p.takes, nextSeq, ch, rate);
      DrainNumbers(c.segs, nextSeq + |p.takes|, ch, rate, z);
      assert d.out[1..] == Drain(c.segs, nextSeq + |p.takes|, ch, rate, z).out;
      NumberedAppend(c.material.chunks, ChunksOf(d.out[1..]), nextSeq);
    }
  }

  predicate Numbered(chunks: seq<Chunk>, first: nat) {
    forall i :: 0 <= i < |chunks| ==> chunks[i].num == first + i
  }

  lemma NumberedAppend(a: seq<Chunk>, b: seq<Chunk>, first: nat)
    requires Numbered(a, first) && Numbered(b, first + |a|)
    ensures Numbered(a + b, first)
  {
  }

  // ------------------------------------------------------ reference sizing

  /** Frames in a datagram of reference sizing. */
  function BlockFrames(ch: nat): (k: nat)
    requires ch > 0
    ensures ch <= 251 ==> k > 0
  {
    BlockBounds(ch);
    SAMPLE_BYTE_CAP / (2 * ch)
  }

  lemma BlockBounds(ch: nat)
    requires ch > 0
    ensures 0 <= SAMPLE_BYTE_CAP / (2 * ch)
    ensures ch <= 251 ==> 0 < SAMPLE_BYTE_CAP / (2 * ch)
  {
    Fits(0, SAMPLE_BYTE_CAP, 2 * ch);
    if ch <= 251 {
      Fits(1, SAMPLE_BYTE_CAP, 2 * ch);
    }
  }

  lemma Fits(n: nat, budget: nat, fb: nat)
    requires fb > 0 && n * fb <= budget
    ensures n <= budget / fb
  {
    DivBounds(budget, fb);
    MultipleOrder(n, budget / fb, fb);
  }

  /** In reference sizing every datagram holds exactly one block of frames,
      whatever segments it was cut from. */
  lemma ReferenceBlock(m: Material, ch: nat)
    requires ch > 0 && WellPacked(m, ch, REFERENCE)
    ensures |m.data| == BlockFrames(ch) * ch
  {
    var t := TotalFrames(m.chunks);
    FrameBytes(ch, t);
    ModUnique(SAMPLE_BYTE_CAP, 2 * ch, t, SAMPLE_BYTE_CAP - (2 * ch) * t);
  }

  /** A queue that does not fill a datagram holds less than a block. */
  lemma ReferencePending(segs: seq<Segment>, ch: nat)
    requires 0 < ch <= 251 && !Full(NextPlan(segs, ch, REFERENCE), 2 * ch, REFERENCE)
    ensures |Whole(segs, ch)| < BlockFrames(ch) * ch
  {
    PendingFrames(segs, ch);
    WholeLength(segs, ch);
    MulMono(Sum(Counts(segs, ch)) + 1, BlockFrames(ch), ch);
    Distribute(Sum(Counts(segs, ch)), 1, ch);
  }

  lemma PendingFrames(segs: seq<Segment>, ch: nat)
    requires 0 < ch <= 251 && !Full(NextPlan(segs, ch, REFERENCE), 2 * ch, REFERENCE)
    ensures Sum(Counts(segs, ch)) < BlockFrames(ch)
  {
    var p, fb := NextPlan(segs, ch, REFERENCE), 2 * ch;
    PlanProperties(Counts(segs, ch), SAMPLE_BYTE_CAP, fb, REFERENCE);
    if p.takes == [] {
      assert Sum(p.takes) == 0 && fb * 0 == 0;
    }
    RoomForOneMore(Sum(p.takes), fb);
  }

  lemma RoomForOneMore(n: nat, fb: nat)
    requires 0 < fb && (fb * n + fb <= SAMPLE_BYTE_CAP || (n == 0 && fb <= SAMPLE_BYTE_CAP))
    ensures n < SAMPLE_BYTE_CAP / fb
  {
    assert (n + 1) * fb == fb * n + fb;
    Fits(n + 1, SAMPLE_BYTE_CAP, fb);
  }

  /** With more than 251 channels no frame fits a reference datagram: nothing is
      ever emitted. */
  lemma ReferenceTooWide(segs: seq<Segment>, nextSeq: nat, ch: nat, rate: int)
    requires ch > 251 && rate > 0 && Timed(segs)
    ensures Drain(segs, nextSeq, ch, rate, REFERENCE) == Drained([], segs, nextSeq)
  {
    NoRoom(Counts(segs, ch), SAMPLE_BYTE_CAP, 2 * ch, REFERENCE);
  }

  lemma {:induction false} NoRoom(counts: seq<nat>, left: nat, fb: nat, z: Sizing)
    requires fb > 0 && ValidSizing(z) && left < z.record + fb
    ensures var p := PlanFrom(counts, left, fb, z);
            p.takes == [] && (p.exhausted || p.left == left)
  {
    if counts != [] && counts[0] == 0 {
      NoRoom(counts[1..], left, fb, z);
    }
  }

  // -------------------------------------------------------------- writing

  /** Every pending segment holds whole frames only. */
  predicate Aligned(segs: seq<Segment>, ch: nat)
    requires ch > 0
  {
    forall i :: 0 <= i < |segs| ==> |segs[i].samples| % ch == 0
  }

  /** New material continues the last run when the tempo matches and it starts
      within one micro-beat of the run's end. */
  predicate Contiguous(segs: seq<Segment>, begin: int, tempo: int, rate: int, ch: nat)
    requires ch > 0 && rate > 0 && tempo > 0
  {
    segs != [] &&
    var last := segs[|segs| - 1];
    last.tempo == tempo
    && Abs(last.begin + FramesToMicroBeats(|last.samples| / ch, rate, tempo) - begin) <= 1
  }

  function Enqueue(segs: seq<Segment>, begin: int, tempo: int, samples: seq<i16>, rate: int, ch: nat): (r: seq<Segment>)
    requires ch > 0 && rate > 0 && tempo > 0
    ensures Timed(segs) ==> Timed(r)
  {
    if Contiguous(segs, begin, tempo, rate, ch) then
      var last := segs[|segs| - 1];
      segs[..|segs| - 1] + [last.(samples := last.samples + samples)]
    else segs + [Segment(begin, tempo, samples)]
  }

  lemma {:induction false} WholeAppend(a: seq<Segment>, b: seq<Segment>, ch: nat)
    requires ch > 0
    ensures Whole(a + b, ch) == Whole(a, ch) + Whole(b, ch)
  {
    if a == [] {
      assert a + b == b;
    } else {
      assert (a + b)[1..] == a[1..] + b;
      WholeAppend(a[1..], b, ch);
      SampleAssoc(WholeOf(a[0], ch), Whole(a[1..], ch), Whole(b, ch));
    }
  }

  lemma WholeAligned(seg: Segment, ch: nat)
    requires ch > 0 && |seg.samples| % ch == 0
    ensures WholeOf(seg, ch) == seg.samples && Whole([seg], ch) == seg.samples
  {
    DivBounds(|seg.samples|, ch);
    var one := [seg];
    assert one[1..] == [];
  }

  lemma AlignedSum(a: nat, b: nat, ch: nat)
    requires ch > 0 && a % ch == 0 && b % ch == 0
    ensures (a + b) % ch == 0
  {
    DivBounds(a, ch);
    DivBounds(b, ch);
    Distribute(a / ch, b / ch, ch);
    ModUnique(a + b, ch, a / ch + b / ch, 0);
  }

  /** Queueing frame-aligned material appends it to the pending stream, whether it
      extends a run or starts one. */
  lemma EnqueueAppends(segs: seq<Segment>, begin: int, tempo: int, samples: seq<i16>, rate: int, ch: nat)
    requires ch > 0 && rate > 0 && tempo > 0 && Aligned(segs, ch) && |samples| % ch == 0
    ensures var r := Enqueue(segs, begin, tempo, samples, rate, ch);
            Aligned(r, ch) && Whole(r, ch) == Whole(segs, ch) + samples
  {
    if Contiguous(segs, begin, tempo, rate, ch) {
      var n := |segs| - 1;
      var last := segs[n];
      var longer := last.(samples := last.samples + samples);
      AlignedSum(|last.samples|, |samples|, ch);
      assert segs == segs[..n] + [last];
      WholeAppend(segs[..n], [last], ch);
      WholeAppend(segs[..n], [longer], ch);
      WholeAligned(last, ch);
      WholeAligned(longer, ch);
      SampleAssoc(Whole(segs[..n], ch), last.samples, samples);
    } else {
      WholeAppend(segs, [Segment(begin, tempo, samples)], ch);
      WholeAligned(Segment(begin, tempo, samples), ch);
    }
  }

  lemma {:induction false} DropShortAligned(segs: seq<Segment>, ch: nat)
    requires ch > 0 && Aligned(segs, ch)
    ensures Aligned(DropShort(segs, ch), ch)
  {
    if segs != [] && |segs[0].samples| < ch {
      DropShortAligned(segs[1..], ch);
    }
  }

  lemma CutFrontAligned(segs: seq<Segment>, take: nat, ch: nat, rate: int)
    requires ch > 0 && rate > 0 && Timed(segs) && segs != [] && take * ch <= |segs[0].samples| && Aligned(segs, ch)
    ensures Aligned(CutFront(segs, take, ch, rate), ch)
  {
    var n := |segs[0].samples|;
    DivBounds(n, ch);
    CutArithmetic(n, take, ch);
    ModUnique(n - take * ch, ch, n / ch - take, 0);
  }

  lemma {:induction false} ConsumeAligned(segs: seq<Segment>, takes: seq<nat>, nextSeq: nat, ch: nat, rate: int)
    requires ch > 0 && rate > 0 && Timed(segs) && Feasible(segs, takes, ch, rate) && Aligned(segs, ch)
    ensures Aligned(Consume(segs, takes, nextSeq, ch, rate).segs, ch)
    decreases |takes|
  {
    if takes != [] {
      var d := DropShort(segs, ch);
      DropShortAligned(segs, ch);
      CutFrontAligned(d, takes[0], ch, rate);
      ConsumeAligned(CutFront(d, takes[0], ch, rate), takes[1..], nextSeq + 1, ch, rate);
    }
  }

  lemma {:induction false} DrainAligned(segs: seq<Segment>, nextSeq: nat, ch: nat, rate: int, z: Sizing)
    requires ch > 0 && ValidSizing(z) && rate > 0 && Timed(segs) && Aligned(segs, ch)
    ensures Aligned(Drain(segs, nextSeq, ch, rate, z).segs, ch)
    decreases |Whole(segs, ch)|
  {
    var p := NextPlan(segs, ch, z);
    if Full(p, 2 * ch, z) {
      FullPlanShrinks(segs, nextSeq, ch, rate, z);
      ConsumeAligned(segs, p.takes, nextSeq, ch, rate);
      DrainAligned(Consume(segs, p.takes, nextSeq, ch, rate).segs, nextSeq + |p.takes|, ch, rate, z);
    }
  }

  // ------------------------------------------------------- runs of writes

  /** One write, its stamp already mapped to session beats. */
  datatype Write = Write(begin: int, tempo: int, samples: seq<i16>)

  predicate ValidWrites(ws: seq<Write>, ch: nat)
    requires ch > 0
  {
    forall i :: 0 <= i < |ws| ==> ws[i].tempo > 0 && |ws[i].samples| % ch == 0
  }

  function Stream(ws: seq<Write>): seq<i16> {
    if ws == [] then [] else ws[0].samples + Stream(ws[1..])
  }

  /** Successive writes in one format to a sink with a live requester. */
  function RunWrites(segs: seq<Segment>, nextSeq: nat, ws: seq<Write>, ch: nat, rate: int, z: Sizing): (d: Drained)
    requires ch > 0 && ValidSizing(z) && rate > 0 && Timed(segs) && ValidWrites(ws, ch)
    ensures Timed(d.segs)
    decreases |ws|
  {
    if ws == [] then Drained([], segs, nextSeq)
    else
      var d := Drain(Enqueue(segs, ws[0].begin, ws[0].tempo, ws[0].samples, rate, ch), nextSeq, ch, rate, z);
      var rest := RunWrites(d.segs, d.nextSeq, ws[1..], ch, rate, z);
      Drained(d.out + rest.out, rest.segs, rest.nextSeq)
  }

  lemma {:induction false} DataOfAppend(a: seq<Material>, b: seq<Material>)
    ensures DataOf(a + b) == DataOf(a) + DataOf(b)
  {
    if a == [] {
      assert a + b == b;
    } else {
      assert (a + b)[1..] == a[1..] + b;
      DataOfAppend(a[1..], b);
      SampleAssoc(a[0].data, DataOf(a[1..]), DataOf(b));
    }
  }

  lemma {:induction false} ChunksOfAppend(a: seq<Material>, b: seq<Material>)
    ensures ChunksOf(a + b) == ChunksOf(a) + ChunksOf(b)
  {
    if a == [] {
      assert a + b == b;
    } else {
      assert (a + b)[1..] == a[1..] + b;
      ChunksOfAppend(a[1..], b);
      assert a[0].chunks + ChunksOf(a[1..]) + ChunksOf(b) == a[0].chunks + (ChunksOf(a[1..]) + ChunksOf(b));
    }
  }

  /** Conservation over any run: emitted then pending is what was pending then
      everything written, in either sizing. */
  lemma {:induction false} RunConserves(segs: seq<Segment>, nextSeq: nat, ws: seq<Write>, ch: nat, rate: int, z: Sizing)
    requires ch > 0 && ValidSizing(z) && rate > 0 && Timed(segs) && ValidWrites(ws, ch) && Aligned(segs, ch)
    ensures var d := RunWrites(segs, nextSeq, ws, ch, rate, z);
            DataOf(d.out) + Whole(d.segs, ch) == Whole(segs, ch) + Stream(ws)
    decreases |ws|
  {
    if ws == [] {
      assert DataOf([]) + Whole(segs, ch) == Whole(segs, ch) + Stream(ws);
    } else {
      var queued := Enqueue(segs, ws[0].begin, ws[0].tempo, ws[0].samples, rate, ch);
      EnqueueAppends(segs, ws[0].begin, ws[0].tempo, ws[0].samples, rate, ch);
      DrainConserves(queued, nextSeq, ch, rate, z);
      DrainAligned(queued, nextSeq, ch, rate, z);
      var d := Drain(queued, nextSeq, ch, rate, z);
      RunConserves(d.segs, d.nextSeq, ws[1..], ch, rate, z);
      var rest := RunWrites(d.segs, d.nextSeq, ws[1..], ch, rate, z);
      DataOfAppend(d.out, rest.out);
      SampleAssoc(DataOf(d.out), DataOf(rest.out), Whole(rest.segs, ch));
      SampleAssoc(DataOf(d.out), Whole(d.segs, ch), Stream(ws[1..]));
      SampleAssoc(Whole(segs, ch), ws[0].samples, Stream(ws[1..]));
    }
  }

  /** Every datagram of a run is well packed, and the queue it leaves fills no
      further datagram. */
  lemma {:induction false} RunPacked(segs: seq<Segment>, nextSeq: nat, ws: seq<Write>, ch: nat, rate: int, z: Sizing)
    requires ch > 0 && ValidSizing(z) && rate > 0 && Timed(segs) && ValidWrites(ws, ch)
    requires !Full(NextPlan(segs, ch, z), 2 * ch, z)
    ensures var d := RunWrites(segs, nextSeq, ws, ch, rate, z);
            (forall i :: 0 <= i < |d.out| ==> WellPacked(d.out[i], ch, z)) && !Full(NextPlan(d.segs, ch, z), 2 * ch, z)
    decreases |ws|
  {
    if ws != [] {
      var queued := Enqueue(segs, ws[0].begin, ws[0].tempo, ws[0].samples, rate, ch);
      DrainPacked(queued, nextSeq, ch, rate, z);
      var d := Drain(queued, nextSeq, ch, rate, z);
      RunPacked(d.segs, d.nextSeq, ws[1..], ch, rate, z);
    }
  }

  /** Chunk numbers run on consecutively over a whole run of writes. */
  lemma {:induction false} RunNumbers(segs: seq<Segment>, nextSeq: nat, ws: seq<Write>, ch: nat, rate: int, z: Sizing)
    requires ch > 0 && ValidSizing(z) && rate > 0 && Timed(segs) && ValidWrites(ws, ch)
    ensures var d := RunWrites(segs, nextSeq, ws, ch, rate, z);
            d.nextSeq == nextSeq + |ChunksOf(d.out)| && Numbered(ChunksOf(d.out), nextSeq)
    decreases |ws|
  {
    if ws != [] {
      var queued := Enqueue(segs, ws[0].begin, ws[0].tempo, ws[0].samples, rate, ch);
      DrainNumbers(queued, nextSeq, ch, rate, z);
      var d := Drain(queued, nextSeq, ch, rate, z);
      RunNumbers(d.segs, d.nextSeq, ws[1..], ch, rate, z);
      var rest := RunWrites(d.segs, d.nextSeq, ws[1..], ch, rate, z);
      ChunksOfAppend(d.out, rest.out);
      NumberedAppend(ChunksOf(d.out), ChunksOf(rest.out), nextSeq);
    }
  }

  /** Equal-sized datagrams are the blocks of their concatenation. */
  lemma {:induction false} Blocks(out: seq<Material>, size: nat, i: nat)
    requires i < |out| && forall j :: 0 <= j < |out| ==> |out[j].data| == size
    ensures i * size + size <= |DataOf(out)| && DataOf(out)[i * size..i * size + size] == out[i].data
  {
    if i == 0 {
      assert DataOf(out)[..size] == out[0].data;
    } else {
      var rest, at := out[1..], (i - 1) * size;
      assert forall j :: 0 <= j < |rest| ==> |rest[j].data| == size;
      Blocks(rest, size, i - 1);
      Distribute(1, i - 1, size);
      assert DataOf(out)[size + at..size + at + size] == DataOf(rest)[at..at + size];
    }
  }

  lemma {:induction false} BlocksLength(out: seq<Material>, size: nat)
    requires forall j :: 0 <= j < |out| ==> |out[j].data| == size
    ensures |DataOf(out)| == |out| * size
  {
    if out != [] {
      BlocksLength(out[1..], size);
      Distribute(1, |out| - 1, size);
    }
  }

  /** Stream refinement, reference sizing: over any run of frame-aligned writes
      in one format, the i-th datagram's samples are exactly the i-th block of the
      concatenated written stream, and there are as many datagrams as whole
      blocks - whatever the write boundaries, stamps, tempo changes and
      segmentation. */
  lemma StreamRefinement(nextSeq: nat, ws: seq<Write>, ch: nat, rate: int)
    requires 0 < ch <= 251 && rate > 0 && ValidWrites(ws, ch)
    ensures var out := RunWrites([], nextSeq, ws, ch, rate, REFERENCE).out;
            IsBlocksOf(out, Stream(ws), BlockFrames(ch) * ch)
  {
    var d := RunWrites([], nextSeq, ws, ch, rate, REFERENCE);
    RunConserves([], nextSeq, ws, ch, rate, REFERENCE);
    assert Whole([], ch) + Stream(ws) == Stream(ws);
    RunPacked([], nextSeq, ws, ch, rate, REFERENCE);
    ReferencePending(d.segs, ch);
    forall j | 0 <= j < |d.out| ensures |d.out[j].data| == BlockFrames(ch) * ch {
      ReferenceBlock(d.out[j], ch);
    }
    BlocksOfStream(d.out, Whole(d.segs, ch), BlockFrames(ch) * ch);
  }

  /** The datagrams are the consecutive whole blocks of the stream. */
  ghost predicate IsBlocksOf(out: seq<Material>, stream: seq<i16>, size: nat) {
    && size > 0 && |out| == |stream| / size
    && forall i :: 0 <= i < |out| ==>
         i * size + size <= |stream| && out[i].data == stream[i * size..i * size + size]
  }

  lemma BlocksOfStream(out: seq<Material>, pending: seq<i16>, size: nat)
    requires forall j :: 0 <= j < |out| ==> |out[j].data| == size
    requires |pending| < size
    ensures IsBlocksOf(out, DataOf(out) + pending, size)
  {
    var stream := DataOf(out) + pending;
    BlocksLength(out, size);
    ModUnique(|stream|, size, |out|, |pending|);
    forall i | 0 <= i < |out|
      ensures i * size + size <= |stream| && out[i].data == stream[i * size..i * size + size]
    {
      Blocks(out, size, i);
      assert stream[i * size..i * size + size] == DataOf(out)[i * size..i * size + size];
    }
  }

  /** Two runs that write the same stream, however they split and stamp it, emit
      the same samples datagram by datagram. */
  lemma SplitIndependence(n1: nat, ws1: seq<Write>, n2: nat, ws2: seq<Write>, ch: nat, rate: int)
    requires 0 < ch <= 251 && rate > 0 && ValidWrites(ws1, ch) && ValidWrites(ws2, ch)
    requires Stream(ws1) == Stream(ws2)
    ensures var out1 := RunWrites([], n1, ws1, ch, rate, REFERENCE).out;
            var out2 := RunWrites([], n2, ws2, ch, rate, REFERENCE).out;
            |out1| == |out2| && forall i :: 0 <= i < |out1| ==> out1[i].data == out2[i].data
  {
    StreamRefinement(n1, ws1, ch, rate);
    StreamRefinement(n2, ws2, ch, rate);
  }
}
