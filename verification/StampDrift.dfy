/**
 How far chunk stamps drift from the stamps the application wrote, as one segment
 is extended by further writes and cut into chunks.
 */
module StampDrift {
  import opened Types
  import opened BeatGrid
  import opened AudioSink

  /** Micro-beats times (frames per micro-beat denominators). */
  const UNIT := 1_000_000_000_000

  /** `begin` lies within `halves / 2` micro-beats of the exact line through `stamp`,
      whose frame comes `offset` frames later (earlier, if negative); both sides are
      scaled by rate times tempo. */
  ghost predicate Near(begin: int, stamp: int, offset: int, halves: int, rate: int, tempo: int) {
    2 * Abs((begin - stamp) * (rate * tempo) + offset * UNIT) <= halves * (rate * tempo)
  }

  lemma ScaledSum(b: int, r: int, den: int)
    ensures (b + r) * den == b * den + r * den
  {
  }

  lemma DenominatorPositive(rate: int, tempo: int)
    requires rate > 0 && tempo > 0
    ensures rate * tempo > 0
  {
    MulMono(1, rate, tempo);
  }

  lemma NearSelf(stamp: int, rate: int, tempo: int)
    ensures Near(stamp, stamp, 0, 0, rate, tempo)
  {
    assert 0 * (rate * tempo) == 0;
  }

  lemma NearMore(begin: int, stamp: int, offset: int, halves: int, more: int, rate: int, tempo: int)
    requires rate > 0 && tempo > 0 && halves <= more && Near(begin, stamp, offset, halves, rate, tempo)
    ensures Near(begin, stamp, offset, more, rate, tempo)
  {
    DenominatorPositive(rate, tempo);
    MulMono(halves, more, rate * tempo);
  }

  /** A cut moves the front by its frames and is one more rounding. */
  lemma NearCut(begin: int, stamp: int, offset: int, halves: int, take: nat, rate: int, tempo: int)
    requires rate > 0 && tempo > 0 && Near(begin, stamp, offset, halves, rate, tempo)
    ensures Near(begin + FramesToMicroBeats(take, rate, tempo), stamp, offset - take, halves + 1, rate, tempo)
  {
    var den := rate * tempo;
    DenominatorPositive(rate, tempo);
    var r := FramesToMicroBeats(take, rate, tempo);
    RoundDivNearest(take * UNIT, den);
    ScaledSum(begin - stamp, r, den);
    ScaledSum(halves, 1, den);
  }

  /** A write accepted within one micro-beat of the run's end may be 3 halves off. */
  lemma NearJoin(begin: int, frames: nat, stamp: int, rate: int, tempo: int)
    requires rate > 0 && tempo > 0 && Abs(begin + FramesToMicroBeats(frames, rate, tempo) - stamp) <= 1
    ensures Near(begin, stamp, frames, 3, rate, tempo)
  {
    var den := rate * tempo;
    DenominatorPositive(rate, tempo);
    var r := FramesToMicroBeats(frames, rate, tempo);
    RoundDivNearest(frames * UNIT, den);
    var gap := begin + r - stamp;
    assert -1 <= gap <= 1;
    MulMono(gap, 1, den);
    MulMono(-1, gap, den);
    ScaledSum(begin - stamp, r, den);
  }

  // ------------------------------------------------------ the life of a segment

  /** What happens to a segment: its front is cut, or a contiguous write extends
      it. */
  datatype Event = CutBy(take: nat) | ExtendBy(begin: int, samples: seq<i16>)

  predicate Allowed(seg: Segment, e: Event, ch: nat, rate: int)
    requires ch > 0 && rate > 0 && seg.tempo > 0
  {
    match e
    case CutBy(take) => take * ch <= |seg.samples|
    case ExtendBy(begin, _) => Contiguous([seg], begin, seg.tempo, rate, ch)
  }

  function After(seg: Segment, e: Event, ch: nat, rate: int): (r: Segment)
    requires ch > 0 && rate > 0 && seg.tempo > 0 && Allowed(seg, e, ch, rate)
    ensures r.tempo == seg.tempo
  {
    match e
    case CutBy(take) => Advance(seg, take, ch, rate)
    case ExtendBy(_, samples) => seg.(samples := seg.samples + samples)
  }

  ghost predicate Life(seg: Segment, es: seq<Event>, ch: nat, rate: int)
    requires ch > 0 && rate > 0 && seg.tempo > 0
    decreases |es|
  {
    es == [] || (Allowed(seg, es[0], ch, rate) && Life(After(seg, es[0], ch, rate), es[1..], ch, rate))
  }

  ghost function EndOf(seg: Segment, es: seq<Event>, ch: nat, rate: int): (r: Segment)
    requires ch > 0 && rate > 0 && seg.tempo > 0 && Life(seg, es, ch, rate)
    ensures r.tempo == seg.tempo
    decreases |es|
  {
    if es == [] then seg else EndOf(After(seg, es[0], ch, rate), es[1..], ch, rate)
  }

  function CutsIn(es: seq<Event>): nat {
    if es == [] then 0 else (if es[0].CutBy? then 1 else 0) + CutsIn(es[1..])
  }

  function FramesIn(es: seq<Event>): nat {
    if es == [] then 0 else (if es[0].CutBy? then es[0].take else 0) + FramesIn(es[1..])
  }

  /** Whatever a segment's stamp was near, it stays near: each cut adds one rounding. */
  lemma {:induction false} LifeTracks(seg: Segment, stamp: int, offset: int, halves: int, es: seq<Event>, ch: nat,
                                      rate: int)
    requires ch > 0 && rate > 0 && seg.tempo > 0 && Life(seg, es, ch, rate)
    requires Near(seg.begin, stamp, offset, halves, rate, seg.tempo)
    ensures Near(EndOf(seg, es, ch, rate).begin, stamp, offset - FramesIn(es), halves + CutsIn(es), rate, seg.tempo)
    decreases |es|
  {
    if es != [] {
      var next := After(seg, es[0], ch, rate);
      if es[0].CutBy? {
        NearCut(seg.begin, stamp, offset, halves, es[0].take, rate, seg.tempo);
        LifeTracks(next, stamp, offset - es[0].take, halves + 1, es[1..], ch, rate);
      } else {
        LifeTracks(next, stamp, offset, halves, es[1..], ch, rate);
      }
    }
  }

  lemma {:induction false} LifeSplits(seg: Segment, a: seq<Event>, b: seq<Event>, ch: nat, rate: int)
    requires ch > 0 && rate > 0 && seg.tempo > 0 && Life(seg, a + b, ch, rate)
    ensures Life(seg, a, ch, rate) && Life(EndOf(seg, a, ch, rate), b, ch, rate)
    ensures EndOf(seg, a + b, ch, rate) == EndOf(EndOf(seg, a, ch, rate), b, ch, rate)
    decreases |a|
  {
    if a == [] {
      assert a + b == b;
    } else {
      assert (a + b)[0] == a[0] && (a + b)[1..] == a[1..] + b;
      LifeSplits(After(seg, a[0], ch, rate), a[1..], b, ch, rate);
    }
  }

  /** Stamp drift, first write: after k cuts the stamp of the segment's next chunk lies
      within k/2 micro-beats of the exact line through the segment's first stamp. */
  lemma StampDrift(begin: int, tempo: int, samples: seq<i16>, es: seq<Event>, ch: nat, rate: int)
    requires ch > 0 && rate > 0 && tempo > 0 && Life(Segment(begin, tempo, samples), es, ch, rate)
    ensures Near(EndOf(Segment(begin, tempo, samples), es, ch, rate).begin, begin, 0 - FramesIn(es), CutsIn(es), rate,
                tempo)
  {
    NearSelf(begin, rate, tempo);
    LifeTracks(Segment(begin, tempo, samples), begin, 0, 0, es, ch, rate);
  }

  /** Stamp drift, any later write: m cuts after a write was appended, the stamp of the
      next chunk lies within (m+3)/2 micro-beats of the line through that write's
      stamp, at the frame where its material began. */
  lemma LaterWriteDrift(seg: Segment, a: seq<Event>, begin: int, samples: seq<i16>, b: seq<Event>, ch: nat, rate: int)
    requires ch > 0 && rate > 0 && seg.tempo > 0 && Life(seg, a + [ExtendBy(begin, samples)] + b, ch, rate)
    ensures Life(seg, a, ch, rate)
    ensures Near(EndOf(seg, a + [ExtendBy(begin, samples)] + b, ch, rate).begin, begin,
                 |EndOf(seg, a, ch, rate).samples| / ch - FramesIn(b), CutsIn(b) + 3, rate, seg.tempo)
  {
    hide Near, Life, EndOf, Allowed, After, FramesIn, CutsIn;
    var e := ExtendBy(begin, samples);
    LifeSplits(seg, a + [e], b, ch, rate);
    LifeSplits(seg, a, [e], ch, rate);
    var before := EndOf(seg, a, ch, rate);
    ExtendStarts(before, begin, samples, ch, rate);
    LifeTracks(EndOf(seg, a + [e], ch, rate), begin, |before.samples| / ch, 3, b, ch, rate);
  }

  lemma ExtendStarts(seg: Segment, begin: int, samples: seq<i16>, ch: nat, rate: int)
    requires ch > 0 && rate > 0 && seg.tempo > 0 && Life(seg, [ExtendBy(begin, samples)], ch, rate)
    ensures var with := EndOf(seg, [ExtendBy(begin, samples)], ch, rate);
            with.tempo == seg.tempo && Near(with.begin, begin, |seg.samples| / ch, 3, rate, seg.tempo)
  {
    hide Near;
    var es := [ExtendBy(begin, samples)];
    assert es[1..] == [];
    assert EndOf(seg, es, ch, rate) == After(seg, es[0], ch, rate);
    NearJoin(seg.begin, |seg.samples| / ch, begin, rate, seg.tempo);
  }
}
