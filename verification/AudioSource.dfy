/**
 The receiving end of a channel: each chunk is delivered on its own, re-mapped
 onto the local beat grid, and loss is counted from gaps in the sequence.
 */
module AudioSource {
  import opened Types
  import opened Wrappers
  import opened BeatGrid
  import opened AudioWire

  const INBOX_LIMIT := 256

  /** One delivered chunk; the beat is in micro-beats. */
  datatype ReceivedChunk = ReceivedChunk(samples: seq<i16>, beginAppBeat: int, tempo: int,
                                         sampleRate: nat, channels: nat, num: nat)

  /** The next sequence number expected, none before the first chunk, and the
      chunks detected lost. */
  datatype Counter = Counter(expected: Option<nat>, lost: nat)

  /** The first chunk seeds the counter; a gap counts as loss; a chunk below the
      expected number takes its gap back. */
  function Arrive(c: Counter, num: nat): Counter {
    if c.expected.None? then Counter(Some(num + 1), c.lost)
    else if num >= c.expected.value then Counter(Some(num + 1), c.lost + num - c.expected.value)
    else Counter(c.expected, if c.lost > 0 then c.lost - 1 else 0)
  }

  function ArriveAll(c: Counter, nums: seq<nat>): Counter {
    if nums == [] then c else Arrive(ArriveAll(c, nums[..|nums| - 1]), nums[|nums| - 1])
  }

  lemma {:induction false} ArriveAppend(c: Counter, a: seq<nat>, b: seq<nat>)
    ensures ArriveAll(c, a + b) == ArriveAll(ArriveAll(c, a), b)
  {
    if b == [] {
      assert a + b == a;
    } else {
      var n := |b| - 1;
      assert (a + b)[..|a + b| - 1] == a + b[..n];
      ArriveAppend(c, a, b[..n]);
    }
  }

  // ------------------------------------------------------------ loss count

  /** How many numbers from `lo` up to but not including `hi` never came. */
  function Missing(nums: seq<nat>, lo: nat, hi: nat): nat
    decreases hi
  {
    if lo >= hi then 0 else Missing(nums, lo, hi - 1) + (if hi - 1 in nums then 0 else 1)
  }

  /** One more arrival fills a gap if it is a missing number of the range, and
      changes nothing otherwise. */
  lemma {:induction false} MissingArrival(nums: seq<nat>, lo: nat, hi: nat, x: nat)
    ensures Missing(nums + [x], lo, hi) == Missing(nums, lo, hi) - (if lo <= x < hi && x !in nums then 1 else 0)
    decreases hi
  {
    if lo < hi {
      MissingArrival(nums, lo, hi - 1, x);
    }
  }

  /** Raising the upper end past numbers never seen adds all of them. */
  lemma {:induction false} MissingBeyond(nums: seq<nat>, lo: nat, mid: nat, hi: nat)
    requires lo <= mid <= hi && forall k :: k in nums ==> k < mid
    ensures Missing(nums, lo, hi) == Missing(nums, lo, mid) + (hi - mid)
    decreases hi
  {
    if mid < hi {
      MissingBeyond(nums, lo, mid, hi - 1);
    }
  }

  /** The missing numbers depend on what came, not on when. */
  lemma {:induction false} MissingOfSet(a: seq<nat>, b: seq<nat>, lo: nat, hi: nat)
    requires forall k :: k in a <==> k in b
    ensures Missing(a, lo, hi) == Missing(b, lo, hi)
    decreases hi
  {
    if lo < hi {
      MissingOfSet(a, b, lo, hi - 1);
    }
  }

  predicate Distinct(nums: seq<nat>) {
    forall i, j :: 0 <= i < j < |nums| ==> nums[i] != nums[j]
  }

  predicate NoneBelowFirst(nums: seq<nat>) {
    forall i :: 0 <= i < |nums| ==> nums[i] >= nums[0]
  }

  /** The counter after these arrivals on a fresh subscription. */
  function Counted(nums: seq<nat>): Counter {
    ArriveAll(Counter(None, 0), nums)
  }

  /** Numbers from the first one seen up to the next expected that never came. */
  function MissingSoFar(nums: seq<nat>): nat
    requires nums != []
  {
    if Counted(nums).expected.None? then 0 else Missing(nums, nums[0], Counted(nums).expected.value)
  }

  /** The next expected number is the greatest one seen, plus one. */
  lemma {:induction false} ExpectedIsNext(nums: seq<nat>)
    requires nums != []
    ensures Counted(nums).expected.Some? && nums[0] < Counted(nums).expected.value
    ensures Counted(nums).expected.value - 1 in nums
    ensures forall k :: k in nums ==> k < Counted(nums).expected.value
  {
    var before, x := nums[..|nums| - 1], nums[|nums| - 1];
    assert nums == before + [x];
    if before == [] {
      CountedOne(x);
    } else {
      ExpectedIsNext(before);
    }
  }

  lemma CountedOne(x: nat)
    ensures Counted([x]) == Counter(Some(x + 1), 0)
    ensures Missing([x], x, x + 1) == 0
  {
    var one := [x];
    assert one[..0] == [];
    assert Counted(one) == Arrive(Counted([]), x);
    assert Missing(one, x, x) == 0;
  }

  /** The missing count after one more arrival. */
  lemma MissingStep(before: seq<nat>, x: nat)
    requires before != []
    ensures var next := Counted(before).expected;
            && next.Some? && before[0] < next.value
            && Counted(before + [x]) == Arrive(Counted(before), x)
            && MissingSoFar(before + [x]) == (
                 if x >= next.value then MissingSoFar(before) + (x - next.value)
                 else if x >= before[0] && x !in before then MissingSoFar(before) - 1
                 else MissingSoFar(before))
  {
    ExpectedIsNext(before);
    var next := Counted(before).expected.value;
    assert (before + [x])[..|before|] == before;
    if x >= next {
      MissingArrival(before, before[0], x + 1, x);
      MissingBeyond(before, before[0], next, x + 1);
    } else {
      MissingArrival(before, before[0], next, x);
    }
  }

  /** The counter never over-reports: for any arrivals at all, in any order,
      repeated or not, `lost` is at most the numbers still missing. */
  lemma {:induction false} LossNeverOverReported(nums: seq<nat>)
    requires nums != []
    ensures Counted(nums).lost <= MissingSoFar(nums)
  {
    var before, x := nums[..|nums| - 1], nums[|nums| - 1];
    assert nums == before + [x];
    if before == [] {
      CountedOne(x);
    } else {
      LossNeverOverReported(before);
      MissingStep(before, x);
    }
  }

  /** While some number is missing, an arrival below the next expected number fills a
      gap: it is not below the first, and did not come before. */
  predicate FillsGap(before: seq<nat>, x: nat)
    requires before != []
  {
    var next := Counted(before).expected;
    next.Some? && x < next.value && MissingSoFar(before) > 0 ==> x >= before[0] && x !in before
  }

  ghost predicate RightThroughout(nums: seq<nat>) {
    forall i :: 0 < i <= |nums| ==> Counted(nums[..i]).lost == MissingSoFar(nums[..i])
  }

  ghost predicate LateFillGaps(nums: seq<nat>) {
    forall i :: 0 < i < |nums| ==> FillsGap(nums[..i], nums[i])
  }

  /** The count is right throughout, after every arrival, if and only if every late
      arrival while something is missing fills a gap. */
  lemma {:induction false} LossExactIff(nums: seq<nat>)
    ensures RightThroughout(nums) <==> LateFillGaps(nums)
  {
    if |nums| == 1 {
      assert nums[..1] == [nums[0]];
      CountedOne(nums[0]);
    } else if nums != [] {
      hide RightThroughout, LateFillGaps;
      var before, x := nums[..|nums| - 1], nums[|nums| - 1];
      assert nums == before + [x];
      LossExactIff(before);
      OneArrivalMore(before, x);
    }
  }

  lemma OneArrivalMore(before: seq<nat>, x: nat)
    requires before != []
    ensures RightThroughout(before) && FillsGap(before, x) ==> RightThroughout(before + [x])
    ensures RightThroughout(before + [x]) ==> RightThroughout(before) && FillsGap(before, x)
    ensures LateFillGaps(before + [x]) <==> LateFillGaps(before) && FillsGap(before, x)
  {
    hide Counted, MissingSoFar, FillsGap;
    var nums, n := before + [x], |before|;
    assert forall i :: 0 <= i <= n ==> nums[..i] == before[..i];
    assert before[..n] == before && nums[..n + 1] == nums;
    StepRightIff(before, x);
    assert RightThroughout(before) ==> Counted(before[..n]).lost == MissingSoFar(before[..n]);
  }

  lemma StepRightIff(before: seq<nat>, x: nat)
    requires before != []
    ensures Counted(before).lost == MissingSoFar(before) ==>
              (Counted(before + [x]).lost == MissingSoFar(before + [x]) <==> FillsGap(before, x))
  {
    MissingStep(before, x);
  }

  /** Distinct numbers, none below the first, meet that condition. */
  lemma DistinctFillsGaps(nums: seq<nat>, i: nat)
    requires 0 < i < |nums| && Distinct(nums) && NoneBelowFirst(nums)
    ensures FillsGap(nums[..i], nums[i])
  {
    assert nums[..i][0] == nums[0] && nums[i] !in nums[..i];
  }

  /** So when every number arrives once and none below the first, in whatever order,
      `lost` is exactly the count of numbers missing below the next expected. */
  lemma LossExact(nums: seq<nat>)
    requires nums != [] && Distinct(nums) && NoneBelowFirst(nums)
    ensures Counted(nums).lost == MissingSoFar(nums)
  {
    hide Counted, MissingSoFar, FillsGap;
    forall i | 0 < i < |nums| ensures FillsGap(nums[..i], nums[i]) {
      DistinctFillsGaps(nums, i);
    }
    LossExactIff(nums);
    assert nums[..|nums|] == nums;
  }

  /** And the count depends on which numbers came, not on the order. */
  lemma LossOrderIndependent(a: seq<nat>, b: seq<nat>)
    requires a != [] && b != [] && a[0] == b[0] && forall k :: k in a <==> k in b
    requires Distinct(a) && NoneBelowFirst(a) && Distinct(b) && NoneBelowFirst(b)
    ensures Counted(a) == Counted(b)
  {
    LossExact(a);
    LossExact(b);
    ExpectedIsNext(a);
    ExpectedIsNext(b);
    MissingOfSet(a, b, a[0], Counted(a).expected.value);
  }

  /** A repeated chunk makes the counter under-report: 6 and 7 are missing. */
  lemma DuplicateUnderReports()
    ensures Counted([5, 8, 8]).lost == 1 && MissingSoFar([5, 8, 8]) == 2
  {
    CountedOne(5);
    var one: seq<nat> := [5];
    var two: seq<nat> := [5, 8];
    var three: seq<nat> := [5, 8, 8];
    assert two == one + [8] && three == two + [8];
    MissingStep(one, 8);
    MissingStep(two, 8);
  }

  /** Consecutive numbers are no loss. */
  lemma {:induction false} NoLoss(c: Counter, first: nat, nums: seq<nat>)
    requires c.expected.Some? ==> c.expected.value == first
    requires forall i :: 0 <= i < |nums| ==> nums[i] == first + i
    ensures nums != [] ==> ArriveAll(c, nums) == Counter(Some(first + |nums|), c.lost)
  {
    if nums != [] {
      NoLoss(c, first, nums[..|nums| - 1]);
    }
  }

  // -------------------------------------------------------------- delivery

  /** The chunks of a buffer, cut back out of its samples; a cut is bounded by
      the samples there are. */
  function Cuts(chunks: seq<Chunk>, samples: seq<i16>, ch: nat, delta: int, rate: nat,
                channels: nat): seq<ReceivedChunk> {
    if chunks == [] then []
    else
      var c := chunks[0];
      var end := Min(c.numFrames * ch, |samples|);
      [ReceivedChunk(samples[..end], c.beginBeats + delta, c.tempo, rate, channels, c.num)]
      + Cuts(chunks[1..], samples[end..], ch, delta, rate, channels)
  }

  function CutsOf(b: AudioBuffer, delta: int): seq<ReceivedChunk> {
    Cuts(b.chunks, SamplesOf(b.sampleData), FrameWidth(b.numChannels), delta, b.sampleRate, b.numChannels)
  }

  function Nums(chunks: seq<Chunk>): (r: seq<nat>)
    ensures |r| == |chunks|
  {
    if chunks == [] then [] else [chunks[0].num] + Nums(chunks[1..])
  }

  function LastOf<T>(s: seq<T>, n: nat): seq<T> {
    if |s| > n then s[|s| - n..] else s
  }

  /** The newest `n`: as many as there are, counted from the end. */
  lemma LastOfIs<T>(s: seq<T>, n: nat, k: nat)
    requires k < |LastOf(s, n)|
    ensures |LastOf(s, n)| == (if |s| < n then |s| else n) && LastOf(s, n)[|LastOf(s, n)| - 1 - k] == s[|s| - 1 - k]
  {
  }

  lemma LastOfAppend<T>(a: seq<T>, b: seq<T>, n: nat)
    ensures LastOf(LastOf(a, n) + b, n) == LastOf(a + b, n)
  {
    var kept := LastOf(a, n) + b;
    if |a| > n {
      assert kept == (a + b)[|a| - n..];
    }
  }

  lemma {:induction false} NumsAt(chunks: seq<Chunk>, i: nat)
    requires i < |chunks|
    ensures Nums(chunks)[i] == chunks[i].num
  {
    if i > 0 {
      NumsAt(chunks[1..], i - 1);
    }
  }

  class Source {
    const quantum: int
    var inbox: seq<ReceivedChunk>
    var nextSeqExpected: Option<nat>
    var lostChunks: nat
    var lastBufferAt: int

    constructor (quantum: int)
      ensures this.quantum == quantum && inbox == [] && nextSeqExpected == None && lostChunks == 0
    {
      this.quantum := quantum;
      inbox, nextSeqExpected, lostChunks, lastBufferAt := [], None, 0, -0x4000_0000_0000_0000;
    }

    /** Count one chunk's sequence number. */
    method Count(num: nat)
      modifies this`nextSeqExpected, this`lostChunks
      ensures Counter(nextSeqExpected, lostChunks) == Arrive(old(Counter(nextSeqExpected, lostChunks)), num)
    {
      if nextSeqExpected.None? {
        nextSeqExpected := Some(num + 1);
      } else if num >= nextSeqExpected.value {
        lostChunks := lostChunks + (num - nextSeqExpected.value);
        nextSeqExpected := Some(num + 1);
      } else if lostChunks > 0 {
        lostChunks := lostChunks - 1;
      }
    }

    /** Deliver a buffer chunk by chunk; only the newest undelivered chunks stay. */
    method Deliver(b: AudioBuffer, timeline: Timeline, now: int)
      requires timeline.tempo > 0
      modifies this
      ensures inbox == LastOf(old(inbox) + CutsOf(b, SessionOffset(timeline, quantum)), INBOX_LIMIT)
      ensures Counter(nextSeqExpected, lostChunks)
           == ArriveAll(old(Counter(nextSeqExpected, lostChunks)), Nums(b.chunks))
      ensures lastBufferAt == now
    {
      var delta := SessionOffset(timeline, quantum);
      Append(b, delta);
      while |inbox| > INBOX_LIMIT
        invariant LastOf(inbox, INBOX_LIMIT) == LastOf(old(inbox) + CutsOf(b, delta), INBOX_LIMIT)
        invariant Counter(nextSeqExpected, lostChunks)
               == ArriveAll(old(Counter(nextSeqExpected, lostChunks)), Nums(b.chunks))
      {
        inbox := inbox[1..];
      }
      lastBufferAt := now;
    }

    /** Each chunk is counted and delivered as a separate unit. */
    method Append(b: AudioBuffer, delta: int)
      modifies this`inbox, this`nextSeqExpected, this`lostChunks
      ensures inbox == old(inbox) + CutsOf(b, delta)
      ensures Counter(nextSeqExpected, lostChunks)
           == ArriveAll(old(Counter(nextSeqExpected, lostChunks)), Nums(b.chunks))
    {
      var samples := SamplesOf(b.sampleData);
      var ch, at := FrameWidth(b.numChannels), 0;
      ghost var start, all := old(Counter(nextSeqExpected, lostChunks)), old(inbox) + CutsOf(b, delta);
      assert samples[0..] == samples && b.chunks[0..] == b.chunks && b.chunks[..0] == [];
      for i := 0 to |b.chunks|
        invariant 0 <= at <= |samples|
        invariant inbox + Cuts(b.chunks[i..], samples[at..], ch, delta, b.sampleRate, b.numChannels) == all
        invariant Counter(nextSeqExpected, lostChunks) == ArriveAll(start, Nums(b.chunks[..i]))
      {
        CountOne(b.chunks, i, start);
        at := AppendOne(b, i, samples, at, ch, delta);
      }
      assert b.chunks[|b.chunks|..] == [] && b.chunks[..|b.chunks|] == b.chunks;
      assert inbox + [] == inbox;
    }

    method CountOne(chunks: seq<Chunk>, i: nat, ghost start: Counter)
      requires i < |chunks| && Counter(nextSeqExpected, lostChunks) == ArriveAll(start, Nums(chunks[..i]))
      modifies this`nextSeqExpected, this`lostChunks
      ensures Counter(nextSeqExpected, lostChunks) == ArriveAll(start, Nums(chunks[..i + 1]))
    {
      NumsMore(chunks, i);
      Count(chunks[i].num);
      assert Nums(chunks[..i + 1])[..i] == Nums(chunks[..i]);
    }

    method AppendOne(b: AudioBuffer, i: nat, samples: seq<i16>, at: nat, ch: nat, delta: int) returns (end: nat)
      requires i < |b.chunks| && at <= |samples|
      modifies this`inbox
      ensures end <= |samples|
      ensures inbox + Cuts(b.chunks[i + 1..], samples[end..], ch, delta, b.sampleRate, b.numChannels)
           == old(inbox) + Cuts(b.chunks[i..], samples[at..], ch, delta, b.sampleRate, b.numChannels)
    {
      var c := b.chunks[i];
      end := Min(at + c.numFrames * ch, |samples|);
      var cut := ReceivedChunk(samples[at..end], c.beginBeats + delta, c.tempo, b.sampleRate, b.numChannels, c.num);
      CutsStep(b.chunks, i, samples, at, ch, delta, b.sampleRate, b.numChannels, cut, end);
      ghost var rest := Cuts(b.chunks[i + 1..], samples[end..], ch, delta, b.sampleRate, b.numChannels);
      assert inbox + ([cut] + rest) == inbox + [cut] + rest;
      inbox := inbox + [cut];
    }

    /** Hand over everything received since the last poll. */
    method Poll() returns (out: seq<ReceivedChunk>)
      modifies this`inbox
      ensures out == old(inbox) && inbox == []
    {
      out := inbox;
      inbox := [];
    }
  }

  lemma NumsMore(chunks: seq<Chunk>, i: nat)
    requires i < |chunks|
    ensures Nums(chunks[..i + 1]) == Nums(chunks[..i]) + [chunks[i].num]
  {
    assert chunks[..i + 1] == chunks[..i] + [chunks[i]];
    NumsAppend(chunks[..i], [chunks[i]]);
    var one := [chunks[i]];
    assert one[1..] == [];
  }

  lemma {:induction false} NumsAppend(a: seq<Chunk>, b: seq<Chunk>)
    ensures Nums(a + b) == Nums(a) + Nums(b)
  {
    if a == [] {
      assert a + b == b;
    } else {
      assert (a + b)[1..] == a[1..] + b;
      NumsAppend(a[1..], b);
    }
  }

  lemma CutsStep(chunks: seq<Chunk>, i: nat, samples: seq<i16>, at: nat, ch: nat, delta: int, rate: nat, channels: nat,
                 cut: ReceivedChunk, end: nat)
    requires i < |chunks| && at <= |samples| && end == Min(at + chunks[i].numFrames * ch, |samples|)
    requires cut == ReceivedChunk(samples[at..end], chunks[i].beginBeats + delta, chunks[i].tempo,
                                  rate, channels, chunks[i].num)
    ensures Cuts(chunks[i..], samples[at..], ch, delta, rate, channels)
         == [cut] + Cuts(chunks[i + 1..], samples[end..], ch, delta, rate, channels)
  {
    var e := Min(chunks[i].numFrames * ch, |samples[at..]|);
    assert e == end - at;
    assert chunks[i..][1..] == chunks[i + 1..] && samples[at..][e..] == samples[end..]
           && samples[at..][..e] == samples[at..end];
  }
}
