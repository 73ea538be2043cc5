/**
 The sink object: `Write` queues beat-stamped material and drains every full
 datagram; `PlanDatagram` and `ConsumePlan` are the two passes of the drain.
 */
module AudioSender {
  import opened Types
  import opened Wrappers
  import opened BeatGrid
  import opened AudioWire
  import opened AudioSink

  function BufferOf(m: Material, channel: Id, session: Id, rate: nat, numChannels: nat): AudioBuffer {
    AudioBuffer(channel, session, m.chunks, CODEC_PCM_I16, rate, numChannels, SamplesBytes(m.data))
  }

  function BuffersOf(out: seq<Material>, channel: Id, session: Id, rate: nat, numChannels: nat): seq<AudioBuffer> {
    if out == [] then []
    else [BufferOf(out[0], channel, session, rate, numChannels)]
         + BuffersOf(out[1..], channel, session, rate, numChannels)
  }

  lemma {:induction false} BuffersOfAppend(a: seq<Material>, b: seq<Material>, channel: Id, session: Id, rate: nat,
                                           n: nat)
    ensures BuffersOf(a + b, channel, session, rate, n)
         == BuffersOf(a, channel, session, rate, n) + BuffersOf(b, channel, session, rate, n)
  {
    if a == [] {
      assert a + b == b;
    } else {
      assert (a + b)[1..] == a[1..] + b;
      BuffersOfAppend(a[1..], b, channel, session, rate, n);
    }
  }

  lemma BuffersOfMore(out: seq<Material>, m: Material, channel: Id, session: Id, rate: nat, n: nat)
    ensures BuffersOf(out + [m], channel, session, rate, n)
         == BuffersOf(out, channel, session, rate, n) + [BufferOf(m, channel, session, rate, n)]
  {
    BuffersOfAppend(out, [m], channel, session, rate, n);
    var one := [m];
    assert one[1..] == [];
  }

  /** A plan continuing the chunks already planned. */
  function Resumed(takes: seq<nat>, p: Plan): Plan {
    p.(takes := takes + p.takes)
  }

  lemma ResumedMore(takes: seq<nat>, take: nat, p: Plan)
    ensures Resumed(takes, Resumed([take], p)) == Resumed(takes + [take], p)
  {
    assert takes + ([take] + p.takes) == takes + [take] + p.takes;
  }

  /** Drained datagrams in front of the rest of a drain. */
  function AfterDrained(out: seq<Material>, d: Drained): Drained {
    d.(out := out + d.out)
  }

  lemma AfterDrainedMore(a: seq<Material>, b: seq<Material>, d: Drained)
    ensures AfterDrained(a, AfterDrained(b, d)) == AfterDrained(a + b, d)
  {
    assert a + (b + d.out) == a + b + d.out;
  }

  function CutPrefixed(chunks: seq<Chunk>, data: seq<i16>, c: Cut): Cut {
    Cut(c.segs, Material(chunks + c.material.chunks, data + c.material.data))
  }

  lemma CutPrefixedMore(chunks: seq<Chunk>, data: seq<i16>, chunk: Chunk, more: seq<i16>, c: Cut)
    ensures CutPrefixed(chunks, data, CutPrefixed([chunk], more, c)) == CutPrefixed(chunks + [chunk], data + more, c)
  {
    assert chunks + ([chunk] + c.material.chunks) == chunks + [chunk] + c.material.chunks;
    SampleAssoc(data, more, c.material.data);
  }

  lemma {:induction false} CountsAt(segs: seq<Segment>, ch: nat, i: nat)
    requires ch > 0 && i < |segs|
    ensures Counts(segs, ch)[i..] == [|segs[i].samples| / ch] + Counts(segs, ch)[i + 1..]
  {
    if i > 0 {
      CountsAt(segs[1..], ch, i - 1);
      assert Counts(segs, ch)[1..] == Counts(segs[1..], ch);
      assert Counts(segs, ch)[i] == Counts(segs[1..], ch)[i - 1];
    }
  }

  /** Planned chunks fit the sixteen-bit frame count of a chunk record. */
  lemma TakesFitU16(segs: seq<Segment>, ch: nat, z: Sizing)
    requires ch > 0 && ValidSizing(z) && z.budget < 0x1_0000
    ensures forall i :: 0 <= i < |NextPlan(segs, ch, z).takes| ==> IsU16(NextPlan(segs, ch, z).takes[i])
  {
    var p := NextPlan(segs, ch, z);
    PlanProperties(Counts(segs, ch), z.budget, 2 * ch, z);
    PartOfBudget(z.record, |p.takes|, 2 * ch, Sum(p.takes), z.budget - p.left);
    forall i | 0 <= i < |p.takes| ensures IsU16(p.takes[i]) {
      SumAtLeast(p.takes, i);
    }
  }

  lemma PartOfBudget(record: nat, n: nat, fb: nat, sum: nat, spent: int)
    requires fb > 0 && record * n + fb * sum == spent
    ensures sum <= spent
  {
    MulMono(0, record, n);
    MulMono(1, fb, sum);
  }

  lemma {:induction false} SumAtLeast(s: seq<nat>, i: nat)
    requires i < |s|
    ensures s[i] <= Sum(s)
  {
    if i > 0 {
      SumAtLeast(s[1..], i - 1);
    }
  }

  /** The requests still running at `now`. */
  function Live(requesters: map<Id, int>, now: int): map<Id, int> {
    map k | k in requesters && requesters[k] > now :: requesters[k]
  }

  /** A request runs until its expiry, as it was made; looking again later is looking once. */
  lemma LiveIff(requesters: map<Id, int>, now: int, later: int, k: Id)
    requires now <= later
    ensures k in Live(requesters, now) <==> k in requesters && now < requesters[k]
    ensures k in Live(requesters, now) ==> Live(requesters, now)[k] == requesters[k]
    ensures Live(Live(requesters, now), later) == Live(requesters, later)
  {
  }

  /** The queue after a write: a format change flushes what was pending. */
  function Queued(segs: seq<Segment>, format: Option<(nat, nat)>, begin: int, tempo: int, samples: seq<i16>,
                  rate: nat, numChannels: nat): (r: seq<Segment>)
    requires rate > 0 && tempo > 0 && Timed(segs)
    ensures Timed(r)
  {
    var kept := if format == Some((rate, numChannels)) then segs else [];
    AudioSink.Enqueue(kept, begin, tempo, samples, rate, FrameWidth(numChannels))
  }

  /** In the format of the last write, frame-aligned material joins the pending stream; in
      another it is all that is pending. */
  lemma QueuedStream(segs: seq<Segment>, format: Option<(nat, nat)>, begin: int, tempo: int, samples: seq<i16>,
                     rate: nat, numChannels: nat)
    requires rate > 0 && tempo > 0 && Timed(segs) && |samples| % FrameWidth(numChannels) == 0
    requires format == Some((rate, numChannels)) ==> Aligned(segs, FrameWidth(numChannels))
    ensures var q, ch := Queued(segs, format, begin, tempo, samples, rate, numChannels), FrameWidth(numChannels);
            Aligned(q, ch)
            && Whole(q, ch) == if format == Some((rate, numChannels)) then Whole(segs, ch) + samples else samples
  {
    var ch := FrameWidth(numChannels);
    EnqueueAppends(if format == Some((rate, numChannels)) then segs else [], begin, tempo, samples, rate, ch);
    assert Whole([], ch) + samples == samples;
  }

  /** What a queue emits and keeps, given the live requesters. */
  function Transmitted(segs: seq<Segment>, nextSeq: nat, requesters: map<Id, int>, rate: nat, numChannels: nat,
                       fill: bool)
    : Drained
    requires rate > 0 && Timed(segs)
  {
    if requesters == map[] then Drained([], [], nextSeq)
    else Drain(segs, nextSeq, FrameWidth(numChannels), rate, SizingOf(fill))
  }

  /** What `Sink.Write` does to the queue over successive writes in one format, the
      live requesters at each given. */
  function RunSink(segs: seq<Segment>, nextSeq: nat, ws: seq<AudioSink.Write>, live: seq<map<Id, int>>,
                   rate: nat, numChannels: nat, fill: bool): (d: Drained)
    requires rate > 0 && Timed(segs) && ValidWrites(ws, FrameWidth(numChannels)) && |live| == |ws|
    ensures Timed(d.segs)
    decreases |ws|
  {
    if ws == [] then Drained([], segs, nextSeq)
    else
      var w := ws[0];
      var queued := Queued(segs, Some((rate, numChannels)), w.begin, w.tempo, w.samples, rate, numChannels);
      var d := Transmitted(queued, nextSeq, live[0], rate, numChannels, fill);
      var rest := RunSink(d.segs, d.nextSeq, ws[1..], live[1..], rate, numChannels, fill);
      Drained(d.out + rest.out, rest.segs, rest.nextSeq)
  }

  /** Whoever listens at which write: chunk numbers run on over what is emitted, and writes
      that nobody hears use none and leave nothing. */
  lemma {:induction false} SinkNumbers(segs: seq<Segment>, nextSeq: nat, ws: seq<AudioSink.Write>,
                                       live: seq<map<Id, int>>, rate: nat, numChannels: nat, fill: bool)
    requires rate > 0 && Timed(segs) && ValidWrites(ws, FrameWidth(numChannels)) && |live| == |ws|
    ensures var d := RunSink(segs, nextSeq, ws, live, rate, numChannels, fill);
            && d.nextSeq == nextSeq + |ChunksOf(d.out)| && Numbered(ChunksOf(d.out), nextSeq)
            && (ws != [] && (forall i :: 0 <= i < |live| ==> live[i] == map[]) ==> d == Drained([], [], nextSeq))
    decreases |ws|
  {
    hide Drain, AudioSink.Enqueue, Numbered, ChunksOf;
    NoChunks(nextSeq);
    if ws != [] {
      var w := ws[0];
      var queued := Queued(segs, Some((rate, numChannels)), w.begin, w.tempo, w.samples, rate, numChannels);
      var d := Transmitted(queued, nextSeq, live[0], rate, numChannels, fill);
      DrainNumbers(queued, nextSeq, FrameWidth(numChannels), rate, SizingOf(fill));
      SinkNumbers(d.segs, d.nextSeq, ws[1..], live[1..], rate, numChannels, fill);
      var rest := RunSink(d.segs, d.nextSeq, ws[1..], live[1..], rate, numChannels, fill);
      ChunksOfAppend(d.out, rest.out);
      NumberedAppend(ChunksOf(d.out), ChunksOf(rest.out), nextSeq);
    }
  }

  lemma NoChunks(nextSeq: nat)
    ensures ChunksOf([]) == [] && Numbered([], nextSeq)
  {
  }

  /** A sink that changes format goes on like one that was never written to: the same
      datagrams, the same queue. */
  lemma FormatChangeForgets(segs: seq<Segment>, format: Option<(nat, nat)>, nextSeq: nat, w: AudioSink.Write,
                            live: map<Id, int>, rate: nat, numChannels: nat, fill: bool)
    requires rate > 0 && w.tempo > 0 && Timed(segs) && format != Some((rate, numChannels))
    requires |w.samples| % FrameWidth(numChannels) == 0
    ensures var queued := Queued(segs, format, w.begin, w.tempo, w.samples, rate, numChannels);
            Transmitted(queued, nextSeq, live, rate, numChannels, fill)
            == RunSink([], nextSeq, [w], [live], rate, numChannels, fill)
  {
    hide Drain, AudioSink.Enqueue;
    assert [w][1..] == [] && [live][1..] == [];
    var d := Transmitted(AudioSink.Enqueue([], w.begin, w.tempo, w.samples, rate, FrameWidth(numChannels)),
                         nextSeq, live, rate, numChannels, fill);
    assert d.out + [] == d.out;
  }

  /** With a requester live throughout, a sink is the run of writes whose datagrams
      are characterised in `AudioSink`; if requesters are missing at the last write,
      nothing stays pending. */
  lemma {:induction false} SinkRunsWrites(segs: seq<Segment>, nextSeq: nat, ws: seq<AudioSink.Write>,
                                          live: seq<map<Id, int>>, rate: nat, numChannels: nat, fill: bool)
    requires rate > 0 && Timed(segs) && ValidWrites(ws, FrameWidth(numChannels)) && |live| == |ws|
    ensures (forall i :: 0 <= i < |live| ==> live[i] != map[]) ==>
              RunSink(segs, nextSeq, ws, live, rate, numChannels, fill)
              == RunWrites(segs, nextSeq, ws, FrameWidth(numChannels), rate, SizingOf(fill))
    ensures ws != [] && live[|live| - 1] == map[] ==>
              RunSink(segs, nextSeq, ws, live, rate, numChannels, fill).segs == []
    decreases |ws|
  {
    hide Drain, AudioSink.Enqueue;
    if ws != [] {
      var w := ws[0];
      var queued := Queued(segs, Some((rate, numChannels)), w.begin, w.tempo, w.samples, rate, numChannels);
      var d := Transmitted(queued, nextSeq, live[0], rate, numChannels, fill);
      SinkRunsWrites(d.segs, d.nextSeq, ws[1..], live[1..], rate, numChannels, fill);
    }
  }

  class Sink {
    const id: Id
    var requesters: map<Id, int>
    var nextSeq: nat
    var segments: seq<Segment>
    var format: Option<(nat, nat)>

    constructor (id: Id)
      ensures this.id == id && requesters == map[] && nextSeq == 1 && segments == [] && format == None
      ensures Valid()
    {
      this.id := id;
      requesters, nextSeq, segments, format := map[], 1, [], None;
    }

    ghost predicate Valid()
      reads this
    {
      Timed(segments)
    }

    /** A request refreshes its expiry; a stop request withdraws it at once. */
    method Request(peer: Id, expiry: int)
      modifies this`requesters
      ensures requesters == old(requesters)[peer := expiry]
    {
      requesters := requesters[peer := expiry];
    }

    method StopRequest(peer: Id)
      modifies this`requesters
      ensures requesters == old(requesters) - {peer}
    {
      requesters := requesters - {peer};
    }

    /** First pass: how many frames each chunk of the next datagram takes. Segments are
        taken in turn, each in as many chunks as the cap makes of it. */
    method PlanDatagram(ch: nat, z: Sizing) returns (takes: seq<nat>, left: nat, exhausted: bool)
      requires ch > 0 && ValidSizing(z)
      ensures Plan(takes, left, exhausted) == NextPlan(segments, ch, z)
    {
      takes, left, exhausted := [], z.budget, false;
      ghost var counts, plan := Counts(segments, ch), NextPlan(segments, ch, z);
      var i := 0;
      assert counts[0..] == counts;
      assert [] + plan.takes == plan.takes;
      label planning: while i < |segments|
        invariant 0 <= i <= |segments| && !exhausted
        invariant plan == Resumed(takes, PlanFrom(counts[i..], left, 2 * ch, z))
      {
        CountsAt(segments, ch, i);
        var frames: nat := |segments[i].samples| / ch;
        ghost var tail := counts[i + 1..];
        while frames > 0
          invariant !exhausted
          invariant plan == Resumed(takes, PlanFrom([frames] + tail, left, 2 * ch, z))
        {
          if left < z.record + 2 * ch {
            exhausted := true;
            assert takes + [] == takes;
            break planning;
          }
          TakeSizeFits(frames, left, 2 * ch, z);
          var take := TakeSize(frames, left, 2 * ch, z);
          ghost var rest := PlanFrom([frames - take] + tail, left - z.record - take * (2 * ch), 2 * ch, z);
          assert ([frames] + tail)[1..] == tail;
          assert PlanFrom([frames] + tail, left, 2 * ch, z) == Resumed([take], rest);
          ResumedMore(takes, take, rest);
          takes := takes + [take];
          left := left - z.record - take * (2 * ch);
          frames := frames - take;
        }
        PlanSkipsZero([frames] + tail, left, 2 * ch, z);
        assert ([frames] + tail)[1..] == tail;
        i := i + 1;
      }
      assert takes + [] == takes;
    }

    /** Cut one planned chunk from the queue. The planner skips sub-frame
        residue, so it is dropped here as it comes to the front. */
    method CutChunk(take: nat, ch: nat, rate: int) returns (chunk: Chunk, data: seq<i16>)
      requires Valid() && ch > 0 && rate > 0 && IsU16(take)
      requires DropShort(segments, ch) != [] && take * ch <= |DropShort(segments, ch)[0].samples|
      modifies this`segments, this`nextSeq
      ensures Valid() && nextSeq == old(nextSeq) + 1
      ensures var d := DropShort(old(segments), ch);
              segments == CutFront(d, take, ch, rate)
              && chunk == Chunk(old(nextSeq), take, d[0].begin, d[0].tempo) && data == d[0].samples[..take * ch]
    {
      while segments != [] && |segments[0].samples| < ch
        invariant Valid() && nextSeq == old(nextSeq)
        invariant DropShort(segments, ch) == DropShort(old(segments), ch)
        decreases |segments|
      {
        segments := segments[1..];
      }
      var seg := segments[0];
      chunk := Chunk(nextSeq, take % 0x1_0000, seg.begin, seg.tempo);
      nextSeq := nextSeq + 1;
      data := seg.samples[..take * ch];
      seg := Segment(seg.begin + FramesToMicroBeats(take, rate, seg.tempo), seg.tempo, seg.samples[take * ch..]);
      segments := if seg.samples == [] then segments[1..] else [seg] + segments[1..];
    }

    /** Second pass: cut the planned chunks, in order. */
    method ConsumePlan(takes: seq<nat>, ch: nat, rate: int) returns (chunks: seq<Chunk>, data: seq<i16>)
      requires Valid() && ch > 0 && rate > 0 && Feasible(segments, takes, ch, rate)
      requires forall i :: 0 <= i < |takes| ==> IsU16(takes[i])
      modifies this`segments, this`nextSeq
      ensures Valid()
      ensures var c := Consume(old(segments), takes, old(nextSeq), ch, rate);
              segments == c.segs && chunks == c.material.chunks && data == c.material.data
      ensures nextSeq == old(nextSeq) + |takes|
    {
      hide Timed, CutFront, DropShort;
      chunks, data := [], [];
      ghost var c := Consume(segments, takes, nextSeq, ch, rate);
      assert [] + c.material.chunks == c.material.chunks && [] + c.material.data == c.material.data;
      assert takes[0..] == takes;
      for i := 0 to |takes|
        invariant Valid() && Feasible(segments, takes[i..], ch, rate)
        invariant nextSeq == old(nextSeq) + i
        invariant c == CutPrefixed(chunks, data, Consume(segments, takes[i..], nextSeq, ch, rate))
      {
        assert takes[i..][0] == takes[i] && takes[i..][1..] == takes[i + 1..];
        ghost var before := Consume(segments, takes[i..], nextSeq, ch, rate);
        var chunk, cut := CutChunk(takes[i], ch, rate);
        ghost var after := Consume(segments, takes[i + 1..], nextSeq, ch, rate);
        assert before == CutPrefixed([chunk], cut, after);
        CutPrefixedMore(chunks, data, chunk, cut, after);
        chunks := chunks + [chunk];
        data := data + cut;
      }
      assert takes[|takes|..] == [];
      assert chunks + [] == chunks && data + [] == data;
    }

    /** Cut one datagram's worth for a full plan. */
    method EmitDatagram(takes: seq<nat>, session: Id, rate: nat, numChannels: nat, ghost z: Sizing)
      returns (buffer: AudioBuffer, ghost m: Material)
      requires Valid() && rate > 0 && ValidSizing(z) && z.budget < 0x1_0000
      requires takes == NextPlan(segments, FrameWidth(numChannels), z).takes
      requires Full(NextPlan(segments, FrameWidth(numChannels), z), 2 * FrameWidth(numChannels), z)
      modifies this`segments, this`nextSeq
      ensures Valid() && buffer == BufferOf(m, id, session, rate, numChannels)
      ensures |Whole(segments, FrameWidth(numChannels))| < |Whole(old(segments), FrameWidth(numChannels))|
      ensures Drain(old(segments), old(nextSeq), FrameWidth(numChannels), rate, z)
           == AfterDrained([m], Drain(segments, nextSeq, FrameWidth(numChannels), rate, z))
    {
      hide Consume, PlanFrom, Counts, FrameWidth;
      var ch := FrameWidth(numChannels);
      FullPlanShrinks(segments, nextSeq, ch, rate, z);
      TakesFitU16(segments, ch, z);
      var chunks, data := ConsumePlan(takes, ch, rate);
      m := Material(chunks, data);
      var bytes := EncodeSamples(data);
      buffer := AudioBuffer(id, session, chunks, CODEC_PCM_I16, rate, numChannels, bytes);
    }

    /** Emit every full datagram; a partial one stays pending. */
    method DrainDatagrams(session: Id, rate: nat, numChannels: nat, fill: bool) returns (out: seq<AudioBuffer>)
      requires Valid() && rate > 0
      modifies this`segments, this`nextSeq
      ensures Valid()
      ensures var d := Drain(old(segments), old(nextSeq), FrameWidth(numChannels), rate, SizingOf(fill));
              segments == d.segs && nextSeq == d.nextSeq && out == BuffersOf(d.out, id, session, rate, numChannels)
    {
      var ch, z := FrameWidth(numChannels), SizingOf(fill);
      ghost var d, ms := Drain(segments, nextSeq, ch, rate, z), [];
      out := [];
      assert [] + d.out == d.out;
      while true
        invariant Valid()
        invariant d == AfterDrained(ms, Drain(segments, nextSeq, ch, rate, z))
        invariant out == BuffersOf(ms, id, session, rate, numChannels)
        decreases |Whole(segments, ch)|
      {
        var takes, left, exhausted := PlanDatagram(ch, z);
        if takes == [] || (!exhausted && left >= z.record + 2 * ch) {
          assert ms + [] == ms;
          return;
        }
        var buffer;
        ghost var m;
        buffer, m := EmitDatagram(takes, session, rate, numChannels, z);
        AfterDrainedMore(ms, [m], Drain(segments, nextSeq, ch, rate, z));
        BuffersOfMore(ms, m, id, session, rate, numChannels);
        ms := ms + [m];
        out := out + [buffer];
      }
    }

    /** Extend the last run, or start a new one. */
    method Enqueue(begin: int, tempo: int, samples: seq<i16>, rate: int, ch: nat)
      requires Valid() && ch > 0 && rate > 0 && tempo > 0
      modifies this`segments
      ensures Valid() && segments == AudioSink.Enqueue(old(segments), begin, tempo, samples, rate, ch)
    {
      if Contiguous(segments, begin, tempo, rate, ch) {
        var at := |segments| - 1;
        var last := segments[at];
        segments := segments[at := last.(samples := last.samples + samples)];
      } else {
        segments := segments + [Segment(begin, tempo, samples)];
      }
    }

    /** Queue material; a format change drops what was pending. */
    method Accept(begin: int, tempo: int, samples: seq<i16>, rate: nat, numChannels: nat)
      requires Valid() && rate > 0 && tempo > 0
      modifies this`segments, this`format
      ensures Valid() && format == Some((rate, numChannels))
      ensures segments == Queued(old(segments), old(format), begin, tempo, samples, rate, numChannels)
    {
      if format != Some((rate, numChannels)) {
        segments := [];
        format := Some((rate, numChannels));
      }
      Enqueue(begin, tempo, samples, rate, FrameWidth(numChannels));
    }

    /** Emit to the live requesters; a sink without one is silent and discards. */
    method Transmit(now: int, session: Id, rate: nat, numChannels: nat, fill: bool) returns (out: seq<AudioBuffer>)
      requires Valid() && rate > 0
      modifies this`segments, this`nextSeq, this`requesters
      ensures Valid() && requesters == Live(old(requesters), now)
      ensures var d := Transmitted(old(segments), old(nextSeq), requesters, rate, numChannels, fill);
              segments == d.segs && nextSeq == d.nextSeq && out == BuffersOf(d.out, id, session, rate, numChannels)
    {
      requesters := Live(requesters, now);
      if requesters == map[] {
        segments := [];
        return [];
      }
      out := DrainDatagrams(session, rate, numChannels, fill);
    }

    /** Append beat-stamped material and emit every full datagram: one copy of
        `out` goes to each live requester. */
    method Write(now: int, timeline: Timeline, session: Id, samples: seq<i16>, rate: nat, numChannels: nat,
                 beginAppBeat: int, quantum: int, fill: bool)
      returns (out: seq<AudioBuffer>)
      requires Valid() && rate > 0 && timeline.tempo > 0
      modifies this
      ensures Valid() && format == Some((rate, numChannels)) && requesters == Live(old(requesters), now)
      ensures var begin := beginAppBeat - SessionOffset(timeline, quantum);
              var queued := Queued(old(segments), old(format), begin, timeline.tempo, samples, rate, numChannels);
              var d := Transmitted(queued, old(nextSeq), requesters, rate, numChannels, fill);
              segments == d.segs && nextSeq == d.nextSeq && out == BuffersOf(d.out, id, session, rate, numChannels)
    {
      var begin := beginAppBeat - SessionOffset(timeline, quantum);
      Accept(begin, timeline.tempo, samples, rate, numChannels);
      out := Transmit(now, session, rate, numChannels, fill);
    }
  }

  // ---------------------------------------------------------- successive writes

  /** One call of `Sink.Write`: when, under which timeline, and what. */
  datatype Call = Call(now: int, timeline: Timeline, samples: seq<i16>, beginAppBeat: int, quantum: int)

  predicate ValidCalls(calls: seq<Call>, ch: nat)
    requires ch > 0
  {
    forall i :: 0 <= i < |calls| ==> calls[i].timeline.tempo > 0 && |calls[i].samples| % ch == 0
  }

  /** The writes, their stamps mapped to session beats. */
  function WritesOf(calls: seq<Call>, ch: nat): (ws: seq<AudioSink.Write>)
    requires ch > 0 && ValidCalls(calls, ch)
    ensures |ws| == |calls| && ValidWrites(ws, ch)
  {
    if calls == [] then []
    else
      var c := calls[0];
      [AudioSink.Write(c.beginAppBeat - SessionOffset(c.timeline, c.quantum), c.timeline.tempo, c.samples)]
      + WritesOf(calls[1..], ch)
  }

  /** The requesters live at each call. */
  function LiveAt(requesters: map<Id, int>, calls: seq<Call>): (live: seq<map<Id, int>>)
    ensures |live| == |calls|
    decreases |calls|
  {
    if calls == [] then []
    else
      var r := Live(requesters, calls[0].now);
      [r] + LiveAt(r, calls[1..])
  }

  /** The run `RunSink` of these calls. */
  ghost function RunCalls(segs: seq<Segment>, nextSeq: nat, requesters: map<Id, int>, calls: seq<Call>,
                          rate: nat, numChannels: nat, fill: bool): (d: Drained)
    requires rate > 0 && Timed(segs) && ValidCalls(calls, FrameWidth(numChannels))
    ensures Timed(d.segs)
  {
    RunSink(segs, nextSeq, WritesOf(calls, FrameWidth(numChannels)), LiveAt(requesters, calls), rate, numChannels, fill)
  }

  /** Successive writes on one sink in one format are the run `RunSink` describes. */
  method WriteAll(sink: Sink, calls: seq<Call>, session: Id, rate: nat, numChannels: nat, fill: bool)
    returns (out: seq<AudioBuffer>)
    requires sink.Valid() && rate > 0 && ValidCalls(calls, FrameWidth(numChannels))
    requires sink.format == Some((rate, numChannels)) || sink.segments == []
    modifies sink
    ensures sink.Valid()
    ensures var d := RunCalls(old(sink.segments), old(sink.nextSeq), old(sink.requesters), calls,
                              rate, numChannels, fill);
            sink.segments == d.segs && sink.nextSeq == d.nextSeq
            && out == BuffersOf(d.out, sink.id, session, rate, numChannels)
  {
    hide RunCalls, Timed, BuffersOf, AfterDrained;
    out := [];
    ghost var d := RunCalls(sink.segments, sink.nextSeq, sink.requesters, calls, rate, numChannels, fill);
    ghost var ms: seq<Material> := [];
    BeforeAll(d, sink.id, session, rate, numChannels);
    var i := 0;
    while i < |calls|
      invariant 0 <= i <= |calls| && sink.Valid()
      invariant sink.format == Some((rate, numChannels)) || sink.segments == []
      invariant d == AfterDrained(ms, RunCalls(sink.segments, sink.nextSeq, sink.requesters, calls[i..],
                                               rate, numChannels, fill))
      invariant out == BuffersOf(ms, sink.id, session, rate, numChannels)
    {
      assert calls[i..][0] == calls[i] && calls[i..][1..] == calls[i + 1..];
      var more;
      ghost var step;
      more, step := WriteOne(sink, calls[i], calls[i..], session, rate, numChannels, fill);
      ghost var rest := RunCalls(sink.segments, sink.nextSeq, sink.requesters, calls[i + 1..], rate, numChannels, fill);
      AfterDrainedMore(ms, step, rest);
      BuffersOfAppend(ms, step, sink.id, session, rate, numChannels);
      ms := ms + step;
      out := out + more;
      i := i + 1;
    }
    assert calls[i..] == [];
    NoCalls(ms, sink.segments, sink.nextSeq, sink.requesters, rate, numChannels, fill);
  }

  lemma BeforeAll(d: Drained, channel: Id, session: Id, rate: nat, numChannels: nat)
    ensures AfterDrained([], d) == d && BuffersOf([], channel, session, rate, numChannels) == []
  {
    assert [] + d.out == d.out;
  }

  lemma NoCalls(ms: seq<Material>, segs: seq<Segment>, nextSeq: nat, requesters: map<Id, int>, rate: nat,
                numChannels: nat, fill: bool)
    requires rate > 0 && Timed(segs)
    ensures AfterDrained(ms, RunCalls(segs, nextSeq, requesters, [], rate, numChannels, fill))
            == Drained(ms, segs, nextSeq)
  {
    assert ms + [] == ms;
  }

  /** One write is the first step of the run of the calls it heads. */
  method WriteOne(sink: Sink, c: Call, ghost calls: seq<Call>, session: Id, rate: nat, numChannels: nat, fill: bool)
    returns (out: seq<AudioBuffer>, ghost ms: seq<Material>)
    requires sink.Valid() && rate > 0 && ValidCalls(calls, FrameWidth(numChannels)) && calls != [] && c == calls[0]
    requires sink.format == Some((rate, numChannels)) || sink.segments == []
    modifies sink
    ensures sink.Valid() && sink.format == Some((rate, numChannels))
    ensures RunCalls(old(sink.segments), old(sink.nextSeq), old(sink.requesters), calls, rate, numChannels, fill)
         == AfterDrained(ms, RunCalls(sink.segments, sink.nextSeq, sink.requesters, calls[1..],
                                      rate, numChannels, fill))
    ensures out == BuffersOf(ms, sink.id, session, rate, numChannels)
  {
    hide Queued, Transmitted, RunSink, WritesOf, LiveAt;
    FormatOfEmpty(sink.segments, sink.format, c, rate, numChannels);
    ghost var step := RunSinkStep(sink.segments, sink.nextSeq, sink.requesters, calls, rate, numChannels, fill);
    out := sink.Write(c.now, c.timeline, session, c.samples, rate, numChannels, c.beginAppBeat, c.quantum, fill);
    ms := step.out;
  }

  /** A new format on an empty queue flushes nothing. */
  lemma FormatOfEmpty(segs: seq<Segment>, format: Option<(nat, nat)>, c: Call, rate: nat, numChannels: nat)
    requires rate > 0 && c.timeline.tempo > 0 && Timed(segs) && (format == Some((rate, numChannels)) || segs == [])
    ensures var begin, fmt := c.beginAppBeat - SessionOffset(c.timeline, c.quantum), Some((rate, numChannels));
            Queued(segs, format, begin, c.timeline.tempo, c.samples, rate, numChannels)
            == Queued(segs, fmt, begin, c.timeline.tempo, c.samples, rate, numChannels)
  {
  }

  /** The first write of a run, and the rest from where it leaves the sink. */
  lemma RunSinkStep(segs: seq<Segment>, nextSeq: nat, requesters: map<Id, int>, calls: seq<Call>,
                    rate: nat, numChannels: nat, fill: bool) returns (step: Drained)
    requires rate > 0 && Timed(segs) && calls != [] && ValidCalls(calls, FrameWidth(numChannels))
    ensures var c, live := calls[0], Live(requesters, calls[0].now);
            var begin := c.beginAppBeat - SessionOffset(c.timeline, c.quantum);
            var queued := Queued(segs, Some((rate, numChannels)), begin, c.timeline.tempo, c.samples,
                                 rate, numChannels);
            (step == Transmitted(queued, nextSeq, live, rate, numChannels, fill))
    ensures Timed(step.segs)
    ensures RunSink(segs, nextSeq, WritesOf(calls, FrameWidth(numChannels)), LiveAt(requesters, calls),
                    rate, numChannels, fill)
         == AfterDrained(step.out, RunSink(step.segs, step.nextSeq, WritesOf(calls[1..], FrameWidth(numChannels)),
                                           LiveAt(Live(requesters, calls[0].now), calls[1..]), rate, numChannels, fill))
  {
    hide Drain, AudioSink.Enqueue, SessionOffset;
    var c, live := calls[0], Live(requesters, calls[0].now);
    var begin := c.beginAppBeat - SessionOffset(c.timeline, c.quantum);
    step := Transmitted(Queued(segs, Some((rate, numChannels)), begin, c.timeline.tempo, c.samples, rate, numChannels),
                        nextSeq, live, rate, numChannels, fill);
  }
}
