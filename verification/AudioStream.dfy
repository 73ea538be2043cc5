/**
 End to end: what a run of writes emits, carried as encoded datagrams over a
 lossless channel, is decoded and delivered whole, in order and without loss.
 */
module AudioStream {
  import opened Types
  import opened Wrappers
  import opened BeatGrid
  import opened Codec
  import opened AudioWire
  import opened AudioSink
  import opened AudioSender
  import opened AudioSource

  /** The receiver as a value: inbox and sequence counter. */
  datatype Receiver = Receiver(inbox: seq<ReceivedChunk>, counter: Counter)

  const FRESH := Receiver([], Counter(None, 0))

  /** Who listens: the node, the subscribed channel, the session it is in. */
  datatype Listener = Listener(node: Id, channel: Id, session: Id)

  /** One arriving datagram: undecodable ones, our own, other messages, and buffers of
      another session or channel are dropped; the rest are delivered. */
  function Hear(r: Receiver, datagram: seq<byte>, who: Listener, delta: int): Receiver {
    var f := DecodeFrame(datagram);
    if f.Err? || f.value.node == who.node || f.value.groupId != 0 || !f.value.message.Audio? then r
    else
      var b := f.value.message.buffer;
      if b.session != who.session || b.channel != who.channel then r
      else Receiver(LastOf(r.inbox + CutsOf(b, delta), INBOX_LIMIT), ArriveAll(r.counter, Nums(b.chunks)))
  }

  function HearAll(r: Receiver, datagrams: seq<seq<byte>>, who: Listener, delta: int): Receiver
    decreases |datagrams|
  {
    if datagrams == [] then r
    else HearAll(Hear(r, datagrams[0], who, delta), datagrams[1..], who, delta)
  }

  predicate MaterialInRange(m: Material) {
    forall i :: 0 <= i < |m.chunks| ==>
      IsU64(m.chunks[i].num) && IsI64(m.chunks[i].beginBeats) && IsI64(m.chunks[i].tempo)
  }

  /** Sequence numbers and beats have not outgrown 64 bits. */
  predicate AllInRange(out: seq<Material>) {
    forall i :: 0 <= i < |out| ==> MaterialInRange(out[i])
  }

  predicate AllPacked(out: seq<Material>, ch: nat, z: Sizing) {
    forall i :: 0 <= i < |out| ==> WellPacked(out[i], ch, z)
  }

  /** A datagram of either sizing. */
  predicate Standard(z: Sizing) {
    z == REFERENCE || z == FILL
  }

  lemma {:induction false} FramesBelowTotal(chunks: seq<Chunk>, i: nat)
    requires i < |chunks|
    ensures chunks[i].numFrames <= TotalFrames(chunks)
  {
    if i > 0 {
      FramesBelowTotal(chunks[1..], i - 1);
    }
  }

  lemma {:induction false} ChunksBelowTotal(chunks: seq<Chunk>)
    requires forall i :: 0 <= i < |chunks| ==> chunks[i].numFrames > 0
    ensures |chunks| <= TotalFrames(chunks)
  {
    if chunks != [] {
      ChunksBelowTotal(chunks[1..]);
    }
  }

  lemma PackedSmall(m: Material, ch: nat, z: Sizing)
    requires ch > 0 && Standard(z) && WellPacked(m, ch, z)
    ensures |m.data| <= 574 && TotalFrames(m.chunks) <= 574 && |m.chunks| <= 574
    ensures forall i :: 0 <= i < |m.chunks| ==> IsU16(m.chunks[i].numFrames)
  {
    ChunksBelowTotal(m.chunks);
    MulMono(1, ch, TotalFrames(m.chunks));
    forall i | 0 <= i < |m.chunks| ensures IsU16(m.chunks[i].numFrames) {
      FramesBelowTotal(m.chunks, i);
    }
  }

  /** A well-packed datagram passes every check of the decoder. */
  lemma PackedDecodes(m: Material, node: Id, channel: Id, session: Id, rate: nat, ch: nat, z: Sizing)
    requires 0 < ch < 256 && IsU32(rate) && Standard(z) && WellPacked(m, ch, z) && MaterialInRange(m)
    ensures var f := NewFrame(node, Audio(BufferOf(m, channel, session, rate, ch)));
            FrameInRange(f) && DecodeFrame(EncodeFrame(f)) == Ok(f)
  {
    var b := BufferOf(m, channel, session, rate, ch);
    var f := NewFrame(node, Audio(b));
    PackedSmall(m, ch, z);
    assert ChunksInRange(b.chunks);
    assert TotalFrames(b.chunks) * b.numChannels * 2 == |b.sampleData|;
    FrameRoundTrip(f);
  }

  /** Fill sizing never exceeds the sender's 1196 bytes, nor a chunk 512 frames. */
  lemma FillFits(m: Material, node: Id, channel: Id, session: Id, rate: nat, ch: nat)
    requires 0 < ch < 256 && IsU32(rate) && WellPacked(m, ch, FILL) && MaterialInRange(m)
    ensures var f := NewFrame(node, Audio(BufferOf(m, channel, session, rate, ch)));
            FrameInRange(f) && |EncodeFrame(f)| <= 20 + MAX_PAYLOAD
            && |EncodeFrame(f)| > 20 + MAX_PAYLOAD - CHUNK_RECORD_SIZE - 2 * ch
    ensures forall i :: 0 <= i < |m.chunks| ==> m.chunks[i].numFrames <= V1_MAX_CHUNK_FRAMES
  {
    PackedDecodes(m, node, channel, session, rate, ch, FILL);
    AudioSize(NewFrame(node, Audio(BufferOf(m, channel, session, rate, ch))));
  }

  /** The most chunks a reference datagram of this width holds within 1200 bytes. */
  function ChunkRoom(ch: nat): (r: nat)
    requires ch > 0
    ensures r >= 25
  {
    DivBounds(SAMPLE_BYTE_CAP, 2 * ch);
    FrameBytes(ch, BlockFrames(ch));
    (MAX_MESSAGE_SIZE - 20 - AUDIO_FIXED_OVERHEAD - 2 * (BlockFrames(ch) * ch)) / CHUNK_RECORD_SIZE
  }

  /** Reference sizing leaves chunk records out of its budget: a datagram fits the
      1200 bytes exactly if its chunks do, and 25 always do. */
  lemma ReferenceFits(m: Material, node: Id, channel: Id, session: Id, rate: nat, ch: nat)
    requires 0 < ch < 256 && IsU32(rate) && WellPacked(m, ch, REFERENCE) && MaterialInRange(m)
    ensures var f := NewFrame(node, Audio(BufferOf(m, channel, session, rate, ch)));
            FrameInRange(f) && (|EncodeFrame(f)| <= MAX_MESSAGE_SIZE <==> |m.chunks| <= ChunkRoom(ch))
    ensures ChunkRoom(ch) >= 25
  {
    PackedDecodes(m, node, channel, session, rate, ch, REFERENCE);
    AudioSize(NewFrame(node, Audio(BufferOf(m, channel, session, rate, ch))));
    ReferenceBlock(m, ch);
    assert 2 * |m.data| <= SAMPLE_BYTE_CAP;
  }

  /** Where whole frames fill the 502 bytes, as at one and at 251 channels, 25 are the
      most. */
  lemma ChunkRoomIsTight()
    ensures ChunkRoom(1) == ChunkRoom(251) == 25
  {
    assert BlockFrames(1) == 251 && BlockFrames(251) == 1;
  }

  /** The datagrams of a run, each in its own frame. */
  function Datagrams(out: seq<Material>, node: Id, channel: Id, session: Id, rate: nat, ch: nat,
                     z: Sizing): seq<seq<byte>>
    requires 0 < ch < 256 && IsU32(rate) && Standard(z) && AllPacked(out, ch, z) && AllInRange(out)
  {
    if out == [] then []
    else
      PackedDecodes(out[0], node, channel, session, rate, ch, z);
      [EncodeFrame(NewFrame(node, Audio(BufferOf(out[0], channel, session, rate, ch))))]
      + Datagrams(out[1..], node, channel, session, rate, ch, z)
  }

  /** Everything delivered for these datagrams, before the inbox is trimmed. */
  function Received(out: seq<Material>, delta: int, rate: nat, ch: nat): seq<ReceivedChunk> {
    if out == [] then []
    else Cuts(out[0].chunks, out[0].data, ch, delta, rate, ch) + Received(out[1..], delta, rate, ch)
  }

  function SamplesIn(rs: seq<ReceivedChunk>): seq<i16> {
    if rs == [] then [] else rs[0].samples + SamplesIn(rs[1..])
  }

  lemma {:induction false} SamplesInAppend(a: seq<ReceivedChunk>, b: seq<ReceivedChunk>)
    ensures SamplesIn(a + b) == SamplesIn(a) + SamplesIn(b)
  {
    if a == [] {
      assert a + b == b;
    } else {
      assert (a + b)[1..] == a[1..] + b;
      SamplesInAppend(a[1..], b);
      SampleAssoc(a[0].samples, SamplesIn(a[1..]), SamplesIn(b));
    }
  }

  /** Cutting a buffer whose samples match its frame count loses nothing. */
  lemma {:induction false} CutsConserve(chunks: seq<Chunk>, samples: seq<i16>, ch: nat, delta: int, rate: nat,
                                        channels: nat)
    requires TotalFrames(chunks) * ch == |samples|
    ensures SamplesIn(Cuts(chunks, samples, ch, delta, rate, channels)) == samples
  {
    if chunks == [] {
      assert 0 * ch == 0;
    } else {
      var n, rest := chunks[0].numFrames, TotalFrames(chunks[1..]);
      Distribute(n, rest, ch);
      MulMono(0, rest, ch);
      CutsConserve(chunks[1..], samples[n * ch..], ch, delta, rate, channels);
      var cuts := Cuts(chunks, samples, ch, delta, rate, channels);
      assert cuts[1..] == Cuts(chunks[1..], samples[n * ch..], ch, delta, rate, channels);
      assert samples == samples[..n * ch] + samples[n * ch..];
    }
  }

  lemma {:induction false} ReceivedSamples(out: seq<Material>, delta: int, rate: nat, ch: nat, z: Sizing)
    requires AllPacked(out, ch, z)
    ensures SamplesIn(Received(out, delta, rate, ch)) == DataOf(out)
  {
    if out != [] {
      assert WellPacked(out[0], ch, z);
      CutsConserve(out[0].chunks, out[0].data, ch, delta, rate, ch);
      SamplesInAppend(Cuts(out[0].chunks, out[0].data, ch, delta, rate, ch), Received(out[1..], delta, rate, ch));
      ReceivedSamples(out[1..], delta, rate, ch, z);
    }
  }

  /** Hearing one of our datagrams. */
  lemma HearOne(r: Receiver, m: Material, node: Id, who: Listener, rate: nat, ch: nat, z: Sizing, delta: int)
    requires 0 < ch < 256 && IsU32(rate) && Standard(z) && WellPacked(m, ch, z) && MaterialInRange(m)
             && node != who.node
    ensures var f := NewFrame(node, Audio(BufferOf(m, who.channel, who.session, rate, ch)));
            FrameInRange(f) && Hear(r, EncodeFrame(f), who, delta)
              == Receiver(LastOf(r.inbox + Cuts(m.chunks, m.data, ch, delta, rate, ch), INBOX_LIMIT),
                          ArriveAll(r.counter, Nums(m.chunks)))
  {
    PackedDecodes(m, node, who.channel, who.session, rate, ch, z);
    SamplesRoundTrip(m.data);
  }

  /** Delivering one datagram's content. */
  function Absorb(r: Receiver, m: Material, delta: int, rate: nat, ch: nat): Receiver {
    Receiver(LastOf(r.inbox + Cuts(m.chunks, m.data, ch, delta, rate, ch), INBOX_LIMIT),
             ArriveAll(r.counter, Nums(m.chunks)))
  }

  function AbsorbAll(r: Receiver, out: seq<Material>, delta: int, rate: nat, ch: nat): Receiver
    decreases |out|
  {
    if out == [] then r else AbsorbAll(Absorb(r, out[0], delta, rate, ch), out[1..], delta, rate, ch)
  }

  /** The wire is transparent: hearing the encoded datagrams absorbs exactly what
      was packed into them. */
  lemma {:induction false} WireTransparent(r: Receiver, out: seq<Material>, node: Id, who: Listener,
                                           rate: nat, ch: nat, z: Sizing, delta: int)
    requires 0 < ch < 256 && IsU32(rate) && Standard(z) && AllPacked(out, ch, z) && AllInRange(out) && node != who.node
    ensures HearAll(r, Datagrams(out, node, who.channel, who.session, rate, ch, z), who, delta)
         == AbsorbAll(r, out, delta, rate, ch)
    decreases |out|
  {
    if out != [] {
      HearOne(r, out[0], node, who, rate, ch, z, delta);
      var all := Datagrams(out, node, who.channel, who.session, rate, ch, z);
      assert all[1..] == Datagrams(out[1..], node, who.channel, who.session, rate, ch, z);
      WireTransparent(Absorb(r, out[0], delta, rate, ch), out[1..], node, who, rate, ch, z, delta);
    }
  }

  /** The inbox ends as the newest 256 of everything delivered. */
  lemma {:induction false} InboxKeepsNewest(r: Receiver, out: seq<Material>, delta: int, rate: nat, ch: nat)
    requires r.inbox == LastOf(r.inbox, INBOX_LIMIT)
    ensures AbsorbAll(r, out, delta, rate, ch).inbox == LastOf(r.inbox + Received(out, delta, rate, ch), INBOX_LIMIT)
    decreases |out|
  {
    if out == [] {
      assert r.inbox + [] == r.inbox;
    } else {
      var cuts, more := Cuts(out[0].chunks, out[0].data, ch, delta, rate, ch), Received(out[1..], delta, rate, ch);
      InboxKeepsNewest(Absorb(r, out[0], delta, rate, ch), out[1..], delta, rate, ch);
      LastOfAppend(r.inbox + cuts, more, INBOX_LIMIT);
      assert r.inbox + cuts + more == r.inbox + (cuts + more);
    }
  }

  /** The counter ends as if every chunk number had arrived in turn. */
  lemma {:induction false} CounterSeesAll(r: Receiver, out: seq<Material>, delta: int, rate: nat, ch: nat)
    ensures AbsorbAll(r, out, delta, rate, ch).counter == ArriveAll(r.counter, Nums(ChunksOf(out)))
    decreases |out|
  {
    if out != [] {
      CounterSeesAll(Absorb(r, out[0], delta, rate, ch), out[1..], delta, rate, ch);
      NumsAppend(out[0].chunks, ChunksOf(out[1..]));
      ArriveAppend(r.counter, Nums(out[0].chunks), Nums(ChunksOf(out[1..])));
    }
  }

  /** A run from an empty queue, in either sizing: well packed, and everything
      written is either emitted or still pending. */
  lemma RunFromEmpty(ws: seq<Write>, rate: nat, ch: nat, z: Sizing)
    requires 0 < ch && 0 < rate && Standard(z) && ValidWrites(ws, ch)
    ensures var d := RunWrites([], 1, ws, ch, rate, z);
            AllPacked(d.out, ch, z) && DataOf(d.out) + Whole(d.segs, ch) == Stream(ws)
            && Numbered(ChunksOf(d.out), 1) && d.nextSeq == 1 + |ChunksOf(d.out)|
  {
    assert Counts([], ch) == [];
    RunPacked([], 1, ws, ch, rate, z);
    RunConserves([], 1, ws, ch, rate, z);
    assert Whole([], ch) + Stream(ws) == Stream(ws);
    RunNumbers([], 1, ws, ch, rate, z);
  }

  /** No loss is counted for datagrams heard in order. */
  lemma CountedInOrder(out: seq<Material>, delta: int, rate: nat, ch: nat, z: Sizing)
    requires AllPacked(out, ch, z) && Numbered(ChunksOf(out), 1)
    ensures var c := AbsorbAll(FRESH, out, delta, rate, ch).counter;
            c.lost == 0 && (out != [] ==> c.expected == Some(1 + |ChunksOf(out)|))
  {
    CounterSeesAll(FRESH, out, delta, rate, ch);
    ConsecutiveNumbers(ChunksOf(out), 1);
    NoLoss(Counter(None, 0), 1, Nums(ChunksOf(out)));
    if out != [] {
      assert WellPacked(out[0], ch, z);
    }
  }

  /** Well-packed, numbered datagrams heard over a lossless channel by a fresh
      subscription. */
  lemma LosslessDelivery(out: seq<Material>, node: Id, who: Listener, rate: nat, ch: nat, z: Sizing, delta: int)
    requires 0 < ch < 256 && IsU32(rate) && Standard(z) && node != who.node
    requires AllPacked(out, ch, z) && AllInRange(out) && Numbered(ChunksOf(out), 1)
    ensures var heard := HearAll(FRESH, Datagrams(out, node, who.channel, who.session, rate, ch, z), who, delta);
            var delivered := Received(out, delta, rate, ch);
            && heard.inbox == LastOf(delivered, INBOX_LIMIT) && SamplesIn(delivered) == DataOf(out)
            && heard.counter.lost == 0
            && (out != [] ==> heard.counter.expected == Some(1 + |ChunksOf(out)|))
  {
    WireTransparent(FRESH, out, node, who, rate, ch, z, delta);
    InboxKeepsNewest(FRESH, out, delta, rate, ch);
    var delivered := Received(out, delta, rate, ch);
    assert [] + delivered == delivered;
    ReceivedSamples(out, delta, rate, ch, z);
    CountedInOrder(out, delta, rate, ch, z);
  }

  /** End to end, either sizing: a fresh sink's run of frame-aligned writes, sent
      over a lossless channel, is delivered whole - the samples delivered and then
      those still pending are the samples written - with no loss counted and the
      inbox holding the newest 256 chunks. */
  lemma EndToEnd(ws: seq<Write>, node: Id, who: Listener, rate: nat, ch: nat, z: Sizing, delta: int, d: Drained)
    requires 0 < ch < 256 && 0 < rate && IsU32(rate) && Standard(z) && ValidWrites(ws, ch) && node != who.node
    requires d == RunWrites([], 1, ws, ch, rate, z) && AllInRange(d.out)
    ensures AllPacked(d.out, ch, z)
    ensures var heard := HearAll(FRESH, Datagrams(d.out, node, who.channel, who.session, rate, ch, z), who, delta);
            var delivered := Received(d.out, delta, rate, ch);
            && heard.inbox == LastOf(delivered, INBOX_LIMIT)
            && SamplesIn(delivered) + Whole(d.segs, ch) == Stream(ws)
            && heard.counter.lost == 0
            && (d.out != [] ==> heard.counter.expected == Some(d.nextSeq))
  {
    RunFromEmpty(ws, rate, ch, z);
    LosslessDelivery(d.out, node, who, rate, ch, z, delta);
  }

  lemma ConsecutiveNumbers(chunks: seq<Chunk>, first: nat)
    requires Numbered(chunks, first)
    ensures forall i :: 0 <= i < |Nums(chunks)| ==> Nums(chunks)[i] == first + i
  {
    forall i | 0 <= i < |Nums(chunks)| ensures Nums(chunks)[i] == first + i {
      NumsAt(chunks, i);
    }
  }

  // ------------------------------------------------------------- on the objects

  /** A subscription as a value. */
  ghost function ReceiverOf(source: Source): Receiver
    reads source
  {
    Receiver(source.inbox, Counter(source.nextSeqExpected, source.lostChunks))
  }

  /** Datagrams arriving one after the other at one subscription. */
  method HearDatagrams(source: Source, datagrams: seq<seq<byte>>, who: Listener, timeline: Timeline, now: int)
    requires timeline.tempo > 0
    modifies source
    ensures ReceiverOf(source)
         == HearAll(old(ReceiverOf(source)), datagrams, who, SessionOffset(timeline, source.quantum))
  {
    ghost var all := HearAll(ReceiverOf(source), datagrams, who, SessionOffset(timeline, source.quantum));
    var i := 0;
    while i < |datagrams|
      invariant 0 <= i <= |datagrams|
      invariant all == HearAll(ReceiverOf(source), datagrams[i..], who, SessionOffset(timeline, source.quantum))
    {
      assert datagrams[i..][1..] == datagrams[i + 1..];
      HearDatagram(source, datagrams[i], who, timeline, now);
      i := i + 1;
    }
  }

  method HearDatagram(source: Source, datagram: seq<byte>, who: Listener, timeline: Timeline, now: int)
    requires timeline.tempo > 0
    modifies source
    ensures ReceiverOf(source)
         == Hear(old(ReceiverOf(source)), datagram, who, SessionOffset(timeline, source.quantum))
  {
    hide DecodeFrame, CutsOf, ArriveAll, LastOf;
    var f := AudioWire.Decode(datagram);
    if f.Ok? && f.value.node != who.node && f.value.groupId == 0 && f.value.message.Audio? {
      var b := f.value.message.buffer;
      if b.session == who.session && b.channel == who.channel {
        source.Deliver(b, timeline, now);
      }
    }
  }

  /** Emitted buffers, each encoded in its own frame. */
  method SendAll(out: seq<AudioBuffer>, node: Id, ghost ms: seq<Material>, ghost session: Id, ghost channel: Id,
                 ghost rate: nat, ghost ch: nat, ghost z: Sizing) returns (datagrams: seq<seq<byte>>)
    requires 0 < ch < 256 && IsU32(rate) && Standard(z) && AllPacked(ms, ch, z) && AllInRange(ms)
    requires out == BuffersOf(ms, channel, session, rate, ch)
    ensures datagrams == Datagrams(ms, node, channel, session, rate, ch, z)
  {
    hide Datagrams, BufferOf, WellPacked, MaterialInRange;
    datagrams := [];
    ghost var rest := ms;
    ghost var all := Datagrams(ms, node, channel, session, rate, ch, z);
    assert [] + all == all;
    var i := 0;
    while i < |out|
      invariant 0 <= i <= |out| && AllPacked(rest, ch, z) && AllInRange(rest)
      invariant out[i..] == BuffersOf(rest, channel, session, rate, ch)
      invariant all == datagrams + Datagrams(rest, node, channel, session, rate, ch, z)
    {
      FirstDatagram(rest, node, channel, session, rate, ch, z);
      assert out[i] == out[i..][0] && out[i + 1..] == out[i..][1..];
      var bytes := EncodeBuffer(node, out[i]);
      ghost var more := Datagrams(rest[1..], node, channel, session, rate, ch, z);
      assert datagrams + ([bytes] + more) == datagrams + [bytes] + more;
      datagrams := datagrams + [bytes];
      rest := rest[1..];
      i := i + 1;
    }
    assert rest == [];
    NoDatagrams(node, channel, session, rate, ch, z);
    assert datagrams + [] == datagrams;
  }

  method EncodeBuffer(node: Id, b: AudioBuffer) returns (bytes: seq<byte>)
    requires FrameInRange(NewFrame(node, Audio(b)))
    ensures bytes == EncodeFrame(NewFrame(node, Audio(b)))
  {
    bytes := AudioWire.Encode(NewFrame(node, Audio(b)));
  }

  lemma NoDatagrams(node: Id, channel: Id, session: Id, rate: nat, ch: nat, z: Sizing)
    requires 0 < ch < 256 && IsU32(rate) && Standard(z)
    ensures Datagrams([], node, channel, session, rate, ch, z) == []
  {
  }

  lemma FirstDatagram(ms: seq<Material>, node: Id, channel: Id, session: Id, rate: nat, ch: nat, z: Sizing)
    requires 0 < ch < 256 && IsU32(rate) && Standard(z) && AllPacked(ms, ch, z) && AllInRange(ms)
    requires BuffersOf(ms, channel, session, rate, ch) != []
    ensures ms != [] && AllPacked(ms[1..], ch, z) && AllInRange(ms[1..])
    ensures BuffersOf(ms, channel, session, rate, ch)
         == [BufferOf(ms[0], channel, session, rate, ch)] + BuffersOf(ms[1..], channel, session, rate, ch)
    ensures var f := NewFrame(node, Audio(BufferOf(ms[0], channel, session, rate, ch)));
            FrameInRange(f) && Datagrams(ms, node, channel, session, rate, ch, z)
                               == [EncodeFrame(f)] + Datagrams(ms[1..], node, channel, session, rate, ch, z)
  {
    PackedDecodes(ms[0], node, channel, session, rate, ch, z);
  }

  /** End to end on the objects: a fresh sink with a requester live throughout, any
      writes, the datagrams sent as encoded and heard in order by a fresh subscription.
      What the inbox was given and what is still pending is what was written. */
  method Perform(sink: Sink, source: Source, calls: seq<Call>, node: Id, who: Listener, rate: nat, ch: nat, fill: bool,
                 timeline: Timeline, now: int)
    requires 0 < ch < 256 && 0 < rate && IsU32(rate) && ValidCalls(calls, ch) && timeline.tempo > 0
    requires node != who.node && sink.id == who.channel
    requires sink.segments == [] && sink.nextSeq == 1 && ReceiverOf(source) == FRESH
    requires forall i :: 0 <= i < |calls| ==> LiveAt(sink.requesters, calls)[i] != map[]
    requires AllInRange(RunWrites([], 1, WritesOf(calls, ch), ch, rate, SizingOf(fill)).out)
    modifies sink, source
    ensures var delta := SessionOffset(timeline, source.quantum);
            var d := RunWrites([], 1, WritesOf(calls, ch), ch, rate, SizingOf(fill));
            var delivered := Received(d.out, delta, rate, ch);
            && source.inbox == LastOf(delivered, INBOX_LIMIT) && source.lostChunks == 0
            && SamplesIn(delivered) + Whole(sink.segments, ch) == Stream(WritesOf(calls, ch))
            && (d.out != [] ==> source.nextSeqExpected == Some(sink.nextSeq))
  {
    hide Hear, HearAll, Datagrams, Received, Stream, Whole;
    ghost var ws, z := WritesOf(calls, ch), SizingOf(fill);
    SinkRunsWrites([], 1, ws, LiveAt(sink.requesters, calls), rate, ch, fill);
    ghost var d := RunWrites([], 1, ws, ch, rate, z);
    EndToEnd(ws, node, who, rate, ch, z, SessionOffset(timeline, source.quantum), d);
    var out := WriteAll(sink, calls, who.session, rate, ch, fill);
    var datagrams := SendAll(out, node, d.out, who.session, who.channel, rate, ch, z);
    HearDatagrams(source, datagrams, who, timeline, now);
  }
}
