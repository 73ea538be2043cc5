/**
 LinkAudio messages: announcements, byes, keepalive pongs, channel requests and
 beat-stamped audio buffers. `EncodeFrame` and `DecodeFrame` say what goes on
 the wire; the methods `Encode` and `Decode` produce and parse it step by step.
 */
module AudioWire {
  import opened Types
  import opened Wrappers
  import opened Codec

  /** ASCII `chnnlsv`, then the version. */
  const MAGIC: seq<byte> := [0x63, 0x68, 0x6e, 0x6e, 0x6c, 0x73, 0x76, 0x01]
  const MAX_MESSAGE_SIZE := 1200
  const MAX_PAYLOAD := 1176
  const SAMPLE_BYTE_CAP := 502
  const MAX_NAME := 256
  const TTL_SECONDS := 5
  const CODEC_PCM_I16 := 1
  const CHUNK_RECORD_SIZE := 26
  const AUDIO_FIXED_OVERHEAD := 28
  const V1_MAX_CHUNK_FRAMES := 512

  const KEY_SESS := 0x73657373
  const KEY_PI := 0x5f5f7069
  const KEY_AUCA := 0x61756361
  const KEY_AUCB := 0x61756362
  const KEY_CHID := 0x63686964
  const KEY_HT := 0x5f5f6874

  datatype ChannelInfo = ChannelInfo(name: seq<byte>, id: Id)

  /** One run of frames mapped onto the beat grid. */
  datatype Chunk = Chunk(num: nat, numFrames: nat, beginBeats: int, tempo: int)

  datatype AudioBuffer = AudioBuffer(channel: Id, session: Id, chunks: seq<Chunk>, codec: nat,
                                     sampleRate: nat, numChannels: nat, sampleData: seq<byte>)

  datatype Message =
    | PeerAnnouncement(session: Id, peerName: seq<byte>, channels: seq<ChannelInfo>, ping: Option<int>)
    | ChannelByes(ids: seq<Id>)
    | Pong(hostTime: int)
    | ChannelRequest(channel: Id)
    | StopChannelRequest(channel: Id)
    | Audio(buffer: AudioBuffer)

  datatype Frame = Frame(ttl: nat, groupId: nat, node: Id, message: Message)

  /** A frame with the ttl its message nominally carries, in group 0. */
  function NewFrame(node: Id, message: Message): Frame {
    Frame(if message.StopChannelRequest? || message.Audio? then 0 else TTL_SECONDS, 0, node, message)
  }

  /** Samples per frame; a channel count of zero is treated as one. */
  function FrameWidth(numChannels: nat): (ch: nat)
    ensures ch > 0
  {
    if numChannels == 0 then 1 else numChannels
  }

  function TotalFrames(chunks: seq<Chunk>): nat {
    if chunks == [] then 0 else chunks[0].numFrames + TotalFrames(chunks[1..])
  }

  // -------------------------------------------------------------- samples

  /** A sample as an unsigned 16-bit word. */
  function SampleWord(s: int): nat
    requires -0x8000 <= s < 0x8000
  {
    if s < 0 then s + 0x1_0000 else s
  }

  function SampleBytes(s: i16): (b: seq<byte>)
    ensures |b| == 2
  {
    U16(SampleWord(s))
  }

  function SampleOf(b: seq<byte>): i16
    requires |b| == 2
  {
    assert FromBE(b) < 0x1_0000 by { Pow256Values(); }
    if FromBE(b) >= 0x8000 then FromBE(b) - 0x1_0000 else FromBE(b)
  }

  function SamplesBytes(s: seq<i16>): (b: seq<byte>)
    ensures |b| == 2 * |s|
  {
    if s == [] then [] else SampleBytes(s[0]) + SamplesBytes(s[1..])
  }

  /** Two bytes at a time; an odd last byte is ignored. */
  function SamplesOf(b: seq<byte>): (s: seq<i16>)
    ensures |s| == |b| / 2
  {
    if |b| < 2 then [] else [SampleOf(b[..2])] + SamplesOf(b[2..])
  }

  lemma {:induction false} SamplesRoundTrip(s: seq<i16>)
    ensures SamplesOf(SamplesBytes(s)) == s
  {
    if s != [] {
      SamplesRoundTrip(s[1..]);
      Pow256Values();
      FromBEOfBE(SampleWord(s[0]), 2);
      assert SamplesBytes(s)[..2] == SampleBytes(s[0]);
      assert SamplesBytes(s)[2..] == SamplesBytes(s[1..]);
    }
  }

  /** The other way only an odd last byte is lost. */
  lemma {:induction false} SampleBytesRoundTrip(b: seq<byte>)
    ensures SamplesBytes(SamplesOf(b)) == b[..|b| - |b| % 2]
    ensures SamplesBytes(SamplesOf(b)) == b <==> |b| % 2 == 0
  {
    if |b| >= 2 {
      SampleBytesRoundTrip(b[2..]);
      Pow256Values();
      BEOfFromBE(b[..2]);
      assert SamplesBytes(SamplesOf(b)) == b[..2] + SamplesBytes(SamplesOf(b[2..]));
      assert b[2..][..|b| - 2 - |b| % 2] == b[2..|b| - |b| % 2];
    }
  }

  lemma {:induction false} SamplesBytesAppend(a: seq<i16>, b: seq<i16>)
    ensures SamplesBytes(a + b) == SamplesBytes(a) + SamplesBytes(b)
  {
    if a == [] {
      assert a + b == b;
    } else {
      assert (a + b)[1..] == a[1..] + b;
      SamplesBytesAppend(a[1..], b);
    }
  }

  method EncodeSamples(samples: seq<i16>) returns (out: seq<byte>)
    ensures out == SamplesBytes(samples)
    ensures |out| == 2 * |samples| && SamplesOf(out) == samples
  {
    out := [];
    for i := 0 to |samples|
      invariant out == SamplesBytes(samples[..i])
    {
      out := out + SampleBytes(samples[i]);
      SamplesBytesAppend(samples[..i], [samples[i]]);
      assert samples[..i + 1] == samples[..i] + [samples[i]];
      var one := [samples[i]];
      assert one[1..] == [];
    }
    assert samples[..|samples|] == samples;
    SamplesRoundTrip(samples);
  }

  // ------------------------------------------------------------- encoding

  function MessageType(m: Message): nat {
    match m
    case PeerAnnouncement(_, _, _, _) => 1
    case ChannelByes(_) => 2
    case Pong(_) => 3
    case ChannelRequest(_) => 4
    case StopChannelRequest(_) => 5
    case Audio(_) => 6
  }

  function ChannelBytes(c: ChannelInfo): seq<byte> {
    Str(c.name) + c.id
  }

  function ChannelsBytes(cs: seq<ChannelInfo>): seq<byte> {
    if cs == [] then [] else ChannelsBytes(cs[..|cs| - 1]) + ChannelBytes(cs[|cs| - 1])
  }

  function IdsBytes(ids: seq<Id>): seq<byte> {
    if ids == [] then [] else IdsBytes(ids[..|ids| - 1]) + ids[|ids| - 1]
  }

  function ChunkBytes(c: Chunk): seq<byte>
    requires IsI64(c.beginBeats) && IsI64(c.tempo)
  {
    U64(c.num) + (U16(c.numFrames) + (I64(c.beginBeats) + I64(c.tempo)))
  }

  predicate ChunkInRange(c: Chunk) {
    IsU64(c.num) && IsU16(c.numFrames) && IsI64(c.beginBeats) && IsI64(c.tempo)
  }

  predicate ChunksInRange(cs: seq<Chunk>) {
    forall i :: 0 <= i < |cs| ==> ChunkInRange(cs[i])
  }

  function ChunksBytes(cs: seq<Chunk>): (b: seq<byte>)
    requires ChunksInRange(cs)
    ensures |b| == CHUNK_RECORD_SIZE * |cs|
  {
    if cs == [] then [] else ChunksBytes(cs[..|cs| - 1]) + ChunkBytes(cs[|cs| - 1])
  }

  /** Every field fits its wire width. */
  predicate BufferInRange(b: AudioBuffer) {
    && ChunksInRange(b.chunks) && IsU32(|b.chunks|)
    && IsU8(b.codec) && IsU32(b.sampleRate) && IsU8(b.numChannels) && IsU16(|b.sampleData|)
  }

  predicate MessageInRange(m: Message) {
    match m
    case PeerAnnouncement(_, name, cs, ping) =>
      && |name| <= MAX_NAME && (forall c :: c in cs ==> |c.name| <= MAX_NAME)
      && |cs| < 0x80_0000 && (ping.Some? ==> IsI64(ping.value))
    case ChannelByes(ids) => |ids| < 0x80_0000
    case Pong(ht) => IsI64(ht)
    case ChannelRequest(_) => true
    case StopChannelRequest(_) => true
    case Audio(b) => BufferInRange(b)
  }

  predicate FrameInRange(f: Frame) {
    IsU8(f.ttl) && IsU16(f.groupId) && MessageInRange(f.message)
  }

  function HeaderBytes(t: nat, ttl: nat, groupId: nat, node: Id): (b: seq<byte>)
    ensures |b| == 20
  {
    MAGIC + (U8(t) + (U8(ttl) + (U16(groupId) + node)))
  }

  function AnnouncementEntries(session: Id, name: seq<byte>, cs: seq<ChannelInfo>, ping: Option<int>): seq<Entry>
    requires ping.Some? ==> IsI64(ping.value)
  {
    [Entry(KEY_SESS, session), Entry(KEY_PI, Str(name)),
     Entry(KEY_AUCA, U32(|cs|) + ChannelsBytes(cs))]
    + (if ping.Some? then [Entry(KEY_HT, I64(ping.value))] else [])
  }

  function AudioPayload(b: AudioBuffer): seq<byte>
    requires BufferInRange(b)
  {
    b.channel + (b.session + (U32(|b.chunks|) + (ChunksBytes(b.chunks) + AudioTail(b))))
  }

  /** What follows the chunk list. */
  function AudioTail(b: AudioBuffer): seq<byte> {
    U8(b.codec) + (U32(b.sampleRate) + (U8(b.numChannels) + (U16(|b.sampleData|) + b.sampleData)))
  }

  function PayloadBytes(m: Message): seq<byte>
    requires MessageInRange(m)
  {
    match m
    case PeerAnnouncement(session, name, cs, ping) => ContainerBytes(AnnouncementEntries(session, name, cs, ping))
    case ChannelByes(ids) => ContainerBytes([Entry(KEY_AUCB, U32(|ids|) + IdsBytes(ids))])
    case Pong(ht) => ContainerBytes([Entry(KEY_HT, I64(ht))])
    case ChannelRequest(c) => ContainerBytes([Entry(KEY_CHID, c)])
    case StopChannelRequest(c) => ContainerBytes([Entry(KEY_CHID, c)])
    case Audio(b) => AudioPayload(b)
  }

  function EncodeFrame(f: Frame): seq<byte>
    requires FrameInRange(f)
  {
    HeaderBytes(MessageType(f.message), f.ttl, f.groupId, f.node) + PayloadBytes(f.message)
  }

  // ------------------------------------------------------------- decoding

  /** Reads as many channels as announced, or as many as there are bytes for. */
  function ReadChannels(buf: seq<byte>, count: nat): Read<seq<ChannelInfo>> {
    if count == 0 || buf == [] then Ok(([], buf)) else
    var (name, b1) :- ReadStr(buf);
    var (id, b2) :- ReadId(b1);
    var (rest, b3) :- ReadChannels(b2, count - 1);
    Ok(([ChannelInfo(name, id)] + rest, b3))
  }

  function ReadIds(buf: seq<byte>, count: nat): Read<seq<Id>> {
    if count == 0 || buf == [] then Ok(([], buf)) else
    var (id, b1) :- ReadId(buf);
    var (rest, b2) :- ReadIds(b1, count - 1);
    Ok(([id] + rest, b2))
  }

  function ReadChannelList(buf: seq<byte>): Read<seq<ChannelInfo>> {
    var (n, b) :- ReadUint(buf, 4);
    ReadChannels(b, n)
  }

  function ReadIdList(buf: seq<byte>): Read<seq<Id>> {
    var (n, b) :- ReadUint(buf, 4);
    ReadIds(b, n)
  }

  function ReadChunk(buf: seq<byte>): Read<Chunk> {
    var (num, b1) :- ReadUint(buf, 8);
    var (frames, b2) :- ReadUint(b1, 2);
    var (begin, b3) :- ReadI64(b2);
    var (tempo, b4) :- ReadI64(b3);
    Ok((Chunk(num, frames, begin, tempo), b4))
  }

  /** Unlike a vector, the chunk list must hold its full count. */
  function ReadChunks(buf: seq<byte>, count: nat): Read<seq<Chunk>> {
    if count == 0 then Ok(([], buf)) else
    var (c, b1) :- ReadChunk(buf);
    var (rest, b2) :- ReadChunks(b1, count - 1);
    Ok(([c] + rest, b2))
  }

  datatype Announcement = Announcement(session: Option<Id>, peerName: seq<byte>,
                                       channels: seq<ChannelInfo>, ping: Option<int>)

  const NO_ANNOUNCEMENT := Announcement(None, [], [], None)

  function ApplyAnnouncement(a: Announcement, e: Entry): Result<Announcement> {
    if e.key == KEY_SESS then
      var v :- Exactly(ReadId(e.value));
      Ok(a.(session := Some(v)))
    else if e.key == KEY_PI then
      var v :- Exactly(ReadStr(e.value));
      Ok(a.(peerName := v))
    else if e.key == KEY_AUCA then
      var v :- Exactly(ReadChannelList(e.value));
      Ok(a.(channels := v))
    else if e.key == KEY_HT then
      var v :- Exactly(ReadI64(e.value));
      Ok(a.(ping := Some(v)))
    else Ok(a)
  }

  function ApplyByes(ids: seq<Id>, e: Entry): Result<seq<Id>> {
    if e.key == KEY_AUCB then Exactly(ReadIdList(e.value)) else Ok(ids)
  }

  function ApplyPong(ht: Option<int>, e: Entry): Result<Option<int>> {
    if e.key == KEY_HT then
      var v :- Exactly(ReadI64(e.value));
      Ok(Some(v))
    else Ok(ht)
  }

  function ApplyRequest(id: Option<Id>, e: Entry): Result<Option<Id>> {
    if e.key == KEY_CHID then
      var v :- Exactly(ReadId(e.value));
      Ok(Some(v))
    else Ok(id)
  }

  function DecodeAnnouncement(payload: seq<byte>): Result<Message> {
    var a :- Scan(ApplyAnnouncement, NO_ANNOUNCEMENT, payload);
    if a.session.None? then Err(Malformed)
    else Ok(PeerAnnouncement(a.session.value, a.peerName, a.channels, a.ping))
  }

  function DecodeByes(payload: seq<byte>): Result<Message> {
    var ids :- Scan(ApplyByes, [], payload);
    Ok(ChannelByes(ids))
  }

  function DecodePong(payload: seq<byte>): Result<Message> {
    var ht :- Scan(ApplyPong, None, payload);
    if ht.None? then Err(Malformed) else Ok(Pong(ht.value))
  }

  function DecodeRequest(payload: seq<byte>, stop: bool): Result<Message> {
    var id :- Scan(ApplyRequest, None, payload);
    if id.None? then Err(Malformed)
    else Ok(if stop then StopChannelRequest(id.value) else ChannelRequest(id.value))
  }

  /** Channel, session and the chunk list, of which there is at least one. */
  function ReadAudioHead(payload: seq<byte>): Read<(Id, Id, seq<Chunk>)> {
    var (channel, b1) :- ReadId(payload);
    var (session, b2) :- ReadId(b1);
    var (count, b3) :- ReadUint(b2, 4);
    if count == 0 then Err(Malformed) else
    var (chunks, b4) :- ReadChunks(b3, count);
    Ok(((channel, session, chunks), b4))
  }

  /** Codec, rate and channels; the samples fill the datagram exactly. */
  function ReadAudioTail(buf: seq<byte>): Result<(nat, nat, nat, seq<byte>)> {
    var (codec, b5) :- ReadUint(buf, 1);
    var (rate, b6) :- ReadUint(b5, 4);
    var (channels, b7) :- ReadUint(b6, 1);
    var (numBytes, b8) :- ReadUint(b7, 2);
    if |b8| != numBytes then Err(Malformed) else Ok((codec, rate, channels, b8))
  }

  function DecodeAudio(payload: seq<byte>): Result<AudioBuffer> {
    var ((channel, session, chunks), b4) :- ReadAudioHead(payload);
    var (codec, rate, channels, data) :- ReadAudioTail(b4);
    if codec != CODEC_PCM_I16 then Err(Malformed)
    else if TotalFrames(chunks) * channels * 2 != |data| then Err(Malformed)
    else Ok(AudioBuffer(channel, session, chunks, codec, rate, channels, data))
  }

  function DecodePayload(t: nat, payload: seq<byte>): Result<Message> {
    if t == 1 then DecodeAnnouncement(payload)
    else if t == 2 then DecodeByes(payload)
    else if t == 3 then DecodePong(payload)
    else if t == 4 then DecodeRequest(payload, false)
    else if t == 5 then DecodeRequest(payload, true)
    else if t == 6 then
      var b :- DecodeAudio(payload);
      Ok(Audio(b))
    else Err(UnknownMessageType(t))
  }

  function DecodeFrame(d: seq<byte>): Result<Frame> {
    if |d| < 20 then Err(Truncated)
    else if d[..8] != MAGIC then Err(BadMagic)
    else
      var m :- DecodePayload(FromBE(d[8..9]), d[20..]);
      Ok(Frame(FromBE(d[9..10]), FromBE(d[10..12]), d[12..20], m))
  }

  // ----------------------------------------------------------- round trips

  lemma HeaderParts(t: nat, ttl: nat, groupId: nat, node: Id, payload: seq<byte>)
    requires IsU8(t) && IsU8(ttl) && IsU16(groupId)
    ensures var d := HeaderBytes(t, ttl, groupId, node) + payload;
            && d[..8] == MAGIC && FromBE(d[8..9]) == t && FromBE(d[9..10]) == ttl
            && FromBE(d[10..12]) == groupId && d[12..20] == node && d[20..] == payload
  {
    var d := HeaderBytes(t, ttl, groupId, node) + payload;
    Pow256Values();
    FromBEOfBE(t, 1);
    FromBEOfBE(ttl, 1);
    FromBEOfBE(groupId, 2);
    assert d[8..9] == U8(t) && d[9..10] == U8(ttl) && d[10..12] == U16(groupId);
  }

  lemma {:induction false} ChannelsBytesFront(cs: seq<ChannelInfo>)
    requires cs != []
    ensures ChannelsBytes(cs) == ChannelBytes(cs[0]) + ChannelsBytes(cs[1..])
  {
    if |cs| > 1 {
      ChannelsBytesFront(cs[..|cs| - 1]);
      assert cs[..|cs| - 1][1..] == cs[1..][..|cs| - 2];
      assert cs[1..][|cs| - 2] == cs[|cs| - 1];
    }
  }

  lemma {:induction false} IdsBytesFront(ids: seq<Id>)
    requires ids != []
    ensures IdsBytes(ids) == ids[0] + IdsBytes(ids[1..])
  {
    if |ids| > 1 {
      IdsBytesFront(ids[..|ids| - 1]);
      assert ids[..|ids| - 1][1..] == ids[1..][..|ids| - 2];
      assert ids[1..][|ids| - 2] == ids[|ids| - 1];
    }
  }

  lemma {:induction false} ChunksBytesFront(cs: seq<Chunk>)
    requires cs != [] && ChunksInRange(cs)
    ensures ChunksBytes(cs) == ChunkBytes(cs[0]) + ChunksBytes(cs[1..])
  {
    hide ChunkBytes;
    if |cs| > 1 {
      ChunksBytesFront(cs[..|cs| - 1]);
      assert cs[..|cs| - 1][1..] == cs[1..][..|cs| - 2];
      assert cs[1..][|cs| - 2] == cs[|cs| - 1];
    }
  }

  lemma {:induction false} ReadChannelsOf(cs: seq<ChannelInfo>)
    requires forall c :: c in cs ==> |c.name| <= MAX_NAME
    ensures ReadChannels(ChannelsBytes(cs), |cs|) == Ok((cs, []))
  {
    hide ReadStr, ReadId;
    if cs != [] {
      ReadChannelsOf(cs[1..]);
      ReadFirstChannel(cs);
      var rest := ChannelsBytes(cs[1..]);
      ReadChannelsStep(ChannelsBytes(cs), |cs|, cs[0], cs[0].id + rest, rest, cs[1..]);
      assert cs == [cs[0]] + cs[1..];
    }
  }

  lemma ReadFirstChannel(cs: seq<ChannelInfo>)
    requires cs != [] && |cs[0].name| <= MAX_NAME
    ensures ChannelsBytes(cs) != []
    ensures ReadStr(ChannelsBytes(cs)) == Ok((cs[0].name, cs[0].id + ChannelsBytes(cs[1..])))
    ensures ReadId(cs[0].id + ChannelsBytes(cs[1..])) == Ok((cs[0].id, ChannelsBytes(cs[1..])))
  {
    ChannelsBytesFront(cs);
    Assoc(Str(cs[0].name), cs[0].id, ChannelsBytes(cs[1..]));
    ReadStrOf(cs[0].name, cs[0].id + ChannelsBytes(cs[1..]));
    TakeOf(cs[0].id, ChannelsBytes(cs[1..]));
  }

  lemma ReadChannelsStep(buf: seq<byte>, count: nat, c: ChannelInfo, b1: seq<byte>, b2: seq<byte>, cs: seq<ChannelInfo>)
    requires count > 0 && buf != []
    requires ReadStr(buf) == Ok((c.name, b1)) && ReadId(b1) == Ok((c.id, b2))
             && ReadChannels(b2, count - 1) == Ok((cs, []))
    ensures ReadChannels(buf, count) == Ok(([c] + cs, []))
  {
  }

  lemma {:induction false} ReadIdsOf(ids: seq<Id>)
    ensures ReadIds(IdsBytes(ids), |ids|) == Ok((ids, []))
  {
    if ids != [] {
      IdsBytesFront(ids);
      TakeOf(ids[0], IdsBytes(ids[1..]));
      ReadIdsOf(ids[1..]);
      assert ids == [ids[0]] + ids[1..];
    }
  }

  lemma ReadChunkOf(c: Chunk, t: seq<byte>)
    requires ChunkInRange(c)
    ensures ReadChunk(ChunkBytes(c) + t) == Ok((c, t))
  {
    var b3 := I64(c.tempo) + t;
    var b2 := I64(c.beginBeats) + b3;
    var b1 := U16(c.numFrames) + b2;
    Assoc4(U64(c.num), U16(c.numFrames), I64(c.beginBeats), I64(c.tempo), t);
    ReadU64Of(c.num, b1);
    ReadU16Of(c.numFrames, b2);
    ReadI64Of(c.beginBeats, b3);
    ReadI64Of(c.tempo, t);
  }

  lemma {:induction false} ReadChunksOf(cs: seq<Chunk>, t: seq<byte>)
    requires ChunksInRange(cs)
    ensures ReadChunks(ChunksBytes(cs) + t, |cs|) == Ok((cs, t))
  {
    if cs == [] {
      assert ChunksBytes(cs) + t == t;
    } else {
      hide ReadChunk, ChunkBytes, ChunksBytes, ReadChunks;
      ReadChunksOf(cs[1..], t);
      ReadFirstChunk(cs, t);
      ReadChunksStep(ChunksBytes(cs) + t, |cs|, cs[0], ChunksBytes(cs[1..]) + t, cs[1..], t);
      assert cs == [cs[0]] + cs[1..];
    }
  }

  lemma ReadFirstChunk(cs: seq<Chunk>, t: seq<byte>)
    requires cs != [] && ChunksInRange(cs)
    ensures ReadChunk(ChunksBytes(cs) + t) == Ok((cs[0], ChunksBytes(cs[1..]) + t))
  {
    ChunksBytesFront(cs);
    Assoc(ChunkBytes(cs[0]), ChunksBytes(cs[1..]), t);
    ReadChunkOf(cs[0], ChunksBytes(cs[1..]) + t);
  }

  lemma ReadChunksStep(buf: seq<byte>, count: nat, c: Chunk, b1: seq<byte>, cs: seq<Chunk>, t: seq<byte>)
    requires count > 0 && ReadChunk(buf) == Ok((c, b1)) && ReadChunks(b1, count - 1) == Ok((cs, t))
    ensures ReadChunks(buf, count) == Ok(([c] + cs, t))
  {
  }

  lemma {:induction false} ReadChunksInverse(buf: seq<byte>, count: nat)
    ensures ReadChunks(buf, count).Ok? ==>
              var (cs, t) := ReadChunks(buf, count).value;
              |cs| == count && ChunksInRange(cs) && buf == ChunksBytes(cs) + t
  {
    if ReadChunks(buf, count).Ok? && count > 0 {
      var (c, b1) := ReadChunk(buf).value;
      ReadChunkInverse(buf);
      ReadChunksInverse(b1, count - 1);
      var (rest, t) := ReadChunks(b1, count - 1).value;
      var cs := [c] + rest;
      assert cs[1..] == rest;
      ChunksBytesFront(cs);
      Assoc(ChunkBytes(c), ChunksBytes(rest), t);
    }
  }

  lemma ReadChunkInverse(buf: seq<byte>)
    ensures ReadChunk(buf).Ok? ==>
              var (c, t) := ReadChunk(buf).value;
              ChunkInRange(c) && buf == ChunkBytes(c) + t
  {
    if ReadChunk(buf).Ok? {
      Pow256Values();
      ReadUintInverse(buf, 8);
      var (num, b1) := ReadUint(buf, 8).value;
      ReadUintInverse(b1, 2);
      var (frames, b2) := ReadUint(b1, 2).value;
      ReadI64Inverse(b2);
      var (begin, b3) := ReadI64(b2).value;
      ReadI64Inverse(b3);
      var (tempo, b4) := ReadI64(b3).value;
      Assoc4(U64(num), U16(frames), I64(begin), I64(tempo), b4);
    }
  }

  lemma AudioHeadOf(b: AudioBuffer, t: seq<byte>)
    requires BufferInRange(b) && b.chunks != []
    ensures ReadAudioHead(b.channel + (b.session + (U32(|b.chunks|) + (ChunksBytes(b.chunks) + t))))
         == Ok(((b.channel, b.session, b.chunks), t))
  {
    var b3 := ChunksBytes(b.chunks) + t;
    var b2 := U32(|b.chunks|) + b3;
    TakeOf(b.channel, b.session + b2);
    TakeOf(b.session, b2);
    ReadU32Of(|b.chunks|, b3);
    ReadChunksOf(b.chunks, t);
  }

  lemma AudioTailOf(b: AudioBuffer)
    requires BufferInRange(b)
    ensures ReadAudioTail(AudioTail(b)) == Ok((b.codec, b.sampleRate, b.numChannels, b.sampleData))
  {
    var b8 := b.sampleData;
    var b7 := U16(|b8|) + b8;
    var b6 := U8(b.numChannels) + b7;
    ReadU8Of(b.codec, U32(b.sampleRate) + b6);
    ReadU32Of(b.sampleRate, b6);
    ReadU8Of(b.numChannels, b7);
    ReadU16Of(|b8|, b8);
  }

  lemma NoChunksRejected(b: AudioBuffer)
    requires BufferInRange(b) && b.chunks == []
    ensures DecodeAudio(AudioPayload(b)).Err?
  {
    var b2 := U32(0) + (ChunksBytes(b.chunks) + AudioTail(b));
    TakeOf(b.channel, b.session + b2);
    TakeOf(b.session, b2);
    ReadU32Of(0, ChunksBytes(b.chunks) + AudioTail(b));
  }

  /** An audio buffer survives the wire exactly when the decoder's own checks
      hold of it: at least one chunk, the PCM codec, and sample bytes that match
      the frame count. */
  lemma AudioRoundTrip(b: AudioBuffer)
    requires BufferInRange(b)
    ensures DecodeAudio(AudioPayload(b)) == Ok(b)
       <==> b.chunks != [] && b.codec == CODEC_PCM_I16
            && TotalFrames(b.chunks) * b.numChannels * 2 == |b.sampleData|
  {
    if b.chunks == [] {
      NoChunksRejected(b);
    } else {
      AudioHeadOf(b, AudioTail(b));
      AudioTailOf(b);
    }
  }

  lemma AudioHeadInverse(payload: seq<byte>)
    ensures ReadAudioHead(payload).Ok? ==>
              var ((channel, session, chunks), t) := ReadAudioHead(payload).value;
              && IsU32(|chunks|) && ChunksInRange(chunks)
              && payload == channel + (session + (U32(|chunks|) + (ChunksBytes(chunks) + t)))
  {
    if ReadAudioHead(payload).Ok? {
      Pow256Values();
      var (channel, b1) := ReadId(payload).value;
      var (session, b2) := ReadId(b1).value;
      ReadUintInverse(b2, 4);
      var (count, b3) := ReadUint(b2, 4).value;
      ReadChunksInverse(b3, count);
      assert payload == channel + b1;
      assert b1 == session + b2;
    }
  }

  lemma AudioTailInverse(buf: seq<byte>, channel: Id, session: Id, chunks: seq<Chunk>)
    ensures ReadAudioTail(buf).Ok? ==>
              var (codec, rate, channels, data) := ReadAudioTail(buf).value;
              && IsU8(codec) && IsU32(rate) && IsU8(channels) && IsU16(|data|)
              && buf == AudioTail(AudioBuffer(channel, session, chunks, codec, rate, channels, data))
  {
    if ReadAudioTail(buf).Ok? {
      Pow256Values();
      ReadUintInverse(buf, 1);
      var (codec, b5) := ReadUint(buf, 1).value;
      ReadUintInverse(b5, 4);
      var (rate, b6) := ReadUint(b5, 4).value;
      ReadUintInverse(b6, 1);
      var (channels, b7) := ReadUint(b6, 1).value;
      ReadUintInverse(b7, 2);
    }
  }

  /** Every payload accepted as an audio buffer is that buffer's encoding, byte
      for byte. */
  lemma AudioBijection(payload: seq<byte>)
    requires DecodeAudio(payload).Ok?
    ensures BufferInRange(DecodeAudio(payload).value)
    ensures AudioPayload(DecodeAudio(payload).value) == payload
  {
    AudioHeadInverse(payload);
    var ((channel, session, chunks), t) := ReadAudioHead(payload).value;
    AudioTailInverse(t, channel, session, chunks);
  }

  lemma HeaderInverse(d: seq<byte>)
    requires |d| >= 20 && d[..8] == MAGIC
    ensures IsU8(FromBE(d[8..9])) && IsU8(FromBE(d[9..10])) && IsU16(FromBE(d[10..12]))
    ensures d == HeaderBytes(FromBE(d[8..9]), FromBE(d[9..10]), FromBE(d[10..12]), d[12..20]) + d[20..]
  {
    Pow256Values();
    BEOfFromBE(d[8..9]);
    BEOfFromBE(d[9..10]);
    BEOfFromBE(d[10..12]);
    assert d[..20] == d[..8] + (d[8..9] + (d[9..10] + (d[10..12] + d[12..20])));
    assert d == d[..20] + d[20..];
  }

  /** The whole datagram, header included. */
  lemma AudioDatagramBijection(d: seq<byte>)
    requires DecodeFrame(d).Ok? && DecodeFrame(d).value.message.Audio?
    ensures FrameInRange(DecodeFrame(d).value)
    ensures EncodeFrame(DecodeFrame(d).value) == d
  {
    HeaderInverse(d);
    DecodedType(d[20..], FromBE(d[8..9]));
    AudioBijection(d[20..]);
  }

  lemma DecodedType(payload: seq<byte>, t: nat)
    ensures DecodePayload(t, payload).Ok? ==> MessageType(DecodePayload(t, payload).value) == t
  {
  }

  lemma {:induction false} ListSizes(cs: seq<ChannelInfo>)
    requires forall c :: c in cs ==> |c.name| <= MAX_NAME
    ensures |ChannelsBytes(cs)| <= 268 * |cs|
  {
    if cs != [] {
      ListSizes(cs[..|cs| - 1]);
    }
  }

  lemma {:induction false} IdsSize(ids: seq<Id>)
    ensures |IdsBytes(ids)| == 8 * |ids|
  {
    if ids != [] {
      IdsSize(ids[..|ids| - 1]);
    }
  }

  lemma AnnouncementEntriesValid(session: Id, name: seq<byte>, cs: seq<ChannelInfo>, ping: Option<int>)
    requires MessageInRange(PeerAnnouncement(session, name, cs, ping))
    ensures forall e :: e in AnnouncementEntries(session, name, cs, ping) ==> ValidEntry(e)
  {
    ListSizes(cs);
    assert ValidEntry(Entry(KEY_SESS, session));
    assert ValidEntry(Entry(KEY_PI, Str(name)));
    assert ValidEntry(Entry(KEY_AUCA, U32(|cs|) + ChannelsBytes(cs)));
    if ping.Some? {
      assert ValidEntry(Entry(KEY_HT, I64(ping.value)));
    }
  }

  lemma ChannelListOf(cs: seq<ChannelInfo>)
    requires |cs| < 0x80_0000 && forall c :: c in cs ==> |c.name| <= MAX_NAME
    ensures Exactly(ReadChannelList(U32(|cs|) + ChannelsBytes(cs))) == Ok(cs)
  {
    ReadU32Of(|cs|, ChannelsBytes(cs));
    ReadChannelsOf(cs);
  }

  lemma IdListOf(ids: seq<Id>)
    requires |ids| < 0x80_0000
    ensures Exactly(ReadIdList(U32(|ids|) + IdsBytes(ids))) == Ok(ids)
  {
    ReadU32Of(|ids|, IdsBytes(ids));
    ReadIdsOf(ids);
  }

  lemma AnnouncementRoundTrip(session: Id, name: seq<byte>, cs: seq<ChannelInfo>, ping: Option<int>)
    requires MessageInRange(PeerAnnouncement(session, name, cs, ping))
    ensures DecodeAnnouncement(PayloadBytes(PeerAnnouncement(session, name, cs, ping)))
         == Ok(PeerAnnouncement(session, name, cs, ping))
  {
    var es := AnnouncementEntries(session, name, cs, ping);
    AnnouncementEntriesValid(session, name, cs, ping);
    ScanContainer(ApplyAnnouncement, NO_ANNOUNCEMENT, es);
    RunAnnouncement(session, name, cs, ping);
    assert PayloadBytes(PeerAnnouncement(session, name, cs, ping)) == ContainerBytes(es);
  }

  lemma ApplySession(a: Announcement, session: Id)
    ensures ApplyAnnouncement(a, Entry(KEY_SESS, session)) == Ok(a.(session := Some(session)))
  {
    IdValue(session);
  }

  lemma ApplyName(a: Announcement, name: seq<byte>)
    requires IsU32(|name|)
    ensures ApplyAnnouncement(a, Entry(KEY_PI, Str(name))) == Ok(a.(peerName := name))
  {
    StrValue(name);
  }

  lemma ApplyChannels(a: Announcement, cs: seq<ChannelInfo>)
    requires |cs| < 0x80_0000 && forall c :: c in cs ==> |c.name| <= MAX_NAME
    ensures ApplyAnnouncement(a, Entry(KEY_AUCA, U32(|cs|) + ChannelsBytes(cs))) == Ok(a.(channels := cs))
  {
    ChannelListOf(cs);
  }

  lemma ApplyPing(a: Announcement, ht: int)
    requires IsI64(ht)
    ensures ApplyAnnouncement(a, Entry(KEY_HT, I64(ht))) == Ok(a.(ping := Some(ht)))
  {
    I64Value(ht);
  }

  lemma RunThree<S>(apply: (S, Entry) -> Result<S>, es: seq<Entry>, s0: S, s1: S, s2: S, s3: S)
    requires |es| >= 3
    requires apply(s0, es[0]) == Ok(s1) && apply(s1, es[1]) == Ok(s2) && apply(s2, es[2]) == Ok(s3)
    ensures Run(apply, s0, es) == Run(apply, s3, es[3..])
  {
    RunStep(apply, s0, es, s1);
    RunStep(apply, s1, es[1..], s2);
    RunStep(apply, s2, es[1..][1..], s3);
    assert es[1..][1..][1..] == es[3..];
  }

  lemma RunAnnouncement(session: Id, name: seq<byte>, cs: seq<ChannelInfo>, ping: Option<int>)
    requires MessageInRange(PeerAnnouncement(session, name, cs, ping))
    ensures Run(ApplyAnnouncement, NO_ANNOUNCEMENT, AnnouncementEntries(session, name, cs, ping))
         == Ok(Announcement(Some(session), name, cs, ping))
  {
    var es := AnnouncementEntries(session, name, cs, ping);
    var a1 := Announcement(Some(session), [], [], None);
    var a2 := Announcement(Some(session), name, [], None);
    var a3 := Announcement(Some(session), name, cs, None);
    assert es[2] == Entry(KEY_AUCA, U32(|cs|) + ChannelsBytes(cs));
    ApplySession(NO_ANNOUNCEMENT, session);
    ApplyName(a1, name);
    ApplyChannels(a2, cs);
    RunThree(ApplyAnnouncement, es, NO_ANNOUNCEMENT, a1, a2, a3);
    RunTail(es[3..], a3, ping);
  }

  lemma RunTail(es: seq<Entry>, a: Announcement, ping: Option<int>)
    requires ping.Some? ==> IsI64(ping.value)
    requires es == if ping.Some? then [Entry(KEY_HT, I64(ping.value))] else []
    requires a.ping.None?
    ensures Run(ApplyAnnouncement, a, es) == Ok(a.(ping := ping))
  {
    if ping.Some? {
      ApplyPing(a, ping.value);
      RunOne(ApplyAnnouncement, a, Entry(KEY_HT, I64(ping.value)));
    }
  }

  lemma ByesRoundTrip(ids: seq<Id>)
    requires MessageInRange(ChannelByes(ids))
    ensures DecodeByes(PayloadBytes(ChannelByes(ids))) == Ok(ChannelByes(ids))
  {
    var value := U32(|ids|) + IdsBytes(ids);
    var e := Entry(KEY_AUCB, value);
    assert PayloadBytes(ChannelByes(ids)) == ContainerBytes([e]);
    assert ApplyByes([], e) == Ok(ids) by { IdListOf(ids); }
    assert ValidEntry(e) by { IdsSize(ids); }
    ScanOne(ApplyByes, [], e);
  }

  lemma PongRoundTrip(ht: int)
    requires IsI64(ht)
    ensures DecodePong(PayloadBytes(Pong(ht))) == Ok(Pong(ht))
  {
    I64Value(ht);
    ScanOne(ApplyPong, None, Entry(KEY_HT, I64(ht)));
  }

  lemma RequestRoundTrip(id: Id, stop: bool)
    ensures DecodeRequest(ContainerBytes([Entry(KEY_CHID, id)]), stop)
         == Ok(if stop then StopChannelRequest(id) else ChannelRequest(id))
  {
    IdValue(id);
    ScanOne(ApplyRequest, None, Entry(KEY_CHID, id));
  }

  /** A buffer the decoder's checks accept. */
  predicate Consistent(m: Message) {
    m.Audio? ==> m.buffer.chunks != [] && m.buffer.codec == CODEC_PCM_I16
                 && TotalFrames(m.buffer.chunks) * m.buffer.numChannels * 2 == |m.buffer.sampleData|
  }

  /** Decoding inverts encoding for every frame within the wire limits. */
  lemma FrameRoundTrip(f: Frame)
    requires FrameInRange(f) && Consistent(f.message)
    ensures DecodeFrame(EncodeFrame(f)) == Ok(f)
  {
    HeaderParts(MessageType(f.message), f.ttl, f.groupId, f.node, PayloadBytes(f.message));
    match f.message
    case PeerAnnouncement(session, name, cs, ping) => AnnouncementRoundTrip(session, name, cs, ping);
    case ChannelByes(ids) => ByesRoundTrip(ids);
    case Pong(ht) => PongRoundTrip(ht);
    case ChannelRequest(c) => RequestRoundTrip(c, false);
    case StopChannelRequest(c) => RequestRoundTrip(c, true);
    case Audio(b) => AudioRoundTrip(b);
  }

  /** Bytes of an encoded audio buffer. */
  lemma AudioSize(f: Frame)
    requires FrameInRange(f) && f.message.Audio?
    ensures |EncodeFrame(f)| == 20 + AUDIO_FIXED_OVERHEAD
                                + CHUNK_RECORD_SIZE * |f.message.buffer.chunks| + |f.message.buffer.sampleData|
  {
  }

  // ---------------------------------------------------- order independence

  function AnnouncementField(e: Entry): Option<nat> {
    if e.key == KEY_SESS then Some(0)
    else if e.key == KEY_PI then Some(1)
    else if e.key == KEY_AUCA then Some(2)
    else if e.key == KEY_HT then Some(3)
    else None
  }

  lemma AnnouncementFieldWise()
    ensures FieldWise(ApplyAnnouncement, AnnouncementField)
  {
    forall s, a, b | AnnouncementField(a) != AnnouncementField(b)
                     && ApplyAnnouncement(s, a).Ok? && ApplyAnnouncement(s, b).Ok?
      ensures ApplyAnnouncement(ApplyAnnouncement(s, a).value, b) == ApplyAnnouncement(ApplyAnnouncement(s, b).value, a)
    {
      AnnouncementCommutes(s, a, b);
    }
    forall s, s', e ensures ApplyAnnouncement(s, e).Ok? ==> ApplyAnnouncement(s', e).Ok? {
      AnnouncementUniform(s, s', e);
    }
  }

  lemma AnnouncementUniform(s: Announcement, s': Announcement, e: Entry)
    ensures ApplyAnnouncement(s, e).Ok? ==> ApplyAnnouncement(s', e).Ok?
  {
  }

  lemma AnnouncementCommutes(s: Announcement, a: Entry, b: Entry)
    requires AnnouncementField(a) != AnnouncementField(b)
    requires ApplyAnnouncement(s, a).Ok? && ApplyAnnouncement(s, b).Ok?
    ensures ApplyAnnouncement(ApplyAnnouncement(s, a).value, b) == ApplyAnnouncement(ApplyAnnouncement(s, b).value, a)
  {
  }

  /** Permuting announcement entries of different fields, or inserting unknown
      ones, does not change what is decoded. */
  lemma AnnouncementOrderIndependent(es1: seq<Entry>, es2: seq<Entry>)
    requires forall e :: e in es1 + es2 ==> ValidEntry(e)
    requires forall f :: Project(es1, AnnouncementField, f) == Project(es2, AnnouncementField, f)
    ensures SameOutcome(DecodeAnnouncement(ContainerBytes(es1)), DecodeAnnouncement(ContainerBytes(es2)))
  {
    AnnouncementFieldWise();
    ScanContainer(ApplyAnnouncement, NO_ANNOUNCEMENT, es1);
    ScanContainer(ApplyAnnouncement, NO_ANNOUNCEMENT, es2);
    OrderIndependent(ApplyAnnouncement, AnnouncementField, NO_ANNOUNCEMENT, es1, es2);
  }

  // ------------------------------------------------- step-by-step encoding

  method WriteChannelsEntry(w: Writer, cs: seq<ChannelInfo>, ghost start: seq<byte>, ghost es: seq<Entry>)
    requires IsU32(|cs|) && w.buf == start + ContainerBytes(es)
    modifies w
    ensures w.buf == start + ContainerBytes(es + [Entry(KEY_AUCA, U32(|cs|) + ChannelsBytes(cs))])
  {
    var at := w.OpenEntry(KEY_AUCA);
    WriteChannels(w, cs);
    w.CloseEntry(at);
    ghost var value := U32(|cs|) + ChannelsBytes(cs);
    EntryWritten(start, es, KEY_AUCA, value, at, start + ContainerBytes(es) + U32(KEY_AUCA) + U32(0) + value);
  }

  method WriteIdsEntry(w: Writer, ids: seq<Id>, ghost start: seq<byte>, ghost es: seq<Entry>)
    requires IsU32(|ids|) && w.buf == start + ContainerBytes(es)
    modifies w
    ensures w.buf == start + ContainerBytes(es + [Entry(KEY_AUCB, U32(|ids|) + IdsBytes(ids))])
  {
    var at := w.OpenEntry(KEY_AUCB);
    WriteIds(w, ids);
    w.CloseEntry(at);
    ghost var value := U32(|ids|) + IdsBytes(ids);
    EntryWritten(start, es, KEY_AUCB, value, at, start + ContainerBytes(es) + U32(KEY_AUCB) + U32(0) + value);
  }

  /** Entries in the order the reference emits; receivers must not rely on it. */
  method WriteAnnouncement(w: Writer, session: Id, name: seq<byte>, cs: seq<ChannelInfo>, ping: Option<int>)
    requires MessageInRange(PeerAnnouncement(session, name, cs, ping))
    modifies w
    ensures w.buf == old(w.buf) + ContainerBytes(AnnouncementEntries(session, name, cs, ping))
  {
    ghost var start := w.buf;
    WriteSessionAndName(w, session, name, start);
    ghost var es := [Entry(KEY_SESS, session), Entry(KEY_PI, Str(name))];
    WriteChannelsEntry(w, cs, start, es);
    es := es + [Entry(KEY_AUCA, U32(|cs|) + ChannelsBytes(cs))];
    if ping.Some? {
      WriteI64Entry(w, KEY_HT, ping.value, start, es);
      es := es + [Entry(KEY_HT, I64(ping.value))];
    }
    assert es == AnnouncementEntries(session, name, cs, ping);
  }

  method WriteSessionAndName(w: Writer, session: Id, name: seq<byte>, ghost start: seq<byte>)
    requires w.buf == start
    modifies w
    ensures w.buf == start + ContainerBytes([Entry(KEY_SESS, session), Entry(KEY_PI, Str(name))])
  {
    assert start == start + ContainerBytes([]);
    WriteBytesEntry(w, KEY_SESS, session, start, []);
    ghost var es := [] + [Entry(KEY_SESS, session)];
    WriteStrEntry(w, KEY_PI, name, start, es);
    assert es + [Entry(KEY_PI, Str(name))] == [Entry(KEY_SESS, session), Entry(KEY_PI, Str(name))];
  }

  method WriteChannels(w: Writer, cs: seq<ChannelInfo>)
    requires IsU32(|cs|)
    modifies w
    ensures w.buf == old(w.buf) + (U32(|cs|) + ChannelsBytes(cs))
  {
    Pow256Values();
    w.PutUint(|cs|, 4);
    ghost var start := w.buf;
    assert start == start + ChannelsBytes([]);
    for i := 0 to |cs|
      invariant w.buf == start + ChannelsBytes(cs[..i])
    {
      w.PutStr(cs[i].name);
      w.PutBytes(cs[i].id);
      assert cs[..i + 1][..i] == cs[..i];
      Appended(start, ChannelsBytes(cs[..i]), Str(cs[i].name), cs[i].id);
    }
    assert cs[..|cs|] == cs;
    Assoc(old(w.buf), U32(|cs|), ChannelsBytes(cs));
  }

  method WriteIds(w: Writer, ids: seq<Id>)
    requires IsU32(|ids|)
    modifies w
    ensures w.buf == old(w.buf) + (U32(|ids|) + IdsBytes(ids))
  {
    Pow256Values();
    w.PutUint(|ids|, 4);
    ghost var start := w.buf;
    assert start == start + IdsBytes([]);
    for i := 0 to |ids|
      invariant w.buf == start + IdsBytes(ids[..i])
    {
      w.PutBytes(ids[i]);
      assert ids[..i + 1][..i] == ids[..i];
    }
    assert ids[..|ids|] == ids;
  }

  method WriteChunks(w: Writer, cs: seq<Chunk>)
    requires ChunksInRange(cs) && IsU32(|cs|)
    modifies w
    ensures w.buf == old(w.buf) + (U32(|cs|) + ChunksBytes(cs))
  {
    Pow256Values();
    w.PutUint(|cs|, 4);
    ghost var start := w.buf;
    assert start == start + ChunksBytes([]);
    for i := 0 to |cs|
      invariant w.buf == start + ChunksBytes(cs[..i])
    {
      ghost var pre := w.buf;
      WriteChunk(w, cs[i]);
      assert cs[..i + 1][..i] == cs[..i];
      Assoc(start, ChunksBytes(cs[..i]), ChunkBytes(cs[i]));
    }
    assert cs[..|cs|] == cs;
  }

  method WriteChunk(w: Writer, c: Chunk)
    requires ChunkInRange(c)
    modifies w
    ensures w.buf == old(w.buf) + ChunkBytes(c)
  {
    Pow256Values();
    w.PutUint(c.num, 8);
    w.PutUint(c.numFrames, 2);
    w.PutI64(c.beginBeats);
    w.PutI64(c.tempo);
    AppendedFour(old(w.buf), U64(c.num), U16(c.numFrames), I64(c.beginBeats), I64(c.tempo));
  }

  method WriteAudioTail(w: Writer, b: AudioBuffer)
    requires BufferInRange(b)
    modifies w
    ensures w.buf == old(w.buf) + AudioTail(b)
  {
    Pow256Values();
    w.PutUint(b.codec, 1);
    w.PutUint(b.sampleRate, 4);
    w.PutUint(b.numChannels, 1);
    w.PutUint(|b.sampleData|, 2);
    w.PutBytes(b.sampleData);
    AppendedFive(old(w.buf), U8(b.codec), U32(b.sampleRate), U8(b.numChannels), U16(|b.sampleData|), b.sampleData);
  }

  method WriteAudio(w: Writer, b: AudioBuffer)
    requires BufferInRange(b)
    modifies w
    ensures w.buf == old(w.buf) + AudioPayload(b)
  {
    w.PutBytes(b.channel);
    w.PutBytes(b.session);
    WriteChunks(w, b.chunks);
    WriteAudioTail(w, b);
    Assoc(U32(|b.chunks|), ChunksBytes(b.chunks), AudioTail(b));
    AppendedFour(old(w.buf), b.channel, b.session, U32(|b.chunks|) + ChunksBytes(b.chunks), AudioTail(b));
  }

  method WriteHeader(w: Writer, t: nat, ttl: nat, groupId: nat, node: Id)
    requires IsU8(t) && IsU8(ttl) && IsU16(groupId)
    modifies w
    ensures w.buf == old(w.buf) + HeaderBytes(t, ttl, groupId, node)
  {
    Pow256Values();
    w.PutBytes(MAGIC);
    w.PutUint(t, 1);
    w.PutUint(ttl, 1);
    w.PutUint(groupId, 2);
    w.PutBytes(node);
    AppendedFive(old(w.buf), MAGIC, U8(t), U8(ttl), U16(groupId), node);
  }

  method WritePayload(w: Writer, m: Message)
    requires MessageInRange(m)
    modifies w
    ensures w.buf == old(w.buf) + PayloadBytes(m)
  {
    hide AudioPayload, AnnouncementEntries;
    match m {
    case PeerAnnouncement(session, name, cs, ping) => WriteAnnouncement(w, session, name, cs, ping);
    case ChannelByes(ids) => WriteIdList(w, ids);
    case Pong(ht) => WriteHostTime(w, ht);
    case ChannelRequest(c) => WriteOneEntry(w, KEY_CHID, c);
    case StopChannelRequest(c) => WriteOneEntry(w, KEY_CHID, c);
    case Audio(b) => WriteAudio(w, b);
    }
  }

  method WriteOneEntry(w: Writer, key: nat, value: seq<byte>)
    requires IsU32(key) && IsU32(|value|)
    modifies w
    ensures w.buf == old(w.buf) + ContainerBytes([Entry(key, value)])
  {
    assert w.buf == w.buf + ContainerBytes([]);
    WriteBytesEntry(w, key, value, w.buf, []);
    assert [] + [Entry(key, value)] == [Entry(key, value)];
  }

  method WriteHostTime(w: Writer, ht: int)
    requires IsI64(ht)
    modifies w
    ensures w.buf == old(w.buf) + ContainerBytes([Entry(KEY_HT, I64(ht))])
  {
    assert w.buf == w.buf + ContainerBytes([]);
    WriteI64Entry(w, KEY_HT, ht, w.buf, []);
    assert [] + [Entry(KEY_HT, I64(ht))] == [Entry(KEY_HT, I64(ht))];
  }

  method WriteIdList(w: Writer, ids: seq<Id>)
    requires MessageInRange(ChannelByes(ids))
    modifies w
    ensures w.buf == old(w.buf) + PayloadBytes(ChannelByes(ids))
  {
    assert w.buf == w.buf + ContainerBytes([]);
    WriteIdsEntry(w, ids, w.buf, []);
    assert [] + [Entry(KEY_AUCB, U32(|ids|) + IdsBytes(ids))] == [Entry(KEY_AUCB, U32(|ids|) + IdsBytes(ids))];
  }

  /** Encoding, field by field. */
  method Encode(f: Frame) returns (bytes: seq<byte>)
    requires FrameInRange(f)
    ensures bytes == EncodeFrame(f)
  {
    hide HeaderBytes, PayloadBytes;
    var w := new Writer();
    WriteHeader(w, MessageType(f.message), f.ttl, f.groupId, f.node);
    WritePayload(w, f.message);
    bytes := w.buf;
    assert [] + HeaderBytes(MessageType(f.message), f.ttl, f.groupId, f.node)
        == HeaderBytes(MessageType(f.message), f.ttl, f.groupId, f.node);
  }

  // ------------------------------------------------- step-by-step decoding

  method ParseChannels(value: seq<byte>) returns (r: Result<seq<ChannelInfo>>)
    ensures r == Exactly(ReadChannelList(value))
  {
    var rd := new Reader(value);
    var count :- rd.GetUint(4);
    ghost var body := rd.buf;
    var out: seq<ChannelInfo> := [];
    var i := 0;
    PrefixedNone(ReadChannels(body, count));
    while i < count && rd.buf != []
      invariant 0 <= i <= count
      invariant ReadChannels(body, count) == Prefixed(out, ReadChannels(rd.buf, count - i))
    {
      ghost var before := rd.buf;
      var name :- rd.GetStr();
      var id :- rd.GetId();
      assert ReadChannels(before, count - i) == Prefixed([ChannelInfo(name, id)], ReadChannels(rd.buf, count - i - 1));
      PrefixedMore(out, ChannelInfo(name, id), ReadChannels(rd.buf, count - i - 1));
      out := out + [ChannelInfo(name, id)];
      i := i + 1;
    }
    assert out + [] == out;
    if rd.buf != [] {
      return Err(Malformed);
    }
    return Ok(out);
  }

  /** What was read so far, then the rest of the read. */
  function Prefixed<T>(out: seq<T>, r: Read<seq<T>>): Read<seq<T>> {
    var (rest, t) :- r;
    Ok((out + rest, t))
  }

  lemma PrefixedNone<T>(r: Read<seq<T>>)
    ensures Prefixed([], r) == r
  {
    if r.Ok? {
      assert [] + r.value.0 == r.value.0;
    }
  }

  lemma PrefixedMore<T>(out: seq<T>, x: T, r: Read<seq<T>>)
    ensures Prefixed(out, Prefixed([x], r)) == Prefixed(out + [x], r)
  {
    if r.Ok? {
      assert out + ([x] + r.value.0) == out + [x] + r.value.0;
    }
  }

  method ParseIds(value: seq<byte>) returns (r: Result<seq<Id>>)
    ensures r == Exactly(ReadIdList(value))
  {
    var rd := new Reader(value);
    var count :- rd.GetUint(4);
    ghost var body := rd.buf;
    var out: seq<Id> := [];
    var i := 0;
    PrefixedNone(ReadIds(body, count));
    while i < count && rd.buf != []
      invariant 0 <= i <= count
      invariant ReadIds(body, count) == Prefixed(out, ReadIds(rd.buf, count - i))
    {
      ghost var before := rd.buf;
      var id :- rd.GetId();
      assert ReadIds(before, count - i) == Prefixed([id], ReadIds(rd.buf, count - i - 1));
      PrefixedMore(out, id, ReadIds(rd.buf, count - i - 1));
      out := out + [id];
      i := i + 1;
    }
    assert out + [] == out;
    if rd.buf != [] {
      return Err(Malformed);
    }
    return Ok(out);
  }

  method ParseAnnouncement(payload: seq<byte>) returns (r: Result<Message>)
    ensures r == DecodeAnnouncement(payload)
  {
    var session, peerName, channels, ping := None, [], [], None;
    var it := new Entries(payload);
    while true
      invariant fresh(it) && fresh(it.r)
      invariant Scan(ApplyAnnouncement, Announcement(session, peerName, channels, ping), it.r.buf)
             == Scan(ApplyAnnouncement, NO_ANNOUNCEMENT, payload)
      decreases |it.r.buf|
    {
      var next := it.Next();
      if next.None? {
        break;
      }
      var e :- next.value;
      if e.key == KEY_SESS {
        var v :- ParseId(e.value);
        session := Some(v);
      } else if e.key == KEY_PI {
        peerName :- ParseStr(e.value);
      } else if e.key == KEY_AUCA {
        channels :- ParseChannels(e.value);
      } else if e.key == KEY_HT {
        var v :- ParseI64(e.value);
        ping := Some(v);
      }
    }
    if session.None? {
      return Err(Malformed);
    }
    return Ok(PeerAnnouncement(session.value, peerName, channels, ping));
  }

  method ParseByes(payload: seq<byte>) returns (r: Result<Message>)
    ensures r == DecodeByes(payload)
  {
    var ids: seq<Id> := [];
    var it := new Entries(payload);
    while true
      invariant fresh(it) && fresh(it.r)
      invariant Scan(ApplyByes, ids, it.r.buf) == Scan(ApplyByes, [], payload)
      decreases |it.r.buf|
    {
      var next := it.Next();
      if next.None? {
        break;
      }
      var e :- next.value;
      if e.key == KEY_AUCB {
        ids :- ParseIds(e.value);
      }
    }
    return Ok(ChannelByes(ids));
  }

  method ParsePong(payload: seq<byte>) returns (r: Result<Message>)
    ensures r == DecodePong(payload)
  {
    var hostTime: Option<int> := None;
    var it := new Entries(payload);
    while true
      invariant fresh(it) && fresh(it.r)
      invariant Scan(ApplyPong, hostTime, it.r.buf) == Scan(ApplyPong, None, payload)
      decreases |it.r.buf|
    {
      var next := it.Next();
      if next.None? {
        break;
      }
      var e :- next.value;
      if e.key == KEY_HT {
        var v :- ParseI64(e.value);
        hostTime := Some(v);
      }
    }
    if hostTime.None? {
      return Err(Malformed);
    }
    return Ok(Pong(hostTime.value));
  }

  method ParseRequest(payload: seq<byte>, stop: bool) returns (r: Result<Message>)
    ensures r == DecodeRequest(payload, stop)
  {
    var channel: Option<Id> := None;
    var it := new Entries(payload);
    while true
      invariant fresh(it) && fresh(it.r)
      invariant Scan(ApplyRequest, channel, it.r.buf) == Scan(ApplyRequest, None, payload)
      decreases |it.r.buf|
    {
      var next := it.Next();
      if next.None? {
        break;
      }
      var e :- next.value;
      if e.key == KEY_CHID {
        var v :- ParseId(e.value);
        channel := Some(v);
      }
    }
    if channel.None? {
      return Err(Malformed);
    }
    return Ok(if stop then StopChannelRequest(channel.value) else ChannelRequest(channel.value));
  }

  method ParseChunks(rd: Reader, count: nat) returns (r: Result<seq<Chunk>>)
    modifies rd
    ensures Reads(ReadChunks(old(rd.buf), count), r, rd.buf)
  {
    ghost var body := rd.buf;
    var chunks: seq<Chunk> := [];
    PrefixedNone(ReadChunks(body, count));
    for i := 0 to count
      invariant ReadChunks(body, count) == Prefixed(chunks, ReadChunks(rd.buf, count - i))
    {
      ghost var before := rd.buf;
      var num :- rd.GetUint(8);
      var frames :- rd.GetUint(2);
      var begin :- rd.GetI64();
      var tempo :- rd.GetI64();
      var c := Chunk(num, frames, begin, tempo);
      assert ReadChunk(before) == Ok((c, rd.buf));
      assert ReadChunks(before, count - i) == Prefixed([c], ReadChunks(rd.buf, count - i - 1));
      PrefixedMore(chunks, c, ReadChunks(rd.buf, count - i - 1));
      chunks := chunks + [c];
    }
    assert chunks + [] == chunks;
    return Ok(chunks);
  }

  method ParseAudioHead(rd: Reader) returns (r: Result<(Id, Id, seq<Chunk>)>)
    modifies rd
    ensures Reads(ReadAudioHead(old(rd.buf)), r, rd.buf)
  {
    var channel :- rd.GetId();
    var session :- rd.GetId();
    var count :- rd.GetUint(4);
    if count == 0 {
      return Err(Malformed);
    }
    var chunks :- ParseChunks(rd, count);
    return Ok((channel, session, chunks));
  }

  method ParseAudioTail(rd: Reader) returns (r: Result<(nat, nat, nat, seq<byte>)>)
    modifies rd
    ensures r == ReadAudioTail(old(rd.buf))
  {
    var codec :- rd.GetUint(1);
    var rate :- rd.GetUint(4);
    var channels :- rd.GetUint(1);
    var numBytes :- rd.GetUint(2);
    if |rd.buf| != numBytes {
      return Err(Malformed);
    }
    assert rd.buf[..numBytes] == rd.buf;
    var data := rd.GetBytes(numBytes);
    return Ok((codec, rate, channels, data.value));
  }

  method ParseAudio(payload: seq<byte>) returns (r: Result<AudioBuffer>)
    ensures r == DecodeAudio(payload)
  {
    var rd := new Reader(payload);
    var head :- ParseAudioHead(rd);
    var tail :- ParseAudioTail(rd);
    var (channel, session, chunks) := head;
    var (codec, rate, channels, data) := tail;
    if codec != CODEC_PCM_I16 {
      return Err(Malformed);
    }
    if TotalFrames(chunks) * channels * 2 != |data| {
      return Err(Malformed);
    }
    return Ok(AudioBuffer(channel, session, chunks, codec, rate, channels, data));
  }

  /** Decoding, read by read. */
  method Decode(datagram: seq<byte>) returns (r: Result<Frame>)
    ensures r == DecodeFrame(datagram)
  {
    var rd := new Reader(datagram);
    if |rd.buf| < 20 {
      return Err(Truncated);
    }
    // The length check covers every read of the prefix.
    var magic := rd.GetBytes(8);
    if magic.value != MAGIC {
      return Err(BadMagic);
    }
    assert rd.buf == datagram[8..];
    var t := rd.GetUint(1);
    assert rd.buf == datagram[9..] && datagram[8..][..1] == datagram[8..9];
    var ttl := rd.GetUint(1);
    assert rd.buf == datagram[10..] && datagram[9..][..1] == datagram[9..10];
    var groupId := rd.GetUint(2);
    assert rd.buf == datagram[12..] && datagram[10..][..2] == datagram[10..12];
    var node := rd.GetId();
    assert rd.buf == datagram[20..] && datagram[12..][..8] == datagram[12..20];
    var payload := rd.buf;
    var m: Message;
    if t.value == 1 {
      m :- ParseAnnouncement(payload);
    } else if t.value == 2 {
      m :- ParseByes(payload);
    } else if t.value == 3 {
      m :- ParsePong(payload);
    } else if t.value == 4 {
      m :- ParseRequest(payload, false);
    } else if t.value == 5 {
      m :- ParseRequest(payload, true);
    } else if t.value == 6 {
      var b :- ParseAudio(payload);
      m := Audio(b);
    } else {
      return Err(UnknownMessageType(t.value));
    }
    return Ok(Frame(ttl.value, groupId.value, node.value, m));
  }
}
