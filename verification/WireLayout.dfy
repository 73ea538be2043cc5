/**
 Where each field is on the wire, so that other implementations read what these frames
 say: big-endian digits, offsets of the fixed parts, and the keys spelled out.
 */
module WireLayout {
  import opened Types
  import opened Wrappers
  import opened Codec
  import BeatGrid
  import D = Discovery
  import S = Sync
  import W = AudioWire

  /** The field stands at this offset. */
  predicate At(b: seq<byte>, offset: nat, field: seq<byte>) {
    offset + |field| <= |b| && b[offset..offset + |field|] == field
  }

  lemma AtLater(front: seq<byte>, rest: seq<byte>, offset: nat, field: seq<byte>)
    requires At(rest, offset, field)
    ensures At(front + rest, |front| + offset, field)
  {
    assert (front + rest)[|front| + offset..|front| + offset + |field|] == rest[offset..offset + |field|];
  }

  lemma AtFront(front: seq<byte>, rest: seq<byte>, offset: nat, field: seq<byte>)
    requires At(front, offset, field)
    ensures At(front + rest, offset, field)
  {
    assert (front + rest)[offset..offset + |field|] == front[offset..offset + |field|];
  }

  // -------------------------------------------------------------------- numbers

  /** Byte `i` of a number is its digit to base 256, the most significant first. */
  lemma {:induction false} BigEndian(v: nat, n: nat, i: nat)
    requires i < n
    ensures BE(v, n)[i] == (v / Pow256(n - 1 - i)) % 256
    decreases n
  {
    if i < n - 1 {
      BigEndian(v / 256, n - 1, i);
      Digits(v, Pow256(n - 2 - i));
    }
  }

  lemma Digits(v: nat, p: nat)
    requires p > 0
    ensures (v / 256) / p == v / (256 * p)
  {
    var q, r := (v / 256) / p, (v / 256) % p;
    assert v == 256 * (v / 256) + v % 256;
    assert v / 256 == q * p + r;
    Quotient(v, q, r, v % 256, p);
  }

  lemma Quotient(v: nat, q: nat, r: nat, s: nat, p: nat)
    requires p > 0 && r < p && s < 256 && v == 256 * (q * p + r) + s
    ensures v / (256 * p) == q
  {
    var rest := 256 * r + s;
    assert v == q * (256 * p) + rest;
    assert 0 <= rest < 256 * p;
    BeatGrid.ModUnique(v, 256 * p, q, rest);
  }

  /** Negative numbers are in two's complement. */
  lemma TwosComplement(v: int, s: int)
    requires IsI64(v) && -0x8000 <= s < 0x8000
    ensures 0 <= ToU64(v) < 0x1_0000_0000_0000_0000 && (ToU64(v) - v) % 0x1_0000_0000_0000_0000 == 0
    ensures 0 <= W.SampleWord(s) < 0x1_0000 && (W.SampleWord(s) - s) % 0x1_0000 == 0
  {
  }

  // --------------------------------------------------------------------- frames

  /** A discovery frame: magic, type (1 Alive, 2 Response, 3 ByeBye), ttl, group, node; then
      the entries of the state, if it has one. */
  lemma DiscoveryFrame(f: D.Frame)
    requires D.FrameInRange(f)
    ensures var b := D.EncodeFrame(f);
            && At(b, 0, [0x5f, 0x61, 0x73, 0x64, 0x70, 0x5f, 0x76, 0x01])
            && At(b, 8, U8(match f.message case Alive(_) => 1 case Response(_) => 2 case ByeBye => 3))
            && At(b, 9, U8(f.ttl)) && At(b, 10, U16(f.groupId)) && At(b, 12, f.node)
            && (if f.message.ByeBye? then |b| == 20 else b[20..] == ContainerBytes(D.StateEntries(f.message.state)))
  {
    hide ContainerBytes, D.StateEntries, BE;
    var h := D.Header(D.MessageType(f.message), f.ttl, f.groupId, f.node);
    Header(D.MAGIC, U8(h.msgType), U8(h.ttl), U16(h.groupId), h.node,
           if f.message.ByeBye? then [] else ContainerBytes(D.StateEntries(f.message.state)));
  }

  /** Twenty bytes of header, then the rest. */
  lemma Header(magic: seq<byte>, t: seq<byte>, ttl: seq<byte>, group: seq<byte>, node: Id, rest: seq<byte>)
    requires |magic| == 8 && |t| == |ttl| == 1 && |group| == 2
    ensures var b := magic + (t + (ttl + (group + node))) + rest;
            At(b, 0, magic) && At(b, 8, t) && At(b, 9, ttl) && At(b, 10, group) && At(b, 12, node) && b[20..] == rest
  {
  }

  /** An audio frame has the same header under its own magic and types, then its payload. */
  lemma AudioFrame(f: W.Frame)
    requires W.FrameInRange(f)
    ensures var b := W.EncodeFrame(f);
            && At(b, 0, [0x63, 0x68, 0x6e, 0x6e, 0x6c, 0x73, 0x76, 0x01])
            && At(b, 8, U8(match f.message
                           case PeerAnnouncement(_, _, _, _) => 1 case ChannelByes(_) => 2 case Pong(_) => 3
                           case ChannelRequest(_) => 4 case StopChannelRequest(_) => 5 case Audio(_) => 6))
            && At(b, 9, U8(f.ttl)) && At(b, 10, U16(f.groupId)) && At(b, 12, f.node)
            && b[20..] == W.PayloadBytes(f.message)
  {
    hide W.PayloadBytes, BE;
    Header(W.MAGIC, U8(W.MessageType(f.message)), U8(f.ttl), U16(f.groupId), f.node, W.PayloadBytes(f.message));
  }

  /** A measurement frame: magic, type (1 ping, 2 pong), entries; a pong ends with the echo. */
  lemma MeasurementFrame(ht: int, session: Id, gt: int, echo: seq<byte>)
    requires IsI64(ht) && IsI64(gt)
    ensures var ping, pong := S.PingBytes(ht, Some(gt)), S.PongBytes(session, gt, echo);
            && At(ping, 0, [0x5f, 0x6c, 0x69, 0x6e, 0x6b, 0x5f, 0x76, 0x01]) && At(pong, 0, ping[..8])
            && At(ping, 8, U8(1)) && At(pong, 8, U8(2))
            && ping[9..] == ContainerBytes([Entry(S.KEY_HT, I64(ht)), Entry(S.KEY_PGT, I64(gt))])
            && pong[9..] == ContainerBytes([Entry(S.KEY_SESS, session), Entry(S.KEY_GT, I64(gt))]) + echo
  {
    hide ContainerBytes, BE;
    assert [Entry(S.KEY_HT, I64(ht))] + [Entry(S.KEY_PGT, I64(gt))]
        == [Entry(S.KEY_HT, I64(ht)), Entry(S.KEY_PGT, I64(gt))];
  }

  /** An entry: key, size, value. */
  lemma EntryFields(e: Entry)
    ensures var b := EntryBytes(e);
            At(b, 0, U32(e.key)) && At(b, 4, U32(|e.value|)) && At(b, 8, e.value) && |b| == 8 + |e.value|
  {
    hide BE;
  }

  // -------------------------------------------------------------------- payloads

  /** The values of a peer state. */
  lemma StateFields(t: Timeline, s: StartStopState, e: Endpoint)
    requires D.TimelineInRange(t) && D.StartStopInRange(s) && D.EndpointInRange(e)
    ensures var b := D.TimelineBytes(t);
            |b| == 24 && At(b, 0, I64(t.tempo)) && At(b, 8, I64(t.beatOrigin)) && At(b, 16, I64(t.timeOrigin))
    ensures var b := D.StartStopBytes(s);
            && |b| == 17 && At(b, 0, U8(if s.isPlaying then 1 else 0))
            && At(b, 1, I64(s.beats)) && At(b, 9, I64(s.timestamp))
    ensures var b := D.EndpointBytes(e);
            match e
            case V4(addr, port) => |b| == 6 && At(b, 0, U32(addr)) && At(b, 4, U16(port))
            case V6(octets, port) => |b| == 18 && At(b, 0, octets) && At(b, 16, U16(port))
  {
    hide BE, ToU64;
  }

  /** A chunk record: number, frames, begin, tempo. */
  lemma ChunkRecord(c: W.Chunk)
    requires IsI64(c.beginBeats) && IsI64(c.tempo)
    ensures var b := W.ChunkBytes(c);
            && |b| == 26 && At(b, 0, U64(c.num)) && At(b, 8, U16(c.numFrames))
            && At(b, 10, I64(c.beginBeats)) && At(b, 18, I64(c.tempo))
  {
    hide BE, ToU64;
  }

  /** An audio buffer: channel, session, chunk count and records, codec, rate, channels, size
      and samples. */
  lemma BufferFields(a: W.AudioBuffer, k: nat)
    requires W.BufferInRange(a) && k < |a.chunks|
    ensures var b, tail := W.AudioPayload(a), 20 + 26 * |a.chunks|;
            && At(b, 0, a.channel) && At(b, 8, a.session) && At(b, 16, U32(|a.chunks|))
            && At(b, 20 + 26 * k, W.ChunkBytes(a.chunks[k]))
            && At(b, tail, U8(a.codec)) && At(b, tail + 1, U32(a.sampleRate)) && At(b, tail + 5, U8(a.numChannels))
            && At(b, tail + 6, U16(|a.sampleData|)) && At(b, tail + 8, a.sampleData) && |b| == tail + 8 + |a.sampleData|
  {
    hide BE, W.ChunksBytes, W.ChunkBytes, W.AudioPayload, W.AudioTail, At;
    var chunks, tail := W.ChunksBytes(a.chunks), W.AudioTail(a);
    var front, record := a.channel + a.session + U32(|a.chunks|), W.ChunkBytes(a.chunks[k]);
    var head, at: nat := front + chunks, 26 * k;
    PayloadParts(a);
    RecordAt(a.chunks, k);
    TailFields(a);
    AtLater(front, chunks, at, record);
    AtFront(head, tail, 20 + at, record);
    AtLater(head, tail, 0, U8(a.codec));
    AtLater(head, tail, 1, U32(a.sampleRate));
    AtLater(head, tail, 5, U8(a.numChannels));
    AtLater(head, tail, 6, U16(|a.sampleData|));
    AtLater(head, tail, 8, a.sampleData);
    FrontFields(a.channel, a.session, U32(|a.chunks|), chunks, tail);
  }

  lemma PayloadParts(a: W.AudioBuffer)
    requires W.BufferInRange(a)
    ensures W.AudioPayload(a)
         == a.channel + a.session + U32(|a.chunks|) + W.ChunksBytes(a.chunks) + W.AudioTail(a)
  {
    hide BE, W.ChunksBytes, W.AudioTail;
    AppendedThree(a.channel + a.session, U32(|a.chunks|), W.ChunksBytes(a.chunks), W.AudioTail(a));
    Assoc(a.channel, a.session, U32(|a.chunks|) + (W.ChunksBytes(a.chunks) + W.AudioTail(a)));
  }

  lemma FrontFields(channel: Id, session: Id, count: seq<byte>, chunks: seq<byte>, tail: seq<byte>)
    requires |count| == 4
    ensures var b := channel + session + count + chunks + tail;
            At(b, 0, channel) && At(b, 8, session) && At(b, 16, count)
  {
  }

  lemma TailFields(a: W.AudioBuffer)
    ensures var b := W.AudioTail(a);
            && |b| == 8 + |a.sampleData| && At(b, 0, U8(a.codec)) && At(b, 1, U32(a.sampleRate))
            && At(b, 5, U8(a.numChannels)) && At(b, 6, U16(|a.sampleData|)) && At(b, 8, a.sampleData)
  {
    hide BE;
  }

  lemma {:induction false} RecordAt(cs: seq<W.Chunk>, k: nat)
    requires W.ChunksInRange(cs) && k < |cs|
    ensures At(W.ChunksBytes(cs), 26 * k, W.ChunkBytes(cs[k])) && |W.ChunkBytes(cs[k])| == 26
    decreases |cs|
  {
    hide W.ChunkBytes;
    var n := |cs| - 1;
    var init, last := cs[..n], cs[n];
    ChunkRecord(last);
    assert W.ChunksBytes(cs) == W.ChunksBytes(init) + W.ChunkBytes(last);
    if k < n {
      RecordAt(init, k);
      AtFront(W.ChunksBytes(init), W.ChunkBytes(last), 26 * k, W.ChunkBytes(cs[k]));
    }
  }

  /** Four ASCII characters as a key. */
  function Fourcc(a: char, b: char, c: char, d: char): int {
    0x100_0000 * (a as int) + 0x1_0000 * (b as int) + 0x100 * (c as int) + d as int
  }

  /** The keys, spelled out. */
  lemma KeysSpelled()
    ensures D.KEY_TMLN == Fourcc('t', 'm', 'l', 'n') && D.KEY_SESS == Fourcc('s', 'e', 's', 's')
    ensures D.KEY_STST == Fourcc('s', 't', 's', 't')
    ensures D.KEY_MEP4 == Fourcc('m', 'e', 'p', '4') && D.KEY_MEP6 == Fourcc('m', 'e', 'p', '6')
    ensures D.KEY_AEP4 == Fourcc('a', 'e', 'p', '4') && D.KEY_AEP6 == Fourcc('a', 'e', 'p', '6')
    ensures S.KEY_HT == W.KEY_HT == Fourcc('_', '_', 'h', 't') && S.KEY_GT == Fourcc('_', '_', 'g', 't')
    ensures S.KEY_PGT == Fourcc('_', 'p', 'g', 't') && S.KEY_SESS == W.KEY_SESS == D.KEY_SESS
    ensures W.KEY_PI == Fourcc('_', '_', 'p', 'i') && W.KEY_AUCA == Fourcc('a', 'u', 'c', 'a')
    ensures W.KEY_AUCB == Fourcc('a', 'u', 'c', 'b') && W.KEY_CHID == Fourcc('c', 'h', 'i', 'd')
  {
  }

  // ----------------------------------------------------------------------- sizes

  lemma {:induction false} ContainerSum(a: seq<Entry>, b: seq<Entry>)
    ensures |ContainerBytes(a + b)| == |ContainerBytes(a)| + |ContainerBytes(b)|
  {
    if a == [] {
      assert a + b == b;
    } else {
      assert (a + b)[1..] == a[1..] + b;
      ContainerSum(a[1..], b);
    }
  }

  lemma OneEntry(e: Entry)
    ensures |ContainerBytes([e])| == 8 + |e.value|
  {
    assert [e][1..] == [];
    EntryFields(e);
  }

  /** Bytes an endpoint entry takes: none, 14 over IPv4 and 26 over IPv6. */
  function EndpointSize(e: Option<Endpoint>): nat {
    if e.None? then 0 else if e.value.V4? then 14 else 26
  }

  lemma EndpointEntrySize(e: Option<Endpoint>, key4: nat, key6: nat)
    requires e.Some? ==> D.EndpointInRange(e.value)
    ensures |ContainerBytes(D.EndpointEntries(e, key4, key6))| == EndpointSize(e)
  {
    hide ContainerBytes, BE;
    if e.Some? {
      StateFields(Timeline(0, 0, 0), DEFAULT_START_STOP, e.value);
      OneEntry(D.EndpointEntries(e, key4, key6)[0]);
    } else {
      EmptyContainer();
    }
  }

  lemma EmptyContainer()
    ensures ContainerBytes([]) == []
  {
  }

  lemma FixedEntrySizes(p: D.PeerState)
    requires D.StateInRange(p)
    ensures |ContainerBytes(D.TimelineEntries(p))| == if p.timeline.Some? then 32 else 0
    ensures |ContainerBytes(D.SessionEntries(p))| == if p.session.Some? then 16 else 0
    ensures |ContainerBytes(D.StartStopEntries(p))| == if p.startStop.Some? then 25 else 0
  {
    hide ContainerBytes, BE, ToU64;
    EmptyContainer();
    if p.timeline.Some? {
      OneEntry(D.TimelineEntries(p)[0]);
    }
    if p.session.Some? {
      OneEntry(D.SessionEntries(p)[0]);
    }
    if p.startStop.Some? {
      OneEntry(D.StartStopEntries(p)[0]);
    }
  }

  /** The size of a discovery frame: 107 bytes for the full state of a plain peer over IPv4,
      121 with LinkAudio, 20 for a ByeBye. */
  lemma DiscoverySize(f: D.Frame)
    requires D.FrameInRange(f)
    ensures f.message.ByeBye? ==> |D.EncodeFrame(f)| == 20
    ensures !f.message.ByeBye? ==>
              var p := f.message.state;
              |D.EncodeFrame(f)| == 20 + (if p.timeline.Some? then 32 else 0) + (if p.session.Some? then 16 else 0)
                + (if p.startStop.Some? then 25 else 0) + EndpointSize(p.measurementEndpoint)
                + EndpointSize(p.audioEndpoint)
  {
    hide ContainerBytes, D.TimelineEntries, D.SessionEntries, D.StartStopEntries, D.EndpointEntries, EndpointSize, BE;
    if !f.message.ByeBye? {
      var p := f.message.state;
      var m, a := D.EndpointEntries(p.measurementEndpoint, D.KEY_MEP4, D.KEY_MEP6),
                  D.EndpointEntries(p.audioEndpoint, D.KEY_AEP4, D.KEY_AEP6);
      var t, s, ss := D.TimelineEntries(p), D.SessionEntries(p), D.StartStopEntries(p);
      FixedEntrySizes(p);
      EndpointEntrySize(p.measurementEndpoint, D.KEY_MEP4, D.KEY_MEP6);
      EndpointEntrySize(p.audioEndpoint, D.KEY_AEP4, D.KEY_AEP6);
      ContainerSum(t, s);
      ContainerSum(t + s, ss);
      ContainerSum(t + s + ss, m);
      ContainerSum(t + s + ss + m, a);
    }
  }

  /** The size of a measurement frame: 25 bytes for a first ping, 41 for a chained one, and
      32 more than the ping for the pong that echoes it. */
  lemma MeasurementSize(ht: int, pgt: Option<int>, session: Id, gt: int, echo: seq<byte>)
    requires IsI64(ht) && (pgt.Some? ==> IsI64(pgt.value)) && IsI64(gt)
    ensures |S.PingBytes(ht, pgt)| == if pgt.Some? then 41 else 25
    ensures |S.PongBytes(session, gt, echo)| == 41 + |echo|
  {
    hide ContainerBytes, BE, ToU64;
    var h, g := Entry(S.KEY_HT, I64(ht)), Entry(S.KEY_GT, I64(gt));
    OneEntry(h);
    EmptyContainer();
    if pgt.Some? {
      OneEntry(Entry(S.KEY_PGT, I64(pgt.value)));
      ContainerSum([h], [Entry(S.KEY_PGT, I64(pgt.value))]);
    } else {
      assert [h] + [] == [h];
    }
    OneEntry(Entry(S.KEY_SESS, session));
    OneEntry(g);
    ContainerSum([Entry(S.KEY_SESS, session)], [g]);
    assert [Entry(S.KEY_SESS, session)] + [g] == [Entry(S.KEY_SESS, session), g];
  }

  /** Requests and announcements stand for five seconds; a stop request and audio carry no
      ttl. */
  lemma FrameTtl(node: Id, m: W.Message)
    ensures var f := W.NewFrame(node, m);
            f.groupId == 0 && f.node == node && f.message == m
            && f.ttl == (match m case StopChannelRequest(_) => 0 case Audio(_) => 0 case _ => 5)
  {
  }

  /** In an announcement a later entry of a field replaces an earlier one. */
  lemma LaterEntryWins(a: W.Announcement, d: Entry, e: Entry)
    requires W.AnnouncementField(d) == W.AnnouncementField(e) != None && W.ApplyAnnouncement(a, d).Ok?
    ensures W.ApplyAnnouncement(W.ApplyAnnouncement(a, d).value, e) == W.ApplyAnnouncement(a, e)
  {
  }
}
