/**
 Peer discovery messages: a fixed header and, in Alive and Response, a container
 of optional peer-state entries.
 */
module Discovery {
  import opened Types
  import opened Wrappers
  import opened Codec

  /** ASCII `_asdp_v`, then the version. */
  const MAGIC: seq<byte> := [0x5f, 0x61, 0x73, 0x64, 0x70, 0x5f, 0x76, 0x01]
  const TTL_SECONDS := 5
  const MAX_MESSAGE_SIZE := 512

  const KEY_TMLN := 0x746d6c6e
  const KEY_SESS := 0x73657373
  const KEY_STST := 0x73747374
  const KEY_MEP4 := 0x6d657034
  const KEY_MEP6 := 0x6d657036
  const KEY_AEP4 := 0x61657034
  const KEY_AEP6 := 0x61657036

  datatype PeerState = PeerState(timeline: Option<Timeline>, session: Option<Id>, startStop: Option<StartStopState>,
                                 measurementEndpoint: Option<Endpoint>, audioEndpoint: Option<Endpoint>)

  const NOTHING := PeerState(None, None, None, None, None)

  datatype Message = Alive(state: PeerState) | Response(state: PeerState) | ByeBye

  datatype Frame = Frame(ttl: nat, groupId: nat, node: Id, message: Message)

  datatype Header = Header(msgType: nat, ttl: nat, groupId: nat, node: Id)

  // ------------------------------------------------------------- encoding

  predicate TimelineInRange(t: Timeline) {
    IsI64(t.tempo) && IsI64(t.beatOrigin) && IsI64(t.timeOrigin)
  }

  predicate StartStopInRange(s: StartStopState) {
    IsI64(s.beats) && IsI64(s.timestamp)
  }

  predicate EndpointInRange(e: Endpoint) {
    IsU16(e.port) && match e { case V4(a, _) => IsU32(a) case V6(o, _) => |o| == 16 }
  }

  predicate StateInRange(p: PeerState) {
    && (p.timeline.Some? ==> TimelineInRange(p.timeline.value))
    && (p.startStop.Some? ==> StartStopInRange(p.startStop.value))
    && (p.measurementEndpoint.Some? ==> EndpointInRange(p.measurementEndpoint.value))
    && (p.audioEndpoint.Some? ==> EndpointInRange(p.audioEndpoint.value))
  }

  predicate FrameInRange(f: Frame) {
    IsU8(f.ttl) && IsU16(f.groupId) && (!f.message.ByeBye? ==> StateInRange(f.message.state))
  }

  function TimelineBytes(t: Timeline): seq<byte>
    requires TimelineInRange(t)
  {
    I64(t.tempo) + (I64(t.beatOrigin) + I64(t.timeOrigin))
  }

  function StartStopBytes(s: StartStopState): seq<byte>
    requires StartStopInRange(s)
  {
    Bool(s.isPlaying) + (I64(s.beats) + I64(s.timestamp))
  }

  function EndpointBytes(e: Endpoint): seq<byte>
    requires EndpointInRange(e)
  {
    match e
    case V4(addr, port) => U32(addr) + U16(port)
    case V6(octets, port) => octets + U16(port)
  }

  /** One entry for a present endpoint, under the key of its family. */
  function EndpointEntries(e: Option<Endpoint>, key4: nat, key6: nat): seq<Entry>
    requires e.Some? ==> EndpointInRange(e.value)
  {
    if e.None? then [] else [Entry(if e.value.V4? then key4 else key6, EndpointBytes(e.value))]
  }

  function TimelineEntries(p: PeerState): seq<Entry>
    requires StateInRange(p)
  {
    if p.timeline.None? then [] else [Entry(KEY_TMLN, TimelineBytes(p.timeline.value))]
  }

  function SessionEntries(p: PeerState): seq<Entry> {
    if p.session.None? then [] else [Entry(KEY_SESS, p.session.value)]
  }

  function StartStopEntries(p: PeerState): seq<Entry>
    requires StateInRange(p)
  {
    if p.startStop.None? then [] else [Entry(KEY_STST, StartStopBytes(p.startStop.value))]
  }

  /** Entries in the order the reference emits. */
  function StateEntries(p: PeerState): seq<Entry>
    requires StateInRange(p)
  {
    TimelineEntries(p) + SessionEntries(p) + StartStopEntries(p)
    + EndpointEntries(p.measurementEndpoint, KEY_MEP4, KEY_MEP6)
    + EndpointEntries(p.audioEndpoint, KEY_AEP4, KEY_AEP6)
  }

  function MessageType(m: Message): nat {
    match m
    case Alive(_) => 1
    case Response(_) => 2
    case ByeBye => 3
  }

  function HeaderBytes(h: Header): (b: seq<byte>)
    ensures |b| == 20
  {
    MAGIC + (U8(h.msgType) + (U8(h.ttl) + (U16(h.groupId) + h.node)))
  }

  function EncodeFrame(f: Frame): seq<byte>
    requires FrameInRange(f)
  {
    HeaderBytes(Header(MessageType(f.message), f.ttl, f.groupId, f.node))
    + (if f.message.ByeBye? then [] else ContainerBytes(StateEntries(f.message.state)))
  }

  // ------------------------------------------------------------- decoding

  function ReadTimeline(buf: seq<byte>): Read<Timeline> {
    var (tempo, b1) :- ReadI64(buf);
    var (beat, b2) :- ReadI64(b1);
    var (time, b3) :- ReadI64(b2);
    Ok((Timeline(tempo, beat, time), b3))
  }

  function ReadStartStop(buf: seq<byte>): Read<StartStopState> {
    var (playing, b1) :- ReadBool(buf);
    var (beats, b2) :- ReadI64(b1);
    var (timestamp, b3) :- ReadI64(b2);
    Ok((StartStopState(playing, beats, timestamp), b3))
  }

  /** By size alone, whatever the key: six bytes are IPv4, eighteen IPv6. */
  function ReadEndpoint(value: seq<byte>): Result<Endpoint> {
    if |value| == 6 then Ok(V4(FromBE(value[..4]), FromBE(value[4..])))
    else if |value| == 18 then Ok(V6(value[..16], FromBE(value[16..])))
    else Err(Malformed)
  }

  /** Each known entry sets its field, the last one winning; unknown ones are
      skipped. */
  function Apply(p: PeerState, e: Entry): Result<PeerState> {
    if e.key == KEY_TMLN then
      var v :- Exactly(ReadTimeline(e.value));
      Ok(p.(timeline := Some(v)))
    else if e.key == KEY_SESS then
      var v :- Exactly(ReadId(e.value));
      Ok(p.(session := Some(v)))
    else if e.key == KEY_STST then
      var v :- Exactly(ReadStartStop(e.value));
      Ok(p.(startStop := Some(v)))
    else if e.key == KEY_MEP4 || e.key == KEY_MEP6 then
      var v :- ReadEndpoint(e.value);
      Ok(p.(measurementEndpoint := Some(v)))
    else if e.key == KEY_AEP4 || e.key == KEY_AEP6 then
      var v :- ReadEndpoint(e.value);
      Ok(p.(audioEndpoint := Some(v)))
    else Ok(p)
  }

  function DecodeState(payload: seq<byte>): Result<PeerState> {
    Scan(Apply, NOTHING, payload)
  }

  /** The prefix decodes independently of the payload. */
  function DecodeHeader(d: seq<byte>): Result<Header> {
    if |d| < 20 then Err(Truncated)
    else if d[..8] != MAGIC then Err(BadMagic)
    else Ok(Header(FromBE(d[8..9]), FromBE(d[9..10]), FromBE(d[10..12]), d[12..20]))
  }

  function DecodeFrame(d: seq<byte>): Result<Frame> {
    var h :- DecodeHeader(d);
    if h.msgType == 1 then
      var p :- DecodeState(d[20..]);
      Ok(Frame(h.ttl, h.groupId, h.node, Alive(p)))
    else if h.msgType == 2 then
      var p :- DecodeState(d[20..]);
      Ok(Frame(h.ttl, h.groupId, h.node, Response(p)))
    else if h.msgType == 3 then Ok(Frame(h.ttl, h.groupId, h.node, ByeBye))
    else Err(UnknownMessageType(h.msgType))
  }

  // ----------------------------------------------------------- round trips

  lemma TimelineValue(t: Timeline)
    requires TimelineInRange(t)
    ensures Exactly(ReadTimeline(TimelineBytes(t))) == Ok(t)
  {
    var b2 := I64(t.timeOrigin) + [];
    ReadI64Of(t.tempo, I64(t.beatOrigin) + b2);
    ReadI64Of(t.beatOrigin, b2);
    ReadI64Of(t.timeOrigin, []);
    assert b2 == I64(t.timeOrigin);
  }

  lemma StartStopValue(s: StartStopState)
    requires StartStopInRange(s)
    ensures Exactly(ReadStartStop(StartStopBytes(s))) == Ok(s)
  {
    var b2 := I64(s.timestamp) + [];
    ReadU8Of(if s.isPlaying then 1 else 0, I64(s.beats) + b2);
    ReadI64Of(s.beats, b2);
    ReadI64Of(s.timestamp, []);
    assert b2 == I64(s.timestamp);
  }

  lemma EndpointValue(e: Endpoint)
    requires EndpointInRange(e)
    ensures ReadEndpoint(EndpointBytes(e)) == Ok(e)
  {
    Pow256Values();
    var v := EndpointBytes(e);
    FromBEOfBE(e.port, 2);
    match e
    case V4(addr, port) =>
      FromBEOfBE(addr, 4);
      assert v[..4] == U32(addr) && v[4..] == U16(port);
    case V6(octets, port) =>
      assert v[..16] == octets && v[16..] == U16(port);
  }

  lemma RunOptional(p: PeerState, es: seq<Entry>, p': PeerState)
    requires (es == [] && p' == p) || (|es| == 1 && Apply(p, es[0]) == Ok(p'))
    ensures Run(Apply, p, es) == Ok(p')
  {
    if es != [] {
      assert es == [es[0]];
      RunOne(Apply, p, es[0]);
    }
  }

  lemma ApplyTimeline(p: PeerState, t: Timeline)
    requires TimelineInRange(t)
    ensures Apply(p, Entry(KEY_TMLN, TimelineBytes(t))) == Ok(p.(timeline := Some(t)))
  {
    TimelineValue(t);
  }

  lemma ApplySession(p: PeerState, s: Id)
    ensures Apply(p, Entry(KEY_SESS, s)) == Ok(p.(session := Some(s)))
  {
    IdValue(s);
  }

  lemma ApplyStartStop(p: PeerState, s: StartStopState)
    requires StartStopInRange(s)
    ensures Apply(p, Entry(KEY_STST, StartStopBytes(s))) == Ok(p.(startStop := Some(s)))
  {
    StartStopValue(s);
  }

  lemma ApplyMeasurement(p: PeerState, e: Endpoint)
    requires EndpointInRange(e)
    ensures Apply(p, Entry(if e.V4? then KEY_MEP4 else KEY_MEP6, EndpointBytes(e)))
            == Ok(p.(measurementEndpoint := Some(e)))
  {
    EndpointValue(e);
  }

  lemma ApplyAudio(p: PeerState, e: Endpoint)
    requires EndpointInRange(e)
    ensures Apply(p, Entry(if e.V4? then KEY_AEP4 else KEY_AEP6, EndpointBytes(e))) == Ok(p.(audioEndpoint := Some(e)))
  {
    EndpointValue(e);
  }

  /** The entries of the three session fields restore them. */
  lemma RunSessionFields(p: PeerState)
    requires StateInRange(p)
    ensures Run(Apply, NOTHING, TimelineEntries(p) + SessionEntries(p) + StartStopEntries(p))
         == Ok(PeerState(p.timeline, p.session, p.startStop, None, None))
  {
    var p1 := NOTHING.(timeline := p.timeline);
    var p2 := p1.(session := p.session);
    if p.timeline.Some? { ApplyTimeline(NOTHING, p.timeline.value); }
    if p.session.Some? { ApplySession(p1, p.session.value); }
    if p.startStop.Some? { ApplyStartStop(p2, p.startStop.value); }
    RunOptional(NOTHING, TimelineEntries(p), p1);
    RunOptional(p1, SessionEntries(p), p2);
    RunOptional(p2, StartStopEntries(p), p2.(startStop := p.startStop));
    RunAppend(Apply, NOTHING, TimelineEntries(p), SessionEntries(p));
    RunAppend(Apply, NOTHING, TimelineEntries(p) + SessionEntries(p), StartStopEntries(p));
  }

  lemma RunState(p: PeerState)
    requires StateInRange(p)
    ensures Run(Apply, NOTHING, StateEntries(p)) == Ok(p)
  {
    var p3 := PeerState(p.timeline, p.session, p.startStop, None, None);
    var p4 := p3.(measurementEndpoint := p.measurementEndpoint);
    RunSessionFields(p);
    if p.measurementEndpoint.Some? { ApplyMeasurement(p3, p.measurementEndpoint.value); }
    if p.audioEndpoint.Some? { ApplyAudio(p4, p.audioEndpoint.value); }
    var first := TimelineEntries(p) + SessionEntries(p) + StartStopEntries(p);
    var mep := EndpointEntries(p.measurementEndpoint, KEY_MEP4, KEY_MEP6);
    var aep := EndpointEntries(p.audioEndpoint, KEY_AEP4, KEY_AEP6);
    RunOptional(p3, mep, p4);
    RunOptional(p4, aep, p);
    RunAppend(Apply, NOTHING, first, mep);
    RunAppend(Apply, NOTHING, first + mep, aep);
  }

  lemma StateEntriesValid(p: PeerState)
    requires StateInRange(p)
    ensures forall e :: e in StateEntries(p) ==> ValidEntry(e)
  {
    forall e | e in TimelineEntries(p) ensures ValidEntry(e) { }
    forall e | e in StartStopEntries(p) ensures ValidEntry(e) { }
    forall e | e in EndpointEntries(p.measurementEndpoint, KEY_MEP4, KEY_MEP6) ensures ValidEntry(e) { }
    forall e | e in EndpointEntries(p.audioEndpoint, KEY_AEP4, KEY_AEP6) ensures ValidEntry(e) { }
  }

  lemma StateRoundTrip(p: PeerState)
    requires StateInRange(p)
    ensures DecodeState(ContainerBytes(StateEntries(p))) == Ok(p)
  {
    StateEntriesValid(p);
    ScanContainer(Apply, NOTHING, StateEntries(p));
    RunState(p);
  }

  /** The header comes back whatever payload follows it. */
  lemma HeaderRoundTrip(h: Header, payload: seq<byte>)
    requires IsU8(h.msgType) && IsU8(h.ttl) && IsU16(h.groupId)
    ensures DecodeHeader(HeaderBytes(h) + payload) == Ok(h) && (HeaderBytes(h) + payload)[20..] == payload
  {
    var d := HeaderBytes(h) + payload;
    Pow256Values();
    FromBEOfBE(h.msgType, 1);
    FromBEOfBE(h.ttl, 1);
    FromBEOfBE(h.groupId, 2);
    assert d[..8] == MAGIC && d[12..20] == h.node;
    assert d[8..9] == U8(h.msgType) && d[9..10] == U8(h.ttl) && d[10..12] == U16(h.groupId);
  }

  /** Decoding inverts encoding for every frame within the wire widths. */
  lemma FrameRoundTrip(f: Frame)
    requires FrameInRange(f)
    ensures DecodeFrame(EncodeFrame(f)) == Ok(f)
  {
    var h := Header(MessageType(f.message), f.ttl, f.groupId, f.node);
    if f.message.ByeBye? {
      HeaderRoundTrip(h, []);
    } else {
      HeaderRoundTrip(h, ContainerBytes(StateEntries(f.message.state)));
      StateRoundTrip(f.message.state);
    }
  }

  // ---------------------------------------------------- order independence

  function Field(e: Entry): Option<nat> {
    if e.key == KEY_TMLN then Some(0)
    else if e.key == KEY_SESS then Some(1)
    else if e.key == KEY_STST then Some(2)
    else if e.key == KEY_MEP4 || e.key == KEY_MEP6 then Some(3)
    else if e.key == KEY_AEP4 || e.key == KEY_AEP6 then Some(4)
    else None
  }

  lemma ApplyUniform(p: PeerState, p': PeerState, e: Entry)
    ensures Apply(p, e).Ok? ==> Apply(p', e).Ok?
  {
  }

  lemma ApplyCommutes(p: PeerState, a: Entry, b: Entry)
    requires Field(a) != Field(b) && Apply(p, a).Ok? && Apply(p, b).Ok?
    ensures Apply(Apply(p, a).value, b) == Apply(Apply(p, b).value, a)
  {
  }

  lemma ApplyFieldWise()
    ensures FieldWise(Apply, Field)
  {
    forall p, a, b | Field(a) != Field(b) && Apply(p, a).Ok? && Apply(p, b).Ok?
      ensures Apply(Apply(p, a).value, b) == Apply(Apply(p, b).value, a)
    {
      ApplyCommutes(p, a, b);
    }
    forall p, p', e ensures Apply(p, e).Ok? ==> Apply(p', e).Ok? {
      ApplyUniform(p, p', e);
    }
  }

  /** Permuting peer-state entries of different fields, or inserting unknown ones
      anywhere, does not change what is decoded. */
  lemma StateOrderIndependent(es1: seq<Entry>, es2: seq<Entry>)
    requires forall e :: e in es1 + es2 ==> ValidEntry(e)
    requires forall f :: Project(es1, Field, f) == Project(es2, Field, f)
    ensures SameOutcome(DecodeState(ContainerBytes(es1)), DecodeState(ContainerBytes(es2)))
  {
    ApplyFieldWise();
    ScanContainer(Apply, NOTHING, es1);
    ScanContainer(Apply, NOTHING, es2);
    OrderIndependent(Apply, Field, NOTHING, es1, es2);
  }

  /** A later entry of a field replaces an earlier one: leaving the earlier one out decodes
      alike. */
  lemma LaterEntryWins(es: seq<Entry>, d: Entry, e: Entry)
    requires (forall x :: x in es ==> ValidEntry(x)) && ValidEntry(d) && ValidEntry(e)
    requires Field(d) == Field(e) != None && Apply(NOTHING, d).Ok?
    ensures DecodeState(ContainerBytes(es + [d, e])) == DecodeState(ContainerBytes(es + [e]))
  {
    ScanContainer(Apply, NOTHING, es + [d, e]);
    ScanContainer(Apply, NOTHING, es + [e]);
    RunAppend(Apply, NOTHING, es, [d, e]);
    RunAppend(Apply, NOTHING, es, [e]);
    if Run(Apply, NOTHING, es).Ok? {
      var p := Run(Apply, NOTHING, es).value;
      ApplyUniform(NOTHING, p, d);
      assert [d, e][1..] == [e];
      RunOne(Apply, Apply(p, d).value, e);
      RunOne(Apply, p, e);
      Overridden(p, d, e);
    }
  }

  lemma Overridden(p: PeerState, d: Entry, e: Entry)
    requires Field(d) == Field(e) != None && Apply(p, d).Ok?
    ensures Apply(Apply(p, d).value, e) == Apply(p, e)
  {
  }

  /** The entries of each field in their order, unknown ones anywhere. */
  ghost predicate Rearranged(es: seq<Entry>, es2: seq<Entry>) {
    (forall e :: e in es2 ==> ValidEntry(e)) && forall f :: Project(es, Field, f) == Project(es2, Field, f)
  }

  /** So of any payload that decodes: whatever rearranges its entries that way decodes to
      the same state. */
  lemma PayloadOrderIndependent(payload: seq<byte>) returns (es: seq<Entry>)
    requires DecodeState(payload).Ok?
    ensures (forall e :: e in es ==> ValidEntry(e)) && payload == ContainerBytes(es)
    ensures forall es2 :: Rearranged(es, es2) ==> DecodeState(ContainerBytes(es2)) == DecodeState(payload)
  {
    es := ScannedIsContainer(Apply, NOTHING, payload);
    forall es2 | Rearranged(es, es2) ensures DecodeState(ContainerBytes(es2)) == DecodeState(payload) {
      StateOrderIndependent(es, es2);
    }
  }

  // ------------------------------------------------- step-by-step encoding

  method WriteTimeline(w: Writer, t: Timeline, ghost start: seq<byte>, ghost es: seq<Entry>)
    requires TimelineInRange(t) && w.buf == start + ContainerBytes(es)
    modifies w
    ensures w.buf == start + ContainerBytes(es + [Entry(KEY_TMLN, TimelineBytes(t))])
  {
    var at := w.OpenEntry(KEY_TMLN);
    ghost var begun := w.buf;
    w.PutI64(t.tempo);
    w.PutI64(t.beatOrigin);
    w.PutI64(t.timeOrigin);
    AppendedThree(begun, I64(t.tempo), I64(t.beatOrigin), I64(t.timeOrigin));
    w.CloseEntry(at);
    EntryWritten(start, es, KEY_TMLN, TimelineBytes(t), at, begun + TimelineBytes(t));
  }

  method WriteStartStop(w: Writer, s: StartStopState, ghost start: seq<byte>, ghost es: seq<Entry>)
    requires StartStopInRange(s) && w.buf == start + ContainerBytes(es)
    modifies w
    ensures w.buf == start + ContainerBytes(es + [Entry(KEY_STST, StartStopBytes(s))])
  {
    var at := w.OpenEntry(KEY_STST);
    ghost var begun := w.buf;
    w.PutUint(if s.isPlaying then 1 else 0, 1);
    w.PutI64(s.beats);
    w.PutI64(s.timestamp);
    AppendedThree(begun, Bool(s.isPlaying), I64(s.beats), I64(s.timestamp));
    w.CloseEntry(at);
    EntryWritten(start, es, KEY_STST, StartStopBytes(s), at, begun + StartStopBytes(s));
  }

  method PutEndpoint(w: Writer, e: Endpoint)
    requires EndpointInRange(e)
    modifies w
    ensures w.buf == old(w.buf) + EndpointBytes(e)
  {
    if e.V4? {
      w.PutUint(e.addr, 4);
    } else {
      w.PutBytes(e.octets);
    }
    w.PutUint(e.port, 2);
  }

  method WriteEndpoint(w: Writer, e: Option<Endpoint>, key4: nat, key6: nat, ghost start: seq<byte>,
                       ghost es: seq<Entry>)
    requires (e.Some? ==> EndpointInRange(e.value)) && IsU32(key4) && IsU32(key6) && w.buf == start + ContainerBytes(es)
    modifies w
    ensures w.buf == start + ContainerBytes(es + EndpointEntries(e, key4, key6))
  {
    if e.None? {
      assert es + [] == es;
      return;
    }
    var key := if e.value.V4? then key4 else key6;
    var at := w.OpenEntry(key);
    ghost var begun := w.buf;
    PutEndpoint(w, e.value);
    w.CloseEntry(at);
    EntryWritten(start, es, key, EndpointBytes(e.value), at, begun + EndpointBytes(e.value));
  }

  method WriteState(w: Writer, p: PeerState)
    requires StateInRange(p)
    modifies w
    ensures w.buf == old(w.buf) + ContainerBytes(StateEntries(p))
  {
    ghost var start := w.buf;
    ghost var es := WriteSessionFields(w, p);
    WriteEndpoint(w, p.measurementEndpoint, KEY_MEP4, KEY_MEP6, start, es);
    es := es + EndpointEntries(p.measurementEndpoint, KEY_MEP4, KEY_MEP6);
    WriteEndpoint(w, p.audioEndpoint, KEY_AEP4, KEY_AEP6, start, es);
  }

  method WriteSessionFields(w: Writer, p: PeerState) returns (ghost es: seq<Entry>)
    requires StateInRange(p)
    modifies w
    ensures es == TimelineEntries(p) + SessionEntries(p) + StartStopEntries(p)
    ensures w.buf == old(w.buf) + ContainerBytes(es)
  {
    ghost var start := w.buf;
    es := [];
    assert start == start + ContainerBytes(es);
    if p.timeline.Some? {
      WriteTimeline(w, p.timeline.value, start, es);
    }
    assert es + [] == es;
    es := es + TimelineEntries(p);
    if p.session.Some? {
      WriteBytesEntry(w, KEY_SESS, p.session.value, start, es);
    }
    assert es + [] == es;
    es := es + SessionEntries(p);
    if p.startStop.Some? {
      WriteStartStop(w, p.startStop.value, start, es);
    }
    assert es + [] == es;
    es := es + StartStopEntries(p);
    assert es == TimelineEntries(p) + SessionEntries(p) + StartStopEntries(p);
  }

  /** Encoding, field by field. */
  method Encode(f: Frame) returns (bytes: seq<byte>)
    requires FrameInRange(f)
    ensures bytes == EncodeFrame(f)
  {
    var w := new Writer();
    w.PutBytes(MAGIC);
    w.PutUint(MessageType(f.message), 1);
    w.PutUint(f.ttl, 1);
    w.PutUint(f.groupId, 2);
    w.PutBytes(f.node);
    AppendedFour([] + MAGIC, U8(MessageType(f.message)), U8(f.ttl), U16(f.groupId), f.node);
    ghost var h := Header(MessageType(f.message), f.ttl, f.groupId, f.node);
    assert w.buf == HeaderBytes(h);
    if !f.message.ByeBye? {
      WriteState(w, f.message.state);
    } else {
      assert w.buf == HeaderBytes(h) + [];
    }
    bytes := w.buf;
  }

  // ------------------------------------------------- step-by-step decoding

  method ParseTimeline(value: seq<byte>) returns (r: Result<Timeline>)
    ensures r == Exactly(ReadTimeline(value))
  {
    var rd := new Reader(value);
    var tempo :- rd.GetI64();
    var beat :- rd.GetI64();
    var time :- rd.GetI64();
    if rd.buf != [] {
      return Err(Malformed);
    }
    return Ok(Timeline(tempo, beat, time));
  }

  method ParseStartStop(value: seq<byte>) returns (r: Result<StartStopState>)
    ensures r == Exactly(ReadStartStop(value))
  {
    var rd := new Reader(value);
    var playing :- rd.GetUint(1);
    var beats :- rd.GetI64();
    var timestamp :- rd.GetI64();
    if rd.buf != [] {
      return Err(Malformed);
    }
    return Ok(StartStopState(playing != 0, beats, timestamp));
  }

  method ParseState(payload: seq<byte>) returns (r: Result<PeerState>)
    ensures r == DecodeState(payload)
  {
    var p := NOTHING;
    var it := new Entries(payload);
    while true
      invariant fresh(it) && fresh(it.r)
      invariant Scan(Apply, p, it.r.buf) == DecodeState(payload)
      decreases |it.r.buf|
    {
      var next := it.Next();
      if next.None? {
        break;
      }
      var e :- next.value;
      p :- ApplyEntry(p, e);
    }
    return Ok(p);
  }

  method ApplyEntry(p: PeerState, e: Entry) returns (r: Result<PeerState>)
    ensures r == Apply(p, e)
  {
    if e.key == KEY_TMLN {
      var v :- ParseTimeline(e.value);
      return Ok(p.(timeline := Some(v)));
    } else if e.key == KEY_SESS {
      var v :- ParseId(e.value);
      return Ok(p.(session := Some(v)));
    } else if e.key == KEY_STST {
      var v :- ParseStartStop(e.value);
      return Ok(p.(startStop := Some(v)));
    } else if e.key == KEY_MEP4 || e.key == KEY_MEP6 {
      var v :- ReadEndpoint(e.value);
      return Ok(p.(measurementEndpoint := Some(v)));
    } else if e.key == KEY_AEP4 || e.key == KEY_AEP6 {
      var v :- ReadEndpoint(e.value);
      return Ok(p.(audioEndpoint := Some(v)));
    }
    return Ok(p);
  }

  /** Decoding, read by read. */
  method Decode(datagram: seq<byte>) returns (r: Result<Frame>)
    ensures r == DecodeFrame(datagram)
  {
    var h :- ParseHeader(datagram);
    if h.msgType == 1 {
      var p :- ParseState(datagram[20..]);
      return Ok(Frame(h.ttl, h.groupId, h.node, Alive(p)));
    } else if h.msgType == 2 {
      var p :- ParseState(datagram[20..]);
      return Ok(Frame(h.ttl, h.groupId, h.node, Response(p)));
    } else if h.msgType == 3 {
      return Ok(Frame(h.ttl, h.groupId, h.node, ByeBye));
    }
    return Err(UnknownMessageType(h.msgType));
  }

  method ParseHeader(datagram: seq<byte>) returns (r: Result<Header>)
    ensures r == DecodeHeader(datagram)
  {
    var rd := new Reader(datagram);
    if |rd.buf| < 20 {
      return Err(Truncated);
    }
    // The length check covers every read of the prefix.
    var magic := rd.GetBytes(8);
    if magic.value != MAGIC {
      return Err(BadMagic);
    }
    assert rd.buf == datagram[8..];
    var t := rd.GetUint(1);
    assert rd.buf == datagram[9..] && datagram[8..][..1] == datagram[8..9];
    var ttl := rd.GetUint(1);
    assert rd.buf == datagram[10..] && datagram[9..][..1] == datagram[9..10];
    var groupId := rd.GetUint(2);
    assert rd.buf == datagram[12..] && datagram[10..][..2] == datagram[10..12];
    var node := rd.GetId();
    assert datagram[12..][..8] == datagram[12..20];
    return Ok(Header(t.value, ttl.value, groupId.value, node.value));
  }
}
