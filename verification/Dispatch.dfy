/**
 Datagrams to handlers: what a receiver does with the bytes of one datagram - the
 liveness gate, decoding, the admission rules, answers, and the handler. Answers are
 returned as the frames to send.
 */
module Dispatch {
  import opened Types
  import opened Wrappers
  import opened EngineState
  import E = Engine
  import D = Discovery
  import S = Sync
  import W = AudioWire
  import Gossip
  import BeatGrid
  import AudioSender
  import AudioSource

  /** A gateway's own endpoints. */
  datatype Endpoints = Endpoints(measurement: Endpoint, audio: Endpoint)

  /** A receiver serves its gateway while its epoch is current and the gateway open. */
  predicate Live(e: E.Engine, gw: nat, epoch: nat)
    reads e
  {
    e.enabled && e.epoch == epoch && gw in e.gateways
  }

  /** Our peer state as one gateway advertises it. */
  function Snapshot(e: E.Engine, here: Endpoints): D.PeerState
    reads e
  {
    D.PeerState(Some(e.timeline), Some(e.session), Some(e.heldStst), Some(here.measurement),
                if e.audio then Some(here.audio) else None)
  }

  /** A discovery datagram counts if its header parses and names another peer of our
      group. */
  predicate Admitted(node: Id, buf: seq<byte>) {
    var h := D.DecodeHeader(buf);
    h.Ok? && h.value.node != node && h.value.groupId == 0
  }

  /** A frame that decodes carries the header that was admitted. */
  lemma FrameHasHeader(buf: seq<byte>)
    requires D.DecodeFrame(buf).Ok?
    ensures D.DecodeHeader(buf).Ok? && D.DecodeFrame(buf).value.node == D.DecodeHeader(buf).value.node
  {
  }

  /** What discovery can change. */
  datatype Look = Look(core: Core, net: Net, foreign: map<Id, Timeline>, inFlight: Option<Measurement>,
                       pending: seq<Task>, playing: bool, sync: bool, remeasureAt: Option<int>)

  ghost function LookAt(e: E.Engine): Look
    reads e
  {
    Look(e.CoreView(), e.NetView(), e.foreignTimelines, e.measurement, e.pending, e.appPlaying, e.sstSync,
         e.nextRemeasureAt)
  }

  /** What an admitted frame does: a ByeBye removes the peer; anything else refreshes
      it, and its session entry decides the rest. */
  ghost predicate Processed(f: D.Frame, gw: nat, freshId: Id, at: int, task: Option<Task>, lo: int, hi: int,
                            b: Look, a: Look) {
    if f.message.ByeBye? then PeerRemoved(f.node, gw, freshId, lo, hi, b, a)
    else Refreshed(f.node, f.ttl, f.message.state, gw, at, task, lo, hi, b, a)
  }

  ghost predicate PeerRemoved(node: Id, gw: nat, freshId: Id, lo: int, hi: int, b: Look, a: Look) {
    && a.net == Departed(b.net, node, gw)
    && E.LossHandled(b.core, a.net.peers, freshId, lo, hi, a.core)
    && a == b.(core := a.core, net := a.net,
               remeasureAt := if a.core.session == b.core.session then b.remeasureAt else None)
  }

  ghost predicate Refreshed(node: Id, ttl: nat, ps: D.PeerState, gw: nat, at: int, task: Option<Task>, lo: int, hi: int,
                            b: Look, a: Look) {
    && lo <= at <= hi && a.sync == b.sync
    && a.net == b.net.(peers := b.net.peers[(node, gw) := PeerEntry(ps, at + ttl * 1_000_000)])
    && E.JoinTimer(b.core.session, a.core.session, b.remeasureAt, a.remeasureAt, lo, hi)
    && if ps.session.Some? && ps.session.value != b.core.session
       then a.playing == b.playing
            && E.ForeignHandled(task, gw, ps.session.value, ps, a.net.peers, a.net.gateways, hi,
                                b.core, b.foreign, b.inFlight, b.pending, a.core, a.foreign, a.inFlight, a.pending)
       else a.core == (if ps.session.Some? then Gossiped(b.core, ps) else b.core)
            && a.foreign == b.foreign && a.inFlight == b.inFlight && a.pending == b.pending
               && a.playing == Playing(b, a)
  }

  /** An adopted transport state is followed when synchronising. */
  function Playing(b: Look, a: Look): bool {
    if a.core.held != b.core.held && b.sync && a.core.held != DEFAULT_START_STOP
    then a.core.held.isPlaying
    else b.playing
  }

  /** A discovery datagram. Nothing that is not admitted or does not parse changes
      anything; an Alive is answered even if its payload does not parse. */
  method HandleDiscovery(e: E.Engine, gw: nat, epoch: nat, here: Endpoints, buf: seq<byte>, freshId: Id)
    returns (reply: Option<D.Frame>, ghost at: int, ghost task: Option<Task>)
    requires e.Valid() && e.Fresh(freshId)
    modifies e
    ensures e.Valid()
    ensures reply == if old(Live(e, gw, epoch) && Admitted(e.node, buf)) && D.DecodeHeader(buf).value.msgType == 1
                     then Some(D.Frame(D.TTL_SECONDS, 0, old(e.node), D.Response(old(Snapshot(e, here))))) else None
    ensures if old(Live(e, gw, epoch) && Admitted(e.node, buf)) && D.DecodeFrame(buf).Ok?
            then Processed(D.DecodeFrame(buf).value, gw, freshId, at, task, old(e.clock), e.clock,
                           old(LookAt(e)), LookAt(e))
            else unchanged(e)
  {
    hide D.DecodeHeader, D.DecodeFrame, Processed;
    reply, at, task := None, e.clock, None;
    if !Live(e, gw, epoch) {
      return;
    }
    var header := D.ParseHeader(buf);
    if header.Err? || header.value.node == e.node || header.value.groupId != 0 {
      return;
    }
    if header.value.msgType == 1 {
      reply := Some(D.Frame(D.TTL_SECONDS, 0, e.node, D.Response(Snapshot(e, here))));
    }
    var frame := D.Decode(buf);
    if frame.Ok? {
      FrameHasHeader(buf);
      at, task := Process(e, gw, frame.value, freshId);
    }
  }

  method Process(e: E.Engine, gw: nat, f: D.Frame, freshId: Id) returns (ghost at: int, ghost task: Option<Task>)
    requires e.Valid() && e.Fresh(freshId) && e.enabled && gw in e.gateways && f.node != e.node
    modifies e
    ensures e.Valid()
    ensures Processed(f, gw, freshId, at, task, old(e.clock), e.clock, old(LookAt(e)), LookAt(e))
  {
    hide PeerRemoved, Refreshed, LookAt;
    at, task := e.clock, None;
    match f.message {
    case Alive(ps) => at, task := Refresh(e, gw, f.node, f.ttl, ps);
    case Response(ps) => at, task := Refresh(e, gw, f.node, f.ttl, ps);
    case ByeBye => Remove(e, gw, f.node, freshId);
    }
  }

  method Remove(e: E.Engine, gw: nat, node: Id, freshId: Id)
    requires e.Valid() && e.Fresh(freshId) && e.enabled && gw in e.gateways && node != e.node
    modifies e
    ensures e.Valid() && PeerRemoved(node, gw, freshId, old(e.clock), e.clock, old(LookAt(e)), LookAt(e))
  {
    hide Departed, E.LossHandled;
    e.ProcessByeBye(gw, node, freshId);
  }

  method Refresh(e: E.Engine, gw: nat, node: Id, ttl: nat, ps: D.PeerState)
    returns (ghost at: int, ghost task: Option<Task>)
    requires e.Valid() && e.enabled && gw in e.gateways && node != e.node
    modifies e
    ensures e.Valid() && Refreshed(node, ttl, ps, gw, at, task, old(e.clock), e.clock, old(LookAt(e)), LookAt(e))
  {
    hide E.ForeignHandled, E.JoinTimer, Gossiped;
    at, task := e.ProcessPeerState(gw, node, ttl, ps);
    GossipedHeld(old(e.CoreView()), ps);
  }

  lemma GossipedHeld(c: Core, ps: D.PeerState)
    ensures ps.startStop.None? ==> Gossiped(c, ps).held == c.held
    ensures Gossiped(c, ps).session == c.session
  {
  }

  // ---------------------------------------------------------- measurement

  /** A measurement datagram. Any ping within the size limit is answered with our
      session, our ghost time and the ping itself; a pong goes to the measurement in
      flight, an echo that does not parse counting as one without times. */
  method HandleMeasurement(e: E.Engine, gw: nat, epoch: nat, src: Endpoint, buf: seq<byte>)
    returns (reply: Option<S.Message>, chain: Option<S.Times>, ghost at: int, ghost sorted: seq<int>)
    requires e.Valid()
    modifies e
    ensures e.Valid()
    ensures !old(Live(e, gw, epoch)) || S.DecodeMessage(buf).Err? ==> reply.None? && chain.None? && unchanged(e)
    ensures old(Live(e, gw, epoch)) && S.DecodeMessage(buf).Ok? ==>
              match S.DecodeMessage(buf).value
              case Ping(_, _, payload) =>
                LookAt(e) == old(LookAt(e)) && old(e.clock) <= at <= e.clock && chain.None?
                && reply == if |payload| <= S.MAX_PING_PAYLOAD
                            then Some(S.Pong(e.session, at + e.ghostOffset, payload)) else None
              case Pong(session, gt, echo) =>
                reply.None? && Measured(session, gt, TimesOf(echo), gw, src, at, sorted, old(e.clock), e.clock,
                                        old(LookAt(e)), LookAt(e))
                && chain == ChainOf(old(LookAt(e)), gw, src, session, gt, TimesOf(echo), at)
  {
    hide S.DecodeMessage, Measured, S.ParsedEcho, ChainOf;
    reply, chain, at, sorted := None, None, e.clock, [];
    if !Live(e, gw, epoch) {
      return;
    }
    var msg := S.Decode(buf);
    if msg.Err? {
      return;
    }
    match msg.value {
    case Ping(_, _, payload) => reply, at := Answer(e, payload);
    case Pong(session, gt, echo) => chain, at, sorted := PassPong(e, gw, src, session, gt, echo);
    }
  }

  /** The times of an echo; none if it does not parse. */
  function TimesOf(echo: seq<byte>): S.Times {
    if S.ParsedEcho(echo).Ok? then S.ParsedEcho(echo).value else S.Times(None, None)
  }

  /** What a pong does to the measurement in flight. */
  ghost predicate Measured(session: Id, gt: int, times: S.Times, gw: nat, src: Endpoint, at: int, sorted: seq<int>,
                           lo: int, hi: int, b: Look, a: Look) {
    && lo <= at <= hi && a.net == b.net && a.foreign == b.foreign && a.playing == b.playing && a.sync == b.sync
    && if !E.Measuring(b.inFlight, gw, src) then a == b
       else if session != b.inFlight.value.task.session
       then a.core == b.core && (a.inFlight, a.pending) == Started(None, b.pending, b.net.gateways, hi)
            && E.FailedTimer(b.inFlight.value.task.purpose, b.remeasureAt, a.remeasureAt, lo, hi)
       else E.PongHandled(b.inFlight.value, gt, times.ht, times.pgt, at, sorted,
                          b.core, b.pending, b.foreign, b.net.gateways, hi, a.core, a.inFlight, a.pending)
            && E.PongTimer(b.inFlight.value, gt, times.ht, times.pgt, at, b.core.session, a.core.session,
                           b.remeasureAt, a.remeasureAt, lo, hi)
  }

  /** The ping that follows a pong. */
  ghost function ChainOf(b: Look, gw: nat, src: Endpoint, session: Id, gt: int, times: S.Times, at: int)
    : Option<S.Times>
  {
    E.ChainedPing(b.inFlight, gw, src, session, gt, times.ht, times.pgt, at, b.net.gateways)
  }

  method Answer(e: E.Engine, payload: seq<byte>) returns (reply: Option<S.Message>, ghost at: int)
    requires e.Valid()
    modifies e
    ensures e.Valid() && LookAt(e) == old(LookAt(e)) && old(e.clock) <= at <= e.clock
    ensures reply == if |payload| <= S.MAX_PING_PAYLOAD
                     then Some(S.Pong(e.session, at + e.ghostOffset, payload)) else None
  {
    at := e.clock;
    if |payload| > S.MAX_PING_PAYLOAD {
      return None, at;
    }
    var now := e.Now();
    at := now;
    reply := Some(S.Pong(e.session, now + e.ghostOffset, payload));
  }

  method PassPong(e: E.Engine, gw: nat, src: Endpoint, session: Id, gt: int, echo: seq<byte>)
    returns (chain: Option<S.Times>, ghost at: int, ghost sorted: seq<int>)
    requires e.Valid() && e.enabled
    modifies e
    ensures e.Valid() && chain == ChainOf(old(LookAt(e)), gw, src, session, gt, TimesOf(echo), at)
    ensures Measured(session, gt, TimesOf(echo), gw, src, at, sorted, old(e.clock), e.clock, old(LookAt(e)), LookAt(e))
  {
    hide Measured, TimesOf, LookAt, ChainOf;
    var times := ParseTimes(echo);
    chain, at, sorted := PassTimes(e, gw, src, session, gt, times);
  }

  method ParseTimes(echo: seq<byte>) returns (times: S.Times)
    ensures times == TimesOf(echo)
  {
    hide S.ParsedEcho;
    var r := S.ParseEcho(echo);
    return if r.Ok? then r.value else S.Times(None, None);
  }

  method PassTimes(e: E.Engine, gw: nat, src: Endpoint, session: Id, gt: int, times: S.Times)
    returns (chain: Option<S.Times>, ghost at: int, ghost sorted: seq<int>)
    requires e.Valid() && e.enabled
    modifies e
    ensures e.Valid() && chain == ChainOf(old(LookAt(e)), gw, src, session, gt, times, at)
    ensures Measured(session, gt, times, gw, src, at, sorted, old(e.clock), e.clock, old(LookAt(e)), LookAt(e))
  {
    hide E.PongHandled, E.PongTimer, E.FailedTimer, Started, E.ChainedPing;
    chain, at, sorted := e.HandlePong(gw, src, session, gt, times.ht, times.pgt);
  }

  // ---------------------------------------------------------------- audio

  /** An audio datagram. Announcements, keepalive answers and byes update the
      directory - an embedded ping is answered whoever sent it; a request goes to the
      sink it names, a buffer of our session to the subscription on its channel.
      Nothing else changes. */
  method HandleAudio(e: E.Engine, sinks: map<Id, AudioSender.Sink>, sources: map<Id, AudioSource.Source>,
                     gw: nat, epoch: nat, src: Endpoint, buf: seq<byte>)
    returns (reply: Option<W.Frame>, ghost at: int)
    requires e.Valid() && forall c :: c in sinks ==> sinks[c].id == c
    modifies e, sinks.Values, sources.Values
    ensures e.Valid() && LookAt(e).(net := old(LookAt(e)).net) == old(LookAt(e))
    ensures reply == if old(Hears(e, gw, epoch, buf)) then AnswerTo(old(e.node), W.DecodeFrame(buf).value) else None
    ensures if old(Hears(e, gw, epoch, buf))
            then old(e.clock) <= at <= e.clock
                 && DirectoryAfter(W.DecodeFrame(buf).value, gw, src, at, old(e.NetView()), e.NetView())
            else unchanged(e)
    ensures forall s: AudioSender.Sink :: s in sinks.Values ==>
              && s.segments == old(s.segments) && s.nextSeq == old(s.nextSeq) && s.format == old(s.format)
              && s.requesters == if old(Hears(e, gw, epoch, buf))
                                 then RequestersAfter(W.DecodeFrame(buf).value, s.id, at, old(s.requesters))
                                 else old(s.requesters)
    ensures forall s: AudioSource.Source :: s in sources.Values ==>
              (old(Hears(e, gw, epoch, buf)) && Reaches(W.DecodeFrame(buf).value, old(e.session), sources, s))
                || unchanged(s)
    ensures old(Hears(e, gw, epoch, buf)) && Subscribed(W.DecodeFrame(buf).value, old(e.session), sources) ==>
              var b := W.DecodeFrame(buf).value.message.buffer;
              Delivered(b, BeatGrid.SessionOffset(e.timeline, sources[b.channel].quantum), at,
                        old(StateOf(sources[b.channel])), StateOf(sources[b.channel]))
  {
    hide W.DecodeFrame, DirectoryAfter, RequestersAfter, Delivered, StateOf, LookAt;
    reply, at := None, e.clock;
    if !Live(e, gw, epoch) || !e.audio {
      return;
    }
    var frame := W.Decode(buf);
    if frame.Err? || frame.value.node == e.node || frame.value.groupId != 0 {
      return;
    }
    reply := AnswerTo(e.node, frame.value);
    at := Serve(e, sinks, sources, gw, src, frame.value);
  }

  method Serve(e: E.Engine, sinks: map<Id, AudioSender.Sink>, sources: map<Id, AudioSource.Source>,
               gw: nat, src: Endpoint, f: W.Frame) returns (ghost at: int)
    requires e.Valid() && e.enabled && e.audio && gw in e.gateways && f.node != e.node
    requires forall c :: c in sinks ==> sinks[c].id == c
    modifies e`known, e`paths, e`clock, sinks.Values, sources.Values
    ensures e.Valid() && LookAt(e).(net := old(LookAt(e)).net) == old(LookAt(e))
    ensures old(e.clock) <= at <= e.clock && DirectoryAfter(f, gw, src, at, old(e.NetView()), e.NetView())
    ensures forall s: AudioSender.Sink :: s in sinks.Values ==>
              && s.segments == old(s.segments) && s.nextSeq == old(s.nextSeq) && s.format == old(s.format)
              && s.requesters == RequestersAfter(f, s.id, at, old(s.requesters))
    ensures forall s: AudioSource.Source :: s in sources.Values ==> Reaches(f, e.session, sources, s) || unchanged(s)
    ensures Subscribed(f, e.session, sources) ==>
              var b := f.message.buffer;
              Delivered(b, BeatGrid.SessionOffset(e.timeline, sources[b.channel].quantum), at,
                        old(StateOf(sources[b.channel])), StateOf(sources[b.channel]))
  {
    hide DirectoryAfter, RequestersAfter, Delivered, StateOf, LookAt;
    if f.message.ChannelRequest? || f.message.StopChannelRequest? || f.message.Audio? {
      TempoPositive(e);
      var now := Tick(e, f, gw, src);
      at := now;
      ServeChannels(sinks, sources, f, now, e.session, e.timeline);
    } else {
      at := UpdateDirectory(e, gw, src, f);
      NoRequesters(f, at);
    }
  }

  lemma NoRequesters(f: W.Frame, at: int)
    requires !f.message.ChannelRequest? && !f.message.StopChannelRequest?
    ensures forall c: Id, r: map<Id, int> :: RequestersAfter(f, c, at, r) == r
  {
  }

  method ServeChannels(sinks: map<Id, AudioSender.Sink>, sources: map<Id, AudioSource.Source>,
                       f: W.Frame, now: int, session: Id, timeline: Timeline)
    requires timeline.tempo > 0 && forall c :: c in sinks ==> sinks[c].id == c
    requires f.message.ChannelRequest? || f.message.StopChannelRequest? || f.message.Audio?
    modifies sinks.Values, sources.Values
    ensures forall s: AudioSender.Sink :: s in sinks.Values ==>
              && s.segments == old(s.segments) && s.nextSeq == old(s.nextSeq) && s.format == old(s.format)
              && s.requesters == RequestersAfter(f, s.id, now, old(s.requesters))
    ensures forall s: AudioSource.Source :: s in sources.Values ==> Reaches(f, session, sources, s) || unchanged(s)
    ensures Subscribed(f, session, sources) ==>
              var b := f.message.buffer;
              Delivered(b, BeatGrid.SessionOffset(timeline, sources[b.channel].quantum), now,
                        old(StateOf(sources[b.channel])), StateOf(sources[b.channel]))
  {
    assert forall s :: s in sinks.Values ==> s.id in sinks && sinks[s.id] == s;
    match f.message {
    case ChannelRequest(c) =>
      if c in sinks {
        sinks[c].Request(f.node, now + f.ttl * 1_000_000);
      }
    case StopChannelRequest(c) =>
      if c in sinks {
        sinks[c].StopRequest(f.node);
      }
    case Audio(b) =>
      if b.session == session && b.channel in sources {
        sources[b.channel].Deliver(b, timeline, now);
      }
    }
  }

  lemma TempoPositive(e: E.Engine)
    requires e.Valid()
    ensures e.timeline.tempo > 0
  {
  }

  /** The clock is read; the directory has no part in it. */
  method Tick(e: E.Engine, ghost f: W.Frame, ghost gw: nat, ghost src: Endpoint) returns (now: int)
    requires e.Valid() && (f.message.ChannelRequest? || f.message.StopChannelRequest? || f.message.Audio?)
    modifies e`clock
    ensures e.Valid() && old(e.clock) <= now == e.clock && LookAt(e) == old(LookAt(e))
    ensures DirectoryAfter(f, gw, src, now, old(e.NetView()), e.NetView())
  {
    now := e.Now();
  }

  /** The requesters of the sink on channel `c` after an admitted frame. */
  function RequestersAfter(f: W.Frame, c: Id, at: int, requesters: map<Id, int>): map<Id, int> {
    match f.message
    case ChannelRequest(channel) => if channel == c then requesters[f.node := at + f.ttl * 1_000_000] else requesters
    case StopChannelRequest(channel) => if channel == c then requesters - {f.node} else requesters
    case _ => requesters
  }

  /** A request is live for exactly its ttl, in seconds, unless it is repeated; a stop
      request ends it at once. No other requester and no other sink is touched. */
  lemma RequestLives(f: W.Frame, c: Id, at: int, requesters: map<Id, int>, now: int, other: Id)
    ensures var live := AudioSender.Live(RequestersAfter(f, c, at, requesters), now);
            && (f.message == W.ChannelRequest(c) ==> (f.node in live <==> now < at + f.ttl * 1_000_000))
            && (f.message == W.StopChannelRequest(c) ==> f.node !in live)
            && (other != f.node ==> (other in live <==> other in AudioSender.Live(requesters, now)))
    ensures f.message != W.ChannelRequest(c) && f.message != W.StopChannelRequest(c) ==>
              RequestersAfter(f, c, at, requesters) == requesters
  {
  }

  /** The frame is a buffer of our session on a subscribed channel. */
  predicate Subscribed(f: W.Frame, session: Id, sources: map<Id, AudioSource.Source>) {
    f.message.Audio? && f.message.buffer.session == session && f.message.buffer.channel in sources
  }

  predicate Reaches(f: W.Frame, session: Id, sources: map<Id, AudioSource.Source>, s: AudioSource.Source) {
    Subscribed(f, session, sources) && sources[f.message.buffer.channel] == s
  }

  /** A subscription's inbox, counter and last arrival. */
  datatype SourceState = SourceState(inbox: seq<AudioSource.ReceivedChunk>, counter: AudioSource.Counter,
                                     lastBufferAt: int)

  function StateOf(s: AudioSource.Source): SourceState
    reads s
  {
    SourceState(s.inbox, AudioSource.Counter(s.nextSeqExpected, s.lostChunks), s.lastBufferAt)
  }

  ghost predicate Delivered(b: W.AudioBuffer, delta: int, at: int, before: SourceState, after: SourceState) {
    && after.inbox == AudioSource.LastOf(before.inbox + AudioSource.CutsOf(b, delta), AudioSource.INBOX_LIMIT)
    && after.counter == AudioSource.ArriveAll(before.counter, AudioSource.Nums(b.chunks))
    && after.lastBufferAt == at
  }

  /** Admission of audio datagrams: LinkAudio on, another peer of our group. */
  predicate Hears(e: E.Engine, gw: nat, epoch: nat, buf: seq<byte>)
    reads e
  {
    var f := W.DecodeFrame(buf);
    Live(e, gw, epoch) && e.audio && f.Ok? && f.value.node != e.node && f.value.groupId == 0
  }

  /** The answer to an announcement's embedded ping. */
  function AnswerTo(node: Id, f: W.Frame): Option<W.Frame> {
    if f.message.PeerAnnouncement? && f.message.ping.Some?
    then Some(W.NewFrame(node, W.Pong(f.message.ping.value))) else None
  }

  function IdsOf(cs: seq<W.ChannelInfo>): seq<Id> {
    seq(|cs|, i requires 0 <= i < |cs| => cs[i].id)
  }

  /** What an admitted audio frame does to what was learned. */
  ghost predicate DirectoryAfter(f: W.Frame, gw: nat, src: Endpoint, at: int, b: Net, a: Net) {
    match f.message
    case PeerAnnouncement(_, _, cs, _) =>
      if (f.node, gw) in b.peers && b.peers[(f.node, gw)].state.audioEndpoint == Some(src)
      then a == b.(known := Listed(b.known, gw, IdsOf(cs), KnownChannel(f.node, at + f.ttl * 1_000_000)))
      else a == b
    case Pong(_) => a == b.(paths := b.paths + {(f.node, gw)})
    case ChannelByes(ids) =>
      a == b.(known := map k | k in b.known && !(k.1 == gw && b.known[k].peer == f.node && k.0 in ids) :: b.known[k])
    case _ => a == b
  }

  method UpdateDirectory(e: E.Engine, gw: nat, src: Endpoint, f: W.Frame) returns (ghost at: int)
    requires e.Valid() && e.enabled && e.audio && gw in e.gateways && f.node != e.node
    modifies e`known, e`paths, e`clock
    ensures e.Valid() && old(e.clock) <= at <= e.clock && DirectoryAfter(f, gw, src, at, old(e.NetView()), e.NetView())
    ensures LookAt(e).(net := old(LookAt(e)).net) == old(LookAt(e))
  {
    hide IdsOf, E.Engine.CoreView, E.Engine.Valid, Listed;
    at := e.clock;
    match f.message {
    case PeerAnnouncement(_, _, cs, _) => at := e.HandleAnnouncement(gw, f.node, src, IdsOf(cs), f.ttl);
    case Pong(_) => e.HandleAudioPong(gw, f.node);
    case ChannelByes(ids) => e.HandleChannelByes(gw, f.node, ids);
    case _ =>
    }
  }
}
