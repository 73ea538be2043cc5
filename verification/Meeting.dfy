/**
 Peers that hear each other: what a peer's frames carry, runs of frames on one engine,
 and an Alive with its answer between two, byte for byte.
 */
module Meeting {
  import opened Types
  import opened Wrappers
  import opened EngineState
  import opened SessionLaws
  import opened Dispatch
  import E = Engine
  import D = Discovery
  import S = Sync
  import W = AudioWire
  import AudioSource
  import EngineLaws
  import Codec
  import Gossip
  import BeatGrid

  // ------------------------------------------------------ what a frame carries

  ghost function Held(e: E.Engine): Gossip.View
    reads e
  {
    ViewOf(e.CoreView())
  }

  /** A frame carries exactly what the peers are to know: two engines that would tell the
      same advertise alike, and only they do. */
  lemma SnapshotTells(a: E.Engine, b: E.Engine, here: Endpoints)
    requires a.node == b.node
    ensures Snapshot(a, here) == Snapshot(b, here) <==> a.Current() == b.Current()
  {
  }

  /** Whoever hears it in the same session takes over the view of its sender, knows where
      to measure it, and which endpoint its channels come from if it has any. */
  lemma SnapshotHeard(e: E.Engine, here: Endpoints, c: Core)
    ensures var ps := Snapshot(e, here);
            && ps.session == Some(e.session)
            && ViewOf(Gossiped(c, ps)) == Gossip.MergeView(ViewOf(c), Held(e))
            && ps.measurementEndpoint == Some(here.measurement)
            && (e.audio ==> ps.audioEndpoint == Some(here.audio)) && (!e.audio ==> ps.audioEndpoint == None)
  {
    GossipDelivers(c, Snapshot(e, here));
  }

  // --------------------------------------------------------- runs on one engine

  /** A frame of the session as admitted: who sent it, for how long it stands, what it says. */
  datatype Heard = Heard(from: Id, ttl: nat, state: D.PeerState)

  function States(frames: seq<Heard>): (pss: seq<D.PeerState>)
    ensures |pss| == |frames|
  {
    if frames == [] then [] else [frames[0].state] + States(frames[1..])
  }

  ghost predicate OfSession(frames: seq<Heard>, session: Id, node: Id) {
    forall i :: 0 <= i < |frames| ==> frames[i].state.session == Some(session) && frames[i].from != node
  }

  lemma {:induction false} StatesStep(c: Core, frames: seq<Heard>, i: nat)
    requires i < |frames|
    ensures GossipedAll(c, States(frames[i..])) == GossipedAll(Gossiped(c, frames[i].state), States(frames[i + 1..]))
  {
    assert frames[i..][0] == frames[i] && frames[i..][1..] == frames[i + 1..];
  }

  /** Any frames of the session, one after the other, leave an engine with the merge of the
      timelines and the transport actions they carried; whatever changed was relayed, or
      is due. Who it is, where it is and what it measured do not change. */
  method HearMembers(e: E.Engine, gw: nat, frames: seq<Heard>)
    requires e.Valid() && e.enabled && gw in e.gateways && OfSession(frames, e.session, e.node)
    modifies e
    ensures e.Valid() && e.enabled
    ensures e.timeline == Gossip.MergeTimelines(old(e.timeline), TimelinesOf(States(frames)))
    ensures e.heldStst
         == Gossip.MergeAll(Gossip.StampOf, Gossip.Unchanged, old(e.heldStst), ActionsOf(States(frames)))
    ensures e.CoreView() == old(e.CoreView()).(timeline := e.timeline, held := e.heldStst,
                                               memberSeen := old(e.sessionMemberSeen) || frames != [])
    ensures e.lastSent == e.Current() || e.broadcastDue.Some?
  {
    hide Gossip.MergeTimelines, Gossip.MergeAll, Gossiped, E.Engine.Sound;
    ghost var c := e.CoreView();
    assert frames[0..] == frames;
    GossipedAllMerges(c, States(frames));
    for i := 0 to |frames|
      invariant e.Valid() && e.enabled && gw in e.gateways && e.session == c.session && e.node == c.node
      invariant GossipedAll(e.CoreView(), States(frames[i..])) == GossipedAll(c, States(frames))
    {
      StatesStep(e.CoreView(), frames, i);
      var f := frames[i];
      HearOne(e, gw, f);
    }
    assert frames[|frames|..] == [];
  }

  method HearOne(e: E.Engine, gw: nat, f: Heard)
    requires e.Valid() && e.enabled && gw in e.gateways && f.state.session == Some(e.session) && f.from != e.node
    modifies e
    ensures e.Valid() && e.enabled && gw in e.gateways && e.CoreView() == Gossiped(old(e.CoreView()), f.state)
    ensures e.session == old(e.session) && e.node == old(e.node)
  {
    hide E.Engine.Valid, E.ForeignHandled, E.JoinTimer;
    ghost var at, task := e.ProcessPeerState(gw, f.from, f.ttl, f.state);
    GossipDelivers(old(e.CoreView()), f.state);
  }

  // -------------------------------------------------------------- two engines

  /** The frame fits the wire widths. */
  predicate Sendable(e: E.Engine, here: Endpoints)
    reads e
  {
    D.StateInRange(Snapshot(e, here))
  }

  /** The header of an encoded frame is admitted by everyone else of the group. */
  lemma EncodedAdmitted(f: D.Frame, node: Id)
    requires D.FrameInRange(f)
    ensures var buf := D.EncodeFrame(f);
            && (Admitted(node, buf) <==> f.groupId == 0 && f.node != node) && D.DecodeFrame(buf) == Ok(f)
            && D.DecodeHeader(buf).Ok? && D.DecodeHeader(buf).value.msgType == D.MessageType(f.message)
  {
    D.FrameRoundTrip(f);
    var h := D.Header(D.MessageType(f.message), f.ttl, f.groupId, f.node);
    if f.message.ByeBye? {
      D.HeaderRoundTrip(h, []);
      assert D.HeaderBytes(h) + [] == D.HeaderBytes(h);
    } else {
      D.HeaderRoundTrip(h, Codec.ContainerBytes(D.StateEntries(f.message.state)));
    }
  }

  /** So is an encoded audio frame, while the receiver is live and LinkAudio is on. */
  lemma EncodedHeard(e: E.Engine, gw: nat, epoch: nat, f: W.Frame)
    requires W.FrameInRange(f) && W.Consistent(f.message)
    ensures Hears(e, gw, epoch, W.EncodeFrame(f))
       <==> e.enabled && e.epoch == epoch && gw in e.gateways && e.audio && f.groupId == 0 && f.node != e.node
  {
    W.FrameRoundTrip(f);
  }

  /** An admitted frame but a ByeBye leaves its sender known through that gateway, as it
      described itself, for its ttl; no other entry changes. */
  lemma SenderKnown(f: D.Frame, gw: nat, freshId: Id, at: int, task: Option<Task>, lo: int, hi: int, b: Look, a: Look)
    requires Processed(f, gw, freshId, at, task, lo, hi, b, a) && !f.message.ByeBye?
    ensures lo <= at <= hi && (f.node, gw) in a.net.peers
    ensures a.net.peers[(f.node, gw)] == PeerEntry(f.message.state, at + f.ttl * 1_000_000)
    ensures forall k :: k != (f.node, gw) ==>
              (k in a.net.peers <==> k in b.net.peers) && (k in b.net.peers ==> a.net.peers[k] == b.net.peers[k])
    ensures a.net == b.net.(peers := a.net.peers)
  {
  }

  /** A ByeBye leaves the sender unknown through that gateway; a session is founded exactly if
      a fellow member was seen and nobody else is left. */
  lemma GoodbyeHeard(f: D.Frame, gw: nat, freshId: Id, at: int, task: Option<Task>, lo: int, hi: int, b: Look, a: Look)
    requires Processed(f, gw, freshId, at, task, lo, hi, b, a) && f.message.ByeBye? && NetOk(b.net)
    requires freshId != b.core.session
    ensures forall k :: k in a.net.peers <==> k in b.net.peers && k != (f.node, gw)
    ensures a.core.session != b.core.session
       <==> b.core.memberSeen
            && forall k :: k in b.net.peers && b.net.peers[k].state.session == Some(b.core.session) ==>
                 k == (f.node, gw)
    ensures a.core.session == b.core.session ==> a.core == b.core
  {
    DepartedExactly(b.net, f.node, gw);
    EngineLaws.NobodyLeftIff(b.net, f.node, gw, 0, b.core.session);
    EngineLaws.FoundedIff(b.core, a.net.peers, freshId, lo, hi, a.core);
  }

  /** A pong gives back the times of the ping it answers, and none if its echo does not parse. */
  lemma EchoTimes(ht: int, pgt: Option<int>, echo: seq<byte>)
    requires IsI64(ht) && (pgt.Some? ==> IsI64(pgt.value))
    ensures TimesOf(S.PingBytes(ht, pgt)[9..]) == S.Times(Some(ht), pgt)
    ensures S.ParsedEcho(echo).Err? ==> TimesOf(echo) == S.Times(None, None)
  {
    S.EchoRecovers(ht, pgt);
    assert S.PingBytes(ht, pgt)[9..] == Codec.ContainerBytes(S.PingEntries(ht, pgt));
  }

  /** A buffer reaches the one subscription on its channel, if it is of the session; nothing
      else reaches any. */
  lemma BufferReaches(f: W.Frame, session: Id, sources: map<Id, AudioSource.Source>, s: AudioSource.Source)
    ensures Reaches(f, session, sources, s)
       <==> exists c :: c in sources && sources[c] == s && f.message.Audio?
                        && f.message.buffer.channel == c && f.message.buffer.session == session
  {
  }

  /** An encoded Alive or Response of a fellow member is heard. */
  method Receive(e: E.Engine, gw: nat, here: Endpoints, f: D.Frame, freshId: Id) returns (reply: Option<D.Frame>)
    requires e.Valid() && e.enabled && gw in e.gateways && e.Fresh(freshId)
    requires D.FrameInRange(f) && f.groupId == 0 && f.node != e.node && !f.message.ByeBye?
    requires f.message.state.session == Some(e.session)
    modifies e
    ensures e.Valid() && e.session == old(e.session) && e.node == old(e.node)
    ensures e.CoreView() == Gossiped(old(e.CoreView()), f.message.state)
    ensures reply == if f.message.Alive?
                     then Some(D.Frame(D.TTL_SECONDS, 0, old(e.node), D.Response(old(Snapshot(e, here))))) else None
  {
    hide D.DecodeFrame, D.EncodeFrame, D.DecodeHeader, Admitted, E.Engine.Valid, Snapshot, E.JoinTimer, Gossiped;
    EncodedAdmitted(f, e.node);
    var buf := D.Encode(f);
    ghost var at, task;
    reply, at, task := HandleDiscovery(e, gw, e.epoch, here, buf, freshId);
    GossipDelivers(old(e.CoreView()), f.message.state);
  }

  /** An Alive and the Response to it, as bytes, between two members of a session: each ends
      with its own view merged with the one the other had. */
  method Greet(a: E.Engine, gwA: nat, hereA: Endpoints, idA: Id, b: E.Engine, gwB: nat, hereB: Endpoints, idB: Id)
    requires a != b && a.Valid() && b.Valid() && a.enabled && b.enabled && gwA in a.gateways && gwB in b.gateways
    requires a.session == b.session && a.node != b.node && a.Fresh(idA) && b.Fresh(idB)
    requires Sendable(a, hereA) && Sendable(b, hereB)
    modifies a, b
    ensures a.Valid() && b.Valid() && a.session == b.session == old(a.session)
    ensures Held(a) == Gossip.MergeView(old(Held(a)), old(Held(b)))
    ensures Held(b) == Gossip.MergeView(old(Held(b)), old(Held(a)))
  {
    hide E.Engine.Valid, Gossiped, D.FrameInRange, Gossip.MergeView;
    SnapshotHeard(a, hereA, b.CoreView());
    SnapshotHeard(b, hereB, a.CoreView());
    SnapshotFits(a, hereA);
    SnapshotFits(b, hereB);
    var alive := D.Frame(D.TTL_SECONDS, 0, a.node, D.Alive(Snapshot(a, hereA)));
    var reply := Receive(b, gwB, hereB, alive, idB);
    var nothing := Receive(a, gwA, hereA, reply.value, idA);
  }

  lemma SnapshotFits(e: E.Engine, here: Endpoints)
    requires Sendable(e, here)
    ensures D.FrameInRange(D.Frame(D.TTL_SECONDS, 0, e.node, D.Alive(Snapshot(e, here))))
    ensures D.FrameInRange(D.Frame(D.TTL_SECONDS, 0, e.node, D.Response(Snapshot(e, here))))
  {
  }

  /** So they agree on the timeline exactly if their beat origins differed or they agreed
      before, and on the transport exactly if the timestamps differed or they agreed. */
  lemma GreetingAgreesIff(a: Gossip.View, b: Gossip.View)
    requires BeatGrid.Clamped(a.timeline.tempo) && BeatGrid.Clamped(b.timeline.tempo)
    ensures var x, y := Gossip.MergeView(a, b), Gossip.MergeView(b, a);
            && (x.timeline == y.timeline
                <==> a.timeline.beatOrigin != b.timeline.beatOrigin || a.timeline == b.timeline)
            && (x.startStop == y.startStop
                <==> a.startStop.timestamp != b.startStop.timestamp || a.startStop == b.startStop)
  {
  }

  // ----------------------------------------------------- the application follows

  /** When synchronising, the application plays as the session's transport says, if there
      is one. */
  predicate Follows(sync: bool, playing: bool, held: StartStopState) {
    sync && held != DEFAULT_START_STOP ==> playing == held.isPlaying
  }

  /** Gossip and a local change keep that, and so does a join, whatever it changes. */
  lemma GossipFollows(b: Look, a: Look, ps: D.PeerState, v: Gossip.View, g: int, sess: Id, offset: int)
    requires Follows(b.sync, b.playing, b.core.held) && v.timeline.tempo > 0
    ensures a.core == Gossiped(b.core, ps) && a.sync == b.sync && a.playing == Playing(b, a) ==>
              Follows(a.sync, a.playing, a.core.held)
    ensures Follows(b.sync, b.playing, Gossip.Restamp(v, g, b.playing))
    ensures Follows(b.sync, b.playing, Evaluated(b.core, sess, offset, b.foreign).held)
  {
  }

  /** Founding a session keeps it exactly unless the application plays while the session
      had no transport: the one founded then says stopped, at a beat that is not zero. */
  lemma FoundingFollowsIff(b: Look, id: Id, now: int)
    requires Follows(b.sync, b.playing, b.core.held) && b.core.timeline.tempo > 0
    ensures Follows(b.sync, b.playing, Refounded(b.core, id, now).held)
       <==> !(b.sync && b.playing && b.core.held == DEFAULT_START_STOP
              && BeatGrid.BeatsAtGhost(b.core.timeline, now + b.core.offset) != 0)
  {
    FoundedContinues(b.core, id, now, now);
  }
}
