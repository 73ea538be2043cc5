/**
 The peer state machine. Every handler keeps the engine valid and does to its
 state exactly what `EngineState` says; time comes from a monotone clock and fresh
 identifiers from the caller.
 */
module Engine {
  import opened Types
  import opened Wrappers
  import BeatGrid
  import opened Gossip
  import opened Discovery
  import ClockEstimate
  import Election
  import Sync
  import opened EngineState
  import opened Instants
  import opened Wakeups

  /** How many of the gateways open. */
  function Opened(opens: seq<bool>): nat {
    if opens == [] then 0 else Opened(opens[..|opens| - 1]) + (if opens[|opens| - 1] then 1 else 0)
  }

  /** An instant between two others. */
  predicate Between(lo: int, t: int, hi: int) {
    lo <= t <= hi
  }

  class Engine {
    /** The latest reading of the local clock, in microseconds. */
    var clock: int
    var enabled: bool
    var epoch: nat
    var node: Id
    var session: Id
    var timeline: Timeline
    var ghostOffset: int
    var heldStst: StartStopState
    var appPlaying: bool
    var sstSync: bool
    var gateways: set<nat>
    var nextGatewayId: nat
    var peers: map<(Id, nat), PeerEntry>
    var sessionMemberSeen: bool
    var foreignTimelines: map<Id, Timeline>
    var measured: map<Id, int>
    var measurement: Option<Measurement>
    var pending: seq<Task>
    var lastAliveAt: int
    var lastBroadcastAt: int
    var broadcastDue: Option<int>
    var nextRemeasureAt: Option<int>
    var audio: bool
    var known: map<(Id, nat), KnownChannel>
    var paths: set<(Id, nat)>

    /** When the Alive rounds of this epoch went out, and what the last one said. */
    ghost var rounds: seq<int>
    ghost var lastSent: Advert

    ghost function CoreView(): Core
      reads `node, `session, `timeline, `ghostOffset, `heldStst, `sessionMemberSeen, `measured
    {
      Core(node, session, timeline, ghostOffset, heldStst, sessionMemberSeen, measured)
    }

    ghost function NetView(): Net
      reads `gateways, `nextGatewayId, `peers, `known, `paths
    {
      Net(gateways, nextGatewayId, peers, known, paths)
    }

    ghost function Current(): Advert
      reads `node, `session, `timeline, `heldStst, `audio
    {
      Advert(node, session, timeline, heldStst, audio)
    }

    /** A due broadcast is exactly one spacing after the last round; rounds are
        spaced; a disabled engine knows nobody and owes nothing. */
    ghost predicate BeaconOk()
      reads `clock, `enabled, `lastAliveAt, `lastBroadcastAt, `broadcastDue, `rounds
    {
      && 0 <= lastBroadcastAt <= clock && lastAliveAt == lastBroadcastAt
      && (broadcastDue.Some? ==> broadcastDue.value == lastBroadcastAt + MIN_BROADCAST_SPACING)
      && Spaced(rounds)
      && (enabled ==> rounds != [] && rounds[|rounds| - 1] == lastBroadcastAt)
      && (!enabled ==> broadcastDue.None?)
    }

    ghost predicate Idle()
      reads `gateways, `peers, `known, `paths, `measurement, `pending
    {
      gateways == {} && peers == map[] && known == map[] && paths == {} && measurement.None? && pending == []
    }

    /** Disabled, with an acceptable session and nothing else. */
    ghost predicate Quiet()
      reads this
    {
      && !enabled && Idle() && CoreOk(CoreView()) && TasksOk(measurement, pending, session, measured)
         && NetOk(NetView())
      && 0 <= clock && broadcastDue.None?
    }

    /** The same, gateways open. */
    ghost predicate Ready()
      reads this
    {
      && !enabled && CoreOk(CoreView()) && TasksOk(measurement, pending, session, measured) && NetOk(NetView())
      && peers == map[] && known == map[] && paths == {} && measurement.None? && pending == []
      && 0 <= clock && broadcastDue.None?
    }

    /** Everything but the promise to broadcast changes. */
    ghost predicate Sound()
      reads this
    {
      && CoreOk(CoreView()) && TasksOk(measurement, pending, session, measured) && NetOk(NetView())
      && Routed(pending, gateways)
      && BeaconOk() && (!enabled ==> Idle()) && (!audio ==> known == map[] && paths == {})
    }

    /** No update is lost: what the peers were last told is current, or a broadcast
        is due. */
    ghost predicate Told()
      reads this
    {
      enabled ==> lastSent == Current() || broadcastDue.Some?
    }

    ghost predicate Valid()
      reads this
    {
      Sound() && Told()
    }

    /** An identifier nobody uses yet. */
    ghost predicate Fresh(id: Id)
      reads this
    {
      id !in measured && id != session && id != node && !HasTask(measurement, pending, id)
    }

    constructor (nodeId: Id, tempo: int)
      ensures Valid() && !enabled && node == session == nodeId
      ensures CoreView() == Core(nodeId, nodeId, Timeline(BeatGrid.ClampTempo(tempo), 0, 0), 0,
                                 DEFAULT_START_STOP, false, map[])
      ensures Idle() && !audio && !appPlaying && !sstSync && epoch == 0 && nextGatewayId == 0
      ensures foreignTimelines == map[] && broadcastDue == None && nextRemeasureAt == None
    {
      clock, enabled, epoch := 0, false, 0;
      node, session := nodeId, nodeId;
      timeline := Timeline(BeatGrid.ClampTempo(tempo), 0, 0);
      ghostOffset, heldStst, appPlaying, sstSync := 0, DEFAULT_START_STOP, false, false;
      gateways, nextGatewayId, peers, sessionMemberSeen := {}, 0, map[], false;
      foreignTimelines, measured, measurement, pending := map[], map[], None, [];
      lastAliveAt, lastBroadcastAt, broadcastDue, nextRemeasureAt := 0, 0, None, None;
      audio, known, paths := false, map[], {};
      rounds := [];
    }

    /** Read the local clock, which never goes back. */
    method Now() returns (t: int)
      modifies this`clock
      ensures t == clock >= old(clock)
      ensures CoreView() == old(CoreView()) && NetView() == old(NetView())
      ensures (old(Sound()) ==> Sound()) && (old(Valid()) ==> Valid())
    {
      hide TasksOk, NetOk, Spaced, CoreOk;
      var reading: int :| reading >= clock;
      clock := reading;
      return reading;
    }

    // ------------------------------------------------------------- sending

    /** An Alive round on every gateway. */
    method SendAlive(now: int)
      requires Sound() && enabled && now == clock && now - lastBroadcastAt >= MIN_BROADCAST_SPACING
      modifies this`lastAliveAt, this`lastBroadcastAt, this`broadcastDue, this`rounds, this`lastSent
      ensures Valid() && rounds == old(rounds) + [now] && lastSent == Current() && broadcastDue == None
    {
      hide TasksOk, NetOk, CoreOk, Routed, CoreView, NetView, Idle;
      lastAliveAt, lastBroadcastAt, broadcastDue := now, now, None;
      rounds, lastSent := rounds + [now], Current();
    }

    /** Broadcast a change now, or once the spacing allows. */
    method ScheduleBroadcast()
      requires Sound()
      modifies this`clock, this`lastAliveAt, this`lastBroadcastAt, this`broadcastDue, this`rounds, this`lastSent
      ensures Valid() && clock >= old(clock)
      ensures CoreView() == old(CoreView()) && NetView() == old(NetView()) && old(rounds) <= rounds
      ensures !enabled ==> unchanged(this)
      ensures enabled ==>
                if clock - old(lastBroadcastAt) >= MIN_BROADCAST_SPACING
                then rounds == old(rounds) + [clock] && lastSent == Current()
                else rounds == old(rounds) && lastSent == old(lastSent)
                     && broadcastDue == Some(old(lastBroadcastAt) + MIN_BROADCAST_SPACING)
    {
      hide TasksOk, NetOk, Spaced, CoreOk;
      if !enabled {
        return;
      }
      var now := Now();
      if now - lastBroadcastAt >= MIN_BROADCAST_SPACING {
        SendAlive(now);
      } else {
        broadcastDue := Some(lastBroadcastAt + MIN_BROADCAST_SPACING);
      }
    }

    // --------------------------------------------------- local user actions

    /** Set the session tempo. */
    method SetTempo(tempo: int) returns (ghost at: int)
      requires Valid()
      modifies this`timeline
      modifies this`clock, this`lastAliveAt, this`lastBroadcastAt, this`broadcastDue, this`rounds, this`lastSent
      ensures Valid() && clock >= old(clock)
      ensures old(clock) <= at <= clock
      ensures timeline == BeatGrid.Retempo(old(timeline), at + ghostOffset, tempo)
      ensures timeline.beatOrigin > old(timeline).beatOrigin
    {
      hide TasksOk, NetOk, Spaced, BeatGrid.BeatsAtGhost, BeatGrid.GhostAtBeats;
      var now := Now();
      at := now;
      BeatGrid.RetempoContinuous(timeline, now + ghostOffset, tempo);
      var beatsNow := BeatGrid.BeatsAtGhost(timeline, now + ghostOffset);
      var beatOrigin := if beatsNow > timeline.beatOrigin + 1 then beatsNow else timeline.beatOrigin + 1;
      var timeOrigin := BeatGrid.GhostAtBeats(timeline, beatOrigin);
      timeline := Timeline(BeatGrid.ClampTempo(tempo), beatOrigin, timeOrigin);
      ScheduleBroadcast();
    }

    /** Start or stop the transport; gossiped only when synchronising. */
    method SetIsPlaying(playing: bool) returns (ghost at: int)
      requires Valid()
      modifies this`appPlaying, this`heldStst
      modifies this`clock, this`lastAliveAt, this`lastBroadcastAt, this`broadcastDue, this`rounds, this`lastSent
      ensures Valid() && clock >= old(clock) && appPlaying == playing
      ensures !sstSync ==> heldStst == old(heldStst)
      ensures old(clock) <= at <= clock
      ensures sstSync ==> heldStst == Restamp(View(timeline, old(heldStst)), at + ghostOffset, playing)
      ensures sstSync ==> heldStst.timestamp > old(heldStst).timestamp
    {
      hide TasksOk, NetOk, Spaced, BeatGrid.BeatsAtGhost;
      appPlaying, at := playing, clock;
      if sstSync {
        var now := Now();
        at := now;
        var ghostNow := now + ghostOffset;
        var timestamp := if ghostNow > heldStst.timestamp + 1 then ghostNow else heldStst.timestamp + 1;
        heldStst := StartStopState(playing, BeatGrid.BeatsAtGhost(timeline, ghostNow), timestamp);
        ScheduleBroadcast();
      }
    }

    /** Turning synchronisation on adopts the session's transport, if there is one. */
    method EnableStartStopSync(on: bool)
      requires Valid()
      modifies this`sstSync, this`appPlaying
      ensures Valid() && sstSync == on
      ensures appPlaying == if on && heldStst != DEFAULT_START_STOP then heldStst.isPlaying else old(appPlaying)
    {
      sstSync := on;
      if on && heldStst != DEFAULT_START_STOP {
        appPlaying := heldStst.isPlaying;
      }
    }

    // ------------------------------------------------------------ discovery

    /** An Alive or Response admitted on an open gateway. */
    method ProcessPeerState(gw: nat, peer: Id, ttl: nat, ps: PeerState)
      returns (ghost at: int, ghost task: Option<Task>)
      requires Valid() && enabled && gw in gateways && peer != node
      modifies this`peers, this`appPlaying, this`foreignTimelines, this`measurement, this`pending
      modifies this`session, this`ghostOffset, this`timeline, this`heldStst, this`sessionMemberSeen, this`measured,
               this`nextRemeasureAt
      modifies this`clock, this`lastAliveAt, this`lastBroadcastAt, this`broadcastDue, this`rounds, this`lastSent
      ensures Valid() && clock >= old(clock)
      ensures old(clock) <= at <= clock
      ensures peers == old(peers)[(peer, gw) := PeerEntry(ps, at + ttl * 1_000_000)]
      ensures NetView() == old(NetView()).(peers := peers)
      ensures ps.session.None? ==>
                && CoreView() == old(CoreView()) && appPlaying == old(appPlaying)
                && unchanged(this`foreignTimelines, this`measurement, this`pending)
      ensures ps.session == Some(old(session)) ==>
                && CoreView() == Gossiped(old(CoreView()), ps)
                && unchanged(this`foreignTimelines, this`measurement, this`pending)
                && appPlaying == (if ps.startStop.Some? && heldStst != old(heldStst) && sstSync
                                     && heldStst != DEFAULT_START_STOP
                                  then heldStst.isPlaying else old(appPlaying))
      ensures ps.session.Some? && ps.session.value != old(session) ==>
                && appPlaying == old(appPlaying)
                && ForeignHandled(task, gw, ps.session.value, ps, peers, gateways, clock,
                                  old(CoreView()), old(foreignTimelines), old(measurement), old(pending),
                                  CoreView(), foreignTimelines, measurement, pending)
      ensures JoinTimer(old(session), session, old(nextRemeasureAt), nextRemeasureAt, old(clock), clock)
    {
      hide TasksOk, NetOk, Spaced, CoreOk, Gossiped, Sound, Told, CoreView, NetView, ForeignHandled;
      var now := Now();
      at, task := now, None;
      AddPeer(peer, gw, PeerEntry(ps, now + ttl * 1_000_000));
      if ps.session.None? {
        return;
      }
      var sess := ps.session.value;
      if sess == session {
        MergeGossip(ps);
      } else {
        task := ForeignGossip(gw, sess, ps);
      }
    }

    /** Gossip from another session: its timeline is cached; a measured session is put
        to the join rule, another one queued for measurement. */
    method ForeignGossip(gw: nat, sess: Id, ps: PeerState) returns (ghost task: Option<Task>)
      requires Valid() && gw in gateways && sess != session
      modifies this`foreignTimelines, this`measurement, this`pending
      modifies this`session, this`ghostOffset, this`timeline, this`heldStst, this`sessionMemberSeen, this`measured,
               this`nextRemeasureAt
      modifies this`clock, this`lastAliveAt, this`lastBroadcastAt, this`broadcastDue, this`rounds, this`lastSent
      ensures Valid() && clock >= old(clock) && NetView() == old(NetView())
      ensures ForeignHandled(task, gw, sess, ps, peers, gateways, clock,
                             old(CoreView()), old(foreignTimelines), old(measurement), old(pending),
                             CoreView(), foreignTimelines, measurement, pending)
      ensures JoinTimer(old(session), session, old(nextRemeasureAt), nextRemeasureAt, old(clock), clock)
    {
      hide Sound, Told, NetView, JoinQueued, Cached, Evaluated;
      task := None;
      CacheForeign(sess, ps.timeline);
      if sess in measured {
        EvaluateJoin(sess, measured[sess]);
      } else {
        task := QueueMeasurement(gw, sess, ps);
      }
    }

    /** A foreign session's timeline is cached under the same priority rule. */
    method CacheForeign(sess: Id, tl: Option<Timeline>)
      requires Valid()
      modifies this`foreignTimelines
      ensures Valid() && CoreView() == old(CoreView()) && NetView() == old(NetView())
      ensures foreignTimelines == Cached(old(foreignTimelines), sess, tl)
    {
      hide TasksOk, NetOk, Spaced, CoreOk;
      if tl.Some? && (sess !in foreignTimelines || tl.value.beatOrigin > foreignTimelines[sess].beatOrigin) {
        foreignTimelines := foreignTimelines[sess := tl.value];
      }
    }

    method AddPeer(peer: Id, gw: nat, entry: PeerEntry)
      requires Valid() && enabled && gw in gateways
      modifies this`peers
      ensures Valid() && peers == old(peers)[(peer, gw) := entry] && CoreView() == old(CoreView())
      ensures NetView() == old(NetView()).(peers := peers)
    {
      peers := peers[(peer, gw) := entry];
      forall k | k in known ensures Present(peers, known[k].peer) {
        assert Present(old(peers), known[k].peer);
        var p :| p in old(peers) && p.0 == known[k].peer;
        assert p in peers;
      }
    }

    /** Gossip within the session: the greater beat origin and the later transport
        action win, and every win is relayed. */
    method MergeGossip(ps: PeerState)
      requires Valid() && enabled
      modifies this`timeline, this`heldStst, this`appPlaying, this`sessionMemberSeen
      modifies this`clock, this`lastAliveAt, this`lastBroadcastAt, this`broadcastDue, this`rounds, this`lastSent
      ensures Valid() && clock >= old(clock) && NetView() == old(NetView())
      ensures CoreView() == Gossiped(old(CoreView()), ps)
      ensures appPlaying == (if ps.startStop.Some? && heldStst != old(heldStst) && sstSync
                                && heldStst != DEFAULT_START_STOP
                             then heldStst.isPlaying else old(appPlaying))
    {
      hide TasksOk, NetOk, Spaced, CoreOk, Sound, Told, NetView;
      MeetMember();
      if ps.timeline.Some? {
        AdoptTimeline(ps.timeline.value);
      }
      if ps.startStop.Some? {
        AdoptTransport(ps.startStop.value);
      }
    }

    method MeetMember()
      requires Valid() && enabled
      modifies this`sessionMemberSeen
      ensures Valid() && sessionMemberSeen && NetView() == old(NetView())
    {
      hide TasksOk, NetOk, Spaced;
      sessionMemberSeen := true;
    }

    /** A strictly greater beat origin wins; its tempo is clamped on the way in. */
    method AdoptTimeline(tl: Timeline)
      requires Valid() && enabled
      modifies this`timeline
      modifies this`clock, this`lastAliveAt, this`lastBroadcastAt, this`broadcastDue, this`rounds, this`lastSent
      ensures Valid() && clock >= old(clock) && NetView() == old(NetView())
      ensures timeline == MergeTimeline(old(timeline), tl)
    {
      hide TasksOk, NetOk, Spaced;
      if tl.beatOrigin > timeline.beatOrigin {
        timeline := Timeline(BeatGrid.ClampTempo(tl.tempo), tl.beatOrigin, tl.timeOrigin);
        ScheduleBroadcast();
      }
    }

    /** The later transport action wins. */
    method AdoptTransport(stst: StartStopState)
      requires Valid() && enabled
      modifies this`heldStst, this`appPlaying
      modifies this`clock, this`lastAliveAt, this`lastBroadcastAt, this`broadcastDue, this`rounds, this`lastSent
      ensures Valid() && clock >= old(clock) && NetView() == old(NetView())
      ensures heldStst == MergeStartStop(old(heldStst), stst)
      ensures appPlaying == if heldStst != old(heldStst) && sstSync && heldStst != DEFAULT_START_STOP
                            then heldStst.isPlaying else old(appPlaying)
    {
      hide TasksOk, NetOk, Spaced;
      if stst.timestamp > heldStst.timestamp {
        heldStst := stst;
        if sstSync && stst != DEFAULT_START_STOP {
          appPlaying := stst.isPlaying;
        }
        ScheduleBroadcast();
      }
    }

    /** A ByeBye admitted on a gateway. */
    method ProcessByeBye(gw: nat, peer: Id, freshId: Id)
      requires Valid() && enabled && peer != node && Fresh(freshId)
      modifies this`peers, this`known, this`paths
      modifies this`node, this`session, this`ghostOffset, this`timeline, this`heldStst, this`sessionMemberSeen,
               this`measured, this`nextRemeasureAt
      modifies this`clock, this`lastAliveAt, this`lastBroadcastAt, this`broadcastDue, this`rounds, this`lastSent
      ensures Valid() && clock >= old(clock)
      ensures NetView() == Departed(old(NetView()), peer, gw)
      ensures LossHandled(old(CoreView()), peers, freshId, old(clock), clock, CoreView())
      ensures nextRemeasureAt == if session == old(session) then old(nextRemeasureAt) else None
    {
      hide LossHandled, Departed, Sound, Told, HasTask;
      RemovePeer(gw, peer);
      CheckSessionLoss(freshId);
    }

    /** The departed node's entry on that gateway goes, its channels and paths on all. */
    method RemovePeer(gw: nat, peer: Id)
      requires Valid() && enabled
      modifies this`peers, this`known, this`paths
      ensures Valid() && NetView() == Departed(old(NetView()), peer, gw) && CoreView() == old(CoreView())
    {
      hide TasksOk, NetOk, Spaced, CoreOk;
      DepartedExactly(NetView(), peer, gw);
      peers := peers - {(peer, gw)};
      PeerLeft(peer);
    }

    /** A departed publisher's channels and paths disappear. */
    method PeerLeft(peer: Id)
      modifies this`known, this`paths
      ensures NetView() == Left(old(NetView()), peer)
    {
      known := map k | k in known && known[k].peer != peer :: known[k];
      paths := set k | k in paths && k.0 != peer;
    }

    // ---------------------------------------------------- session election

    /** The session fields change together. */
    method SetSession(sess: Id, tl: Timeline, offset: int, held: StartStopState, seen: bool, clocks: map<Id, int>)
      modifies this`session, this`timeline, this`ghostOffset, this`heldStst, this`sessionMemberSeen, this`measured
      ensures CoreView() == Core(node, sess, tl, offset, held, seen, clocks)
    {
      session, timeline, ghostOffset := sess, tl, offset;
      heldStst, sessionMemberSeen, measured := held, seen, clocks;
    }

    /** Join a measured session if the rule says so. */
    method EvaluateJoin(sess: Id, offset: int)
      requires Valid() && sess in measured && measured[sess] == offset
      modifies this`session, this`ghostOffset, this`timeline, this`heldStst, this`sessionMemberSeen, this`measured,
               this`nextRemeasureAt
      modifies this`clock, this`lastAliveAt, this`lastBroadcastAt, this`broadcastDue, this`rounds, this`lastSent
      ensures Valid() && clock >= old(clock) && NetView() == old(NetView())
      ensures CoreView() == Evaluated(old(CoreView()), sess, offset, foreignTimelines)
      ensures JoinTimer(old(session), session, old(nextRemeasureAt), nextRemeasureAt, old(clock), clock)
    {
      hide TasksOk, NetOk, Told, CoreOk, NetView, BeaconOk, Idle, Routed, Election.Beats, Reclamp;
      EvaluatedKeeps(CoreView(), sess, offset, foreignTimelines, measurement, pending);
      var join := JoinRule(sess, offset);
      if !join {
        return;
      }
      SwitchSession(sess, offset);
      RemeasureLater();
      ScheduleBroadcast();
    }

    /** The greater ghost time wins; within the band, the lesser id. */
    method JoinRule(sess: Id, offset: int) returns (join: bool)
      ensures join == Election.Beats(Election.Candidate(sess, offset), Election.Candidate(session, ghostOffset))
      ensures join ==> sess != session
    {
      if sess == session {
        return false;
      }
      var diff := offset - ghostOffset;
      return diff > Election.JOIN_EPSILON || (BeatGrid.Abs(diff) < Election.JOIN_EPSILON && LexLess(sess, session));
    }

    /** The abandoned session is retained with its transform; the cached timeline of
        the joined one is adopted, and the transport reset. */
    method SwitchSession(sess: Id, offset: int)
      requires Sound()
      requires CoreOk(Joined(CoreView(), sess, offset, foreignTimelines))
      requires TasksOk(measurement, pending, sess, measured[session := ghostOffset])
      modifies this`session, this`ghostOffset, this`timeline, this`heldStst, this`sessionMemberSeen, this`measured
      ensures Sound() && NetView() == old(NetView())
      ensures CoreView() == Joined(old(CoreView()), sess, offset, foreignTimelines)
    {
      hide TasksOk, NetOk, CoreOk, NetView, BeaconOk, Idle, Routed;
      var tl := timeline;
      if sess in foreignTimelines {
        var cached := foreignTimelines[sess];
        tl := Timeline(BeatGrid.ClampTempo(cached.tempo), cached.beatOrigin, cached.timeOrigin);
      }
      SetSession(sess, tl, offset, DEFAULT_START_STOP, true, measured[session := ghostOffset]);
    }

    /** Found a fresh session, continuing the local beat. */
    method ResetSession(freshId: Id)
      requires Valid() && Fresh(freshId)
      modifies this`node, this`session, this`ghostOffset, this`timeline, this`heldStst, this`sessionMemberSeen,
               this`measured, this`nextRemeasureAt
      modifies this`clock, this`lastAliveAt, this`lastBroadcastAt, this`broadcastDue, this`rounds, this`lastSent
      ensures Valid() && clock >= old(clock) && nextRemeasureAt == None && NetView() == old(NetView())
      ensures old(rounds) <= rounds
      ensures Between(old(clock), -ghostOffset, clock)
      ensures CoreView() == Refounded(old(CoreView()), freshId, -ghostOffset)
    {
      hide TasksOk, NetOk, Told, CoreOk, NetView, BeaconOk, Idle, Routed, HasTask, BeatGrid.Refound;
      var now := Now();
      RefoundedKeeps(CoreView(), freshId, now, measurement, pending);
      FoundSession(freshId, now);
      nextRemeasureAt := None;
      ScheduleBroadcast();
    }

    /** A new node identity and transform, the timeline and transport continued at
        the current beat. */
    method FoundSession(freshId: Id, now: int)
      requires Sound() && timeline.tempo > 0
      requires CoreOk(Refounded(CoreView(), freshId, now))
      requires TasksOk(measurement, pending, freshId, measured[session := ghostOffset])
      modifies this`node, this`session, this`ghostOffset, this`timeline, this`heldStst, this`sessionMemberSeen,
               this`measured
      ensures Sound() && CoreView() == Refounded(old(CoreView()), freshId, now)
    {
      hide TasksOk, NetOk, CoreOk, BeatGrid.BeatsAtGhost, NetView, BeaconOk, Idle, Routed;
      var beatsNow := BeatGrid.BeatsAtGhost(timeline, now + ghostOffset);
      node := freshId;
      SetSession(freshId, Timeline(timeline.tempo, beatsNow, 0), -now,
                 StartStopState(heldStst.isPlaying, beatsNow, 0), false, measured[session := ghostOffset]);
    }

    /** The last fellow member gone: found a fresh session. */
    method CheckSessionLoss(freshId: Id)
      requires Valid() && Fresh(freshId)
      modifies this`node, this`session, this`ghostOffset, this`timeline, this`heldStst, this`sessionMemberSeen,
               this`measured, this`nextRemeasureAt
      modifies this`clock, this`lastAliveAt, this`lastBroadcastAt, this`broadcastDue, this`rounds, this`lastSent
      ensures Valid() && clock >= old(clock) && NetView() == old(NetView())
      ensures LossHandled(old(CoreView()), peers, freshId, old(clock), clock, CoreView())
      ensures old(rounds) <= rounds && (node == old(node) ==> broadcastDue == old(broadcastDue))
      ensures nextRemeasureAt == if session == old(session) then old(nextRemeasureAt) else None
    {
      hide TasksOk, NetOk, Spaced, HasTask;
      if !sessionMemberSeen {
        return;
      }
      if !HasMember(peers, session) {
        ResetSession(freshId);
      }
    }

    // ---------------------------------------------------------- measurement

    /** Queue a join measurement unless the session has a task: towards its founder
        if visible, else the gossiping peer. */
    method QueueMeasurement(gw: nat, sess: Id, ps: PeerState) returns (ghost task: Option<Task>)
      requires Valid() && gw in gateways && sess != session && sess !in measured
      modifies this`measurement, this`pending, this`clock
      ensures Valid() && clock >= old(clock) && CoreView() == old(CoreView()) && NetView() == old(NetView())
      ensures JoinQueued(task, sess, gw, ps, peers, gateways, clock,
                         old(measurement), old(pending), measurement, pending)
    {
      hide NetOk, Spaced, CoreOk, TasksOk, Started;
      task := None;
      if HasTask(measurement, pending, sess) {
        return;
      }
      var target, via;
      if FounderVisible(peers, sess) {
        var k :| k in peers && k.0 == sess && peers[k].state.measurementEndpoint.Some?;
        target, via := peers[k].state.measurementEndpoint.value, k.1;
        assert k == (sess, via);
        GatewayOfPeer(k);
      } else if ps.measurementEndpoint.Some? {
        target, via := ps.measurementEndpoint.value, gw;
      } else {
        return;
      }
      var t := Task(sess, target, via, Join);
      task := Some(t);
      Enqueue(t);
      StartNextMeasurement();
    }

    lemma GatewayOfPeer(k: (Id, nat))
      requires Valid() && k in peers
      ensures k.1 in gateways
    {
    }

    method Enqueue(t: Task)
      requires Valid() && TaskOk(t, session, measured) && t.gateway in gateways
               && !HasTask(measurement, pending, t.session)
      modifies this`pending
      ensures Valid() && pending == old(pending) + [t]
      ensures CoreView() == old(CoreView()) && NetView() == old(NetView())
    {
      hide NetOk, Spaced, CoreOk, TasksOk;
      EnqueuedKeeps(measurement, pending, session, measured, t);
      pending := pending + [t];
      assert enabled by {
        GatewaysWhenEnabled(t.gateway);
      }
    }

    lemma GatewaysWhenEnabled(gw: nat)
      requires Valid() && gw in gateways
      ensures enabled
    {
    }

    method StartNextMeasurement()
      requires Valid()
      modifies this`measurement, this`pending, this`clock
      ensures Valid() && clock >= old(clock) && CoreView() == old(CoreView()) && NetView() == old(NetView())
      ensures (measurement, pending) == Started(old(measurement), old(pending), gateways, clock)
    {
      hide NetOk, Spaced, CoreOk, TasksOk;
      if measurement.Some? || pending == [] {
        return;
      }
      ghost var queue := pending;
      var task := pending[0];
      pending := pending[1..];
      if task.gateway !in gateways {
        StartedKeeps(None, queue, gateways, clock, session, measured);
        return;
      }
      var now := Now();
      StartedKeeps(None, queue, gateways, now, session, measured);
      measurement := Some(Measurement(task, [], 0, now + MEASUREMENT_RETRY));
    }

    /** A pong: only the measured endpoint's count; one naming another session fails
        the measurement; otherwise its samples are added, and enough of them finish
        it. Until then the next ping is chained. */
    method HandlePong(gw: nat, src: Endpoint, pongSession: Id, gt: int, pht: Option<int>, pgt: Option<int>)
      returns (chain: Option<Sync.Times>, ghost at: int, ghost sorted: seq<int>)
      requires Valid() && enabled
      modifies this`session, this`ghostOffset, this`timeline, this`heldStst, this`sessionMemberSeen, this`measured,
               this`nextRemeasureAt, this`measurement, this`pending
      modifies this`clock, this`lastAliveAt, this`lastBroadcastAt, this`broadcastDue, this`rounds, this`lastSent
      ensures Valid() && clock >= old(clock)
      ensures !old(Measuring(measurement, gw, src)) ==>
                CoreView() == old(CoreView()) && unchanged(this`measurement, this`pending, this`nextRemeasureAt)
      ensures old(Measuring(measurement, gw, src)) && pongSession != old(measurement).value.task.session ==>
                && CoreView() == old(CoreView())
                && (measurement, pending) == Started(None, old(pending), gateways, clock)
                && FailedTimer(old(measurement).value.task.purpose, old(nextRemeasureAt), nextRemeasureAt,
                               old(clock), clock)
      ensures old(clock) <= at <= clock
      ensures chain == ChainedPing(old(measurement), gw, src, pongSession, gt, pht, pgt, at, gateways)
      ensures old(Measuring(measurement, gw, src)) && pongSession == old(measurement).value.task.session ==>
                PongHandled(old(measurement).value, gt, pht, pgt, at, sorted,
                            old(CoreView()), old(pending), foreignTimelines, gateways, clock,
                            CoreView(), measurement, pending)
                && PongTimer(old(measurement).value, gt, pht, pgt, at, old(session), session,
                             old(nextRemeasureAt), nextRemeasureAt, old(clock), clock)
    {
      hide NetOk, Spaced, CoreOk, Started, Concluded, Ordering, CoreView, NetView, Sound, Told, BeaconOk;
      hide ClockEstimate.MedianOf, ClockEstimate.SamplesFrom;
      var now := Now();
      chain, at, sorted := None, now, [];
      if measurement.None? || measurement.value.task.gateway != gw || measurement.value.task.target != src {
        return;
      }
      var m := TakeMeasurement();
      if pongSession != m.task.session {
        MeasurementFailed(m.task);
        return;
      }
      var added := ClockEstimate.CollectSamples(gt, now, pht, pgt);
      var samples := m.samples + added;
      if |samples| > Sync.SAMPLES_REQUIRED {
        var offset;
        offset, sorted := Median(samples);
        MeasurementSucceeded(m.task, offset);
      } else {
        KeepMeasurement(m.(samples := samples, retryDeadline := now + MEASUREMENT_RETRY));
        if m.task.gateway in gateways {
          chain := Some(Sync.Times(Some(now), Some(gt)));
        }
      }
    }

    /** Take the measurement in flight. */
    method TakeMeasurement() returns (m: Measurement)
      requires Valid() && measurement.Some?
      modifies this`measurement
      ensures Valid() && CoreView() == old(CoreView()) && NetView() == old(NetView())
      ensures Some(m) == old(measurement) && measurement == None && enabled
      ensures TaskOk(m.task, session, measured) && !Queued(pending, m.task.session) && WithinBudget(m)
    {
      hide NetOk, Spaced, CoreOk;
      m := measurement.value;
      measurement := None;
    }

    /** Put it back, within its budget. */
    method KeepMeasurement(m: Measurement)
      requires Valid() && measurement.None? && enabled
      requires TaskOk(m.task, session, measured) && !Queued(pending, m.task.session) && WithinBudget(m)
      modifies this`measurement
      ensures Valid() && CoreView() == old(CoreView()) && NetView() == old(NetView()) && measurement == Some(m)
    {
      hide NetOk, Spaced, CoreOk;
      measurement := Some(m);
    }

    /** The rounded median of the samples. */
    method Median(samples: seq<int>) returns (offset: int, ghost sorted: seq<int>)
      requires samples != []
      ensures Ordering(samples, sorted) && offset == ClockEstimate.MedianOf(sorted)
    {
      var a := new int[|samples|](i requires 0 <= i < |samples| => samples[i]);
      assert a[..] == samples;
      offset := ClockEstimate.MedianRound(a);
      sorted := a[..];
    }

    /** Retain the result and use it: a join measurement is put to the join rule, a
        re-measurement corrects the current session's offset. */
    method MeasurementSucceeded(task: Task, offset: int)
      requires Valid() && enabled && measurement.None? && TaskOk(task, session, measured)
               && !Queued(pending, task.session)
      modifies this`session, this`ghostOffset, this`timeline, this`heldStst, this`sessionMemberSeen, this`measured,
               this`nextRemeasureAt, this`measurement, this`pending
      modifies this`clock, this`lastAliveAt, this`lastBroadcastAt, this`broadcastDue, this`rounds, this`lastSent
      ensures Valid() && clock >= old(clock) && NetView() == old(NetView())
      ensures CoreView() == Concluded(old(CoreView()), task, offset, foreignTimelines)
      ensures ConcludedTimer(task.purpose, old(session), session, old(nextRemeasureAt), nextRemeasureAt,
                             old(clock), clock)
      ensures (measurement, pending) == Started(None, old(pending), gateways, clock)
    {
      hide Sound, Told, Started, Evaluated, NetView;
      Retain(task, offset);
      if task.purpose == Join {
        EvaluateJoin(task.session, offset);
      } else {
        RemeasureLater();
      }
      StartNextMeasurement();
    }

    method Retain(task: Task, offset: int)
      requires Valid() && enabled && measurement.None? && TaskOk(task, session, measured)
               && !Queued(pending, task.session)
      modifies this`ghostOffset, this`measured
      ensures Valid() && NetView() == old(NetView()) && CoreView() == Retained(old(CoreView()), task, offset)
    {
      hide NetOk, CoreOk, TasksOk, NetView, BeaconOk, Idle, Routed;
      RetainedKeeps(CoreView(), task, offset, pending);
      measured := measured[task.session := offset];
      if task.purpose == Remeasure && session == task.session {
        ghostOffset := offset;
      }
    }

    method RemeasureLater()
      requires Sound()
      modifies this`nextRemeasureAt, this`clock
      ensures Sound() && (old(Valid()) ==> Valid()) && clock >= old(clock)
      ensures CoreView() == old(CoreView()) && NetView() == old(NetView())
      ensures Rearmed(nextRemeasureAt, old(clock), clock)
    {
      hide NetOk, Spaced, CoreOk, TasksOk;
      var now := Now();
      nextRemeasureAt := Some(now + REMEASURE_PERIOD);
    }

    /** A failed join measurement is forgotten; a re-measurement is tried again
        later. */
    method MeasurementFailed(task: Task)
      requires Valid() && measurement.None?
      modifies this`nextRemeasureAt, this`measurement, this`pending, this`clock
      ensures Valid() && clock >= old(clock) && CoreView() == old(CoreView()) && NetView() == old(NetView())
      ensures (measurement, pending) == Started(None, old(pending), gateways, clock)
      ensures FailedTimer(task.purpose, old(nextRemeasureAt), nextRemeasureAt, old(clock), clock)
    {
      hide Sound, Told, Started, CoreView, NetView;
      if task.purpose == Remeasure {
        RemeasureLater();
      }
      StartNextMeasurement();
    }

    // -------------------------------------------------------------- gateways

    /** Open a gateway; its id was never used before. */
    method OpenGateway() returns (id: nat)
      requires Valid() && enabled
      modifies this`gateways, this`nextGatewayId
      ensures Valid() && id == old(nextGatewayId) && id !in old(gateways)
      ensures gateways == old(gateways) + {id} && nextGatewayId == id + 1
    {
      id := nextGatewayId;
      nextGatewayId := nextGatewayId + 1;
      gateways := gateways + {id};
    }

    /** Close a gateway, whatever the cause: what was learned through it goes, queued
        measurements through it are dropped, and losing the last session member
        founds a fresh session. Says bye first, under the identity it had. */
    method CloseGateway(id: nat, freshId: Id) returns (bye: Option<Id>)
      requires Valid() && enabled && Fresh(freshId)
      modifies this`gateways, this`peers, this`known, this`paths, this`pending
      modifies this`node, this`session, this`ghostOffset, this`timeline, this`heldStst, this`sessionMemberSeen,
               this`measured, this`nextRemeasureAt
      modifies this`clock, this`lastAliveAt, this`lastBroadcastAt, this`broadcastDue, this`rounds, this`lastSent
      ensures Valid() && clock >= old(clock)
      ensures NetView() == Closed(old(NetView()), id)
      ensures bye == if id in old(gateways) then Some(old(node)) else None
      ensures pending == WithoutGateway(old(pending), id)
      ensures LossHandled(old(CoreView()), peers, freshId, old(clock), clock, CoreView())
      ensures nextRemeasureAt == if session == old(session) then old(nextRemeasureAt) else None
    {
      hide LossHandled, Closed, Sound, Told, HasTask, CoreView, NetView;
      bye := if id in gateways then Some(node) else None;
      RemoveGateway(id);
      CheckSessionLoss(freshId);
    }

    method RemoveGateway(id: nat)
      requires Valid() && enabled
      modifies this`gateways, this`peers, this`known, this`paths, this`pending
      ensures Valid() && CoreView() == old(CoreView()) && NetView() == Closed(old(NetView()), id)
      ensures pending == WithoutGateway(old(pending), id)
      ensures forall sess :: HasTask(measurement, pending, sess) ==> old(HasTask(measurement, pending, sess))
    {
      hide NetOk, Spaced, CoreOk, TasksOk, Closed;
      ClosedExactly(NetView(), id);
      WithoutGatewayKeeps(measurement, pending, session, measured, gateways, id);
      RemoveLearned(id);
      DropTasks(id);
    }

    /** Queued tasks through the gateway are dropped; the others keep their order. */
    method DropTasks(id: nat)
      modifies this`pending
      ensures pending == WithoutGateway(old(pending), id)
    {
      var kept, i := [], 0;
      while i < |pending|
        invariant 0 <= i <= |pending| && kept + WithoutGateway(pending[i..], id) == WithoutGateway(pending, id)
      {
        if pending[i].gateway != id {
          kept := kept + [pending[i]];
        }
        i := i + 1;
      }
      pending := kept;
    }

    /** What was learned through the gateway goes with it. */
    method RemoveLearned(id: nat)
      modifies this`gateways, this`peers, this`known, this`paths
      ensures NetView() == Closed(old(NetView()), id)
    {
      var lost := set k | k in peers && k.1 == id :: k.0;
      gateways := gateways - {id};
      peers := map k | k in peers && k.1 != id :: peers[k];
      known := map k | k in known && k.1 != id :: known[k];
      paths := set k | k in paths && k.1 != id;
      ForgetAbsent(lost);
    }

    /** Forget those of the lost that have no entry left. */
    method ForgetAbsent(lost: set<Id>)
      modifies this`known, this`paths
      ensures NetView() == Forgotten(old(NetView()), lost)
    {
      hide Forgotten, Left;
      ForgottenNobody(NetView());
      var rest := lost;
      assert lost - rest == {};
      while rest != {}
        invariant rest <= lost
        invariant NetView() == Forgotten(old(NetView()), lost - rest)
        decreases |rest|
      {
        var peer :| peer in rest;
        ghost var done := lost - rest;
        rest := rest - {peer};
        assert lost - rest == done + {peer};
        ForgottenStep(old(NetView()), done, peer);
        if !Present(peers, peer) {
          PeerLeft(peer);
        }
      }
      assert lost - rest == lost;
    }

    // ---------------------------------------------------- enable and disable

    /** Join the network under a fresh identity; `opens` says which gateways open. The
        first Alive goes out at once. */
    method Enable(freshId: Id, opens: seq<bool>)
      requires Valid()
      modifies this`clock, this`enabled, this`epoch, this`node, this`session, this`ghostOffset, this`timeline,
               this`heldStst, this`sessionMemberSeen, this`foreignTimelines, this`measured, this`measurement,
               this`pending, this`gateways, this`nextGatewayId, this`lastAliveAt, this`lastBroadcastAt,
               this`nextRemeasureAt, this`rounds, this`lastSent
      ensures Valid() && enabled && clock >= old(clock)
      ensures old(enabled) ==> unchanged(this)
      ensures !old(enabled) ==>
                && epoch == old(epoch) + 1 && Between(old(clock), -ghostOffset, clock)
                && CoreView() == Core(freshId, freshId, Timeline(old(timeline).tempo, 0, 0), ghostOffset,
                                      DEFAULT_START_STOP, false, map[])
                && foreignTimelines == map[] && measurement.None? && pending == [] && peers == map[]
                && nextRemeasureAt == None && broadcastDue == None
                && nextGatewayId == old(nextGatewayId) + Opened(opens)
                && (forall g :: g in gateways <==> old(nextGatewayId) <= g < nextGatewayId)
                && rounds == [-ghostOffset] && lastSent == Current()
    {
      hide Valid, Sound, Told, CoreView, NetView;
      if !enabled {
        JoinNetwork(freshId, opens);
      }
    }

    method JoinNetwork(freshId: Id, opens: seq<bool>)
      requires Valid() && !enabled
      modifies this`clock, this`enabled, this`epoch, this`node, this`session, this`ghostOffset, this`timeline,
               this`heldStst, this`sessionMemberSeen, this`foreignTimelines, this`measured, this`measurement,
               this`pending, this`gateways, this`nextGatewayId, this`lastAliveAt, this`lastBroadcastAt,
               this`nextRemeasureAt, this`rounds, this`lastSent
      ensures Valid() && enabled && clock >= old(clock)
      ensures epoch == old(epoch) + 1 && Between(old(clock), -ghostOffset, clock)
      ensures CoreView() == Core(freshId, freshId, Timeline(old(timeline).tempo, 0, 0), ghostOffset,
                                 DEFAULT_START_STOP, false, map[])
      ensures foreignTimelines == map[] && measurement.None? && pending == [] && peers == map[]
      ensures nextRemeasureAt == None && broadcastDue == None
      ensures nextGatewayId == old(nextGatewayId) + Opened(opens)
      ensures forall g :: g in gateways <==> old(nextGatewayId) <= g < nextGatewayId
      ensures rounds == [-ghostOffset] && lastSent == Current()
    {
      hide Valid, Sound, Told, Quiet, Ready, CoreView, NetView, Current;
      var now := Now();
      ClearTasks();
      RenewSession(freshId, now);
      OpenAll(opens);
      FirstAlive(now);
    }

    /** The first Alive of an epoch goes out at once. */
    method FirstAlive(now: int)
      requires Ready() && now == clock
      modifies this`enabled, this`epoch, this`lastAliveAt, this`lastBroadcastAt, this`rounds, this`lastSent
      ensures Valid() && enabled && epoch == old(epoch) + 1 && rounds == [now] && lastSent == Current()
      ensures CoreView() == old(CoreView()) && measurement.None? && pending == [] && peers == map[]
      ensures broadcastDue == None
    {
      hide TasksOk, NetOk, CoreOk;
      StartEpoch(now);
    }

    method StartEpoch(now: int)
      modifies this`enabled, this`epoch, this`lastAliveAt, this`lastBroadcastAt, this`rounds, this`lastSent
      ensures enabled && epoch == old(epoch) + 1 && lastAliveAt == lastBroadcastAt == now
      ensures rounds == [now] && lastSent == Current()
    {
      enabled, epoch := true, epoch + 1;
      lastAliveAt, lastBroadcastAt := now, now;
      rounds, lastSent := [now], Current();
    }

    /** No measurement in flight or queued, nor any due. */
    method ClearTasks()
      requires Valid()
      modifies this`measurement, this`pending, this`nextRemeasureAt
      ensures Valid() && Sound() && CoreView() == old(CoreView()) && NetView() == old(NetView())
      ensures measurement.None? && pending == [] && nextRemeasureAt == None
    {
      hide Spaced, NetOk, CoreOk;
      measurement, pending, nextRemeasureAt := None, [], None;
    }

    /** Enabling imports no prior session state but the tempo. */
    method RenewSession(freshId: Id, now: int)
      requires Sound() && !enabled
      modifies this`node, this`session, this`ghostOffset, this`timeline, this`heldStst, this`sessionMemberSeen,
               this`foreignTimelines, this`measured
      ensures Quiet() && NetView() == old(NetView()) && foreignTimelines == map[] && ghostOffset == -now
      ensures CoreView() == Core(freshId, freshId, Timeline(old(timeline).tempo, 0, 0), -now,
                                 DEFAULT_START_STOP, false, map[])
    {
      hide NetOk, NetView, Spaced;
      node := freshId;
      SetSession(freshId, Timeline(timeline.tempo, 0, 0), -now, DEFAULT_START_STOP, false, map[]);
      foreignTimelines := map[];
    }

    /** Gateways that fail to open use up no id. */
    method OpenAll(opens: seq<bool>)
      requires Quiet()
      modifies this`gateways, this`nextGatewayId
      ensures Ready() && CoreView() == old(CoreView())
      ensures nextGatewayId == old(nextGatewayId) + Opened(opens)
      ensures forall g :: g in gateways <==> old(nextGatewayId) <= g < nextGatewayId
    {
      hide CoreOk, TasksOk;
      for i := 0 to |opens|
        invariant nextGatewayId == old(nextGatewayId) + Opened(opens[..i])
        invariant forall g :: g in gateways <==> old(nextGatewayId) <= g < nextGatewayId
      {
        assert opens[..i + 1][..i] == opens[..i];
        if opens[i] {
          gateways := gateways + {nextGatewayId};
          nextGatewayId := nextGatewayId + 1;
        }
      }
      assert opens[..|opens|] == opens;
    }

    /** Leave the network and forget everyone. */
    method Disable()
      requires Valid()
      modifies this`measurement, this`pending, this`nextRemeasureAt, this`audio, this`known, this`paths
      modifies this`enabled, this`epoch, this`gateways, this`peers, this`broadcastDue, this`sessionMemberSeen
      ensures Valid() && !enabled && Idle()
      ensures !old(enabled) ==> unchanged(this)
      ensures old(enabled) ==> epoch == old(epoch) + 1 && !audio && !sessionMemberSeen && nextRemeasureAt == None
    {
      hide Valid, Sound, Told, CoreView, NetView, Idle;
      if enabled {
        ForgetEverything();
      } else {
        DisabledIsIdle();
      }
    }

    lemma DisabledIsIdle()
      requires Valid() && !enabled
      ensures Idle()
    {
    }

    method ForgetEverything()
      requires Valid() && enabled
      modifies this`measurement, this`pending, this`nextRemeasureAt, this`audio, this`known, this`paths
      modifies this`enabled, this`epoch, this`gateways, this`peers, this`broadcastDue, this`sessionMemberSeen
      ensures Valid() && !enabled && Idle() && epoch == old(epoch) + 1
      ensures !audio && !sessionMemberSeen && nextRemeasureAt == None
    {
      hide Valid, Sound, Told, CoreView, NetView, Idle;
      ClearTasks();
      ShutAudio();
      LeaveNetwork();
    }

    method LeaveNetwork()
      requires Sound() && !audio && measurement.None? && pending == []
      modifies this`enabled, this`epoch, this`gateways, this`peers, this`broadcastDue, this`sessionMemberSeen
      ensures Valid() && !enabled && Idle() && !sessionMemberSeen && epoch == old(epoch) + 1
    {
      hide Spaced, TasksOk;
      ClearNetwork();
    }

    method ClearNetwork()
      modifies this`enabled, this`epoch, this`gateways, this`peers, this`broadcastDue, this`sessionMemberSeen
      ensures !enabled && epoch == old(epoch) + 1 && gateways == {} && peers == map[] && broadcastDue.None?
      ensures !sessionMemberSeen
    {
      enabled, epoch, gateways, peers, broadcastDue := false, epoch + 1, {}, map[], None;
      sessionMemberSeen := false;
    }

    /** The audio directory goes with LinkAudio. */
    method ShutAudio()
      requires Sound()
      modifies this`audio, this`known, this`paths
      ensures Sound() && !audio && known == map[] && paths == {} && CoreView() == old(CoreView())
    {
      hide Spaced, TasksOk, CoreOk;
      audio, known, paths := false, map[], {};
    }

    // ---------------------------------------------------------- housekeeping

    /** What a pass may have to wake for again. */
    ghost function TimersView(): Timers
      reads `lastAliveAt, `broadcastDue, `peers, `measurement, `nextRemeasureAt, `known
    {
      Timers(lastAliveAt, broadcastDue, PeerDeadlines(peers).Values, RetryDeadline(measurement), nextRemeasureAt,
             ChannelDeadlines(known).Values)
    }

    /** One housekeeping pass: periodic and delayed broadcasts, peer pruning, the
        measurement retry and re-measurement timers, and channel timeouts. Returns the
        next instant to run at; the other audio timers want to run at `others`. */
    method HousekeepingPass(freshId: Id, others: int) returns (next: int, ghost pass: Pass)
      requires Valid() && Fresh(freshId)
      modifies this`peers, this`known, this`paths, this`measurement, this`pending
      modifies this`node, this`session, this`ghostOffset, this`timeline, this`heldStst, this`sessionMemberSeen,
               this`measured, this`nextRemeasureAt
      modifies this`clock, this`lastAliveAt, this`lastBroadcastAt, this`broadcastDue, this`rounds, this`lastSent
      ensures Valid() && old(clock) <= pass.now <= clock
      ensures !enabled ==> CoreView() == old(CoreView()) && NetView() == old(NetView()) && rounds == old(rounds)
                           && next == pass.now + ALIVE_PERIOD
      ensures enabled ==>
                && LossUnless(!PruneDue(old(peers), pass.now), old(CoreView()), peers, freshId,
                              pass.now, clock, CoreView())
                && TimersRan(pass, old(NetView()), old(measurement), old(pending), old(nextRemeasureAt), old(session),
                             clock, node, session, NetView(), measurement, pending, nextRemeasureAt)
                && (RoundDue(old(lastAliveAt), old(broadcastDue), pass.now) ==> old(rounds) + [pass.now] <= rounds)
                && Scheduled(next, pass.now, others, old(TimersView()), TimersView(), node != old(node),
                             Anew(old(measurement), pass))
    {
      hide Valid, Sound, Told, CoreView, NetView, HasTask, LossUnless, RoundDue, TimersRan, Scheduled;
      var now := Now();
      pass := Pass(now, now, None, [], []);
      next := now + ALIVE_PERIOD;
      if enabled {
        next, pass := RunTimers(now, freshId, others);
      }
    }

    method RunTimers(now: int, freshId: Id, others: int) returns (next: int, ghost pass: Pass)
      requires Valid() && enabled && now == clock && Fresh(freshId)
      modifies this`peers, this`known, this`paths, this`measurement, this`pending
      modifies this`node, this`session, this`ghostOffset, this`timeline, this`heldStst, this`sessionMemberSeen,
               this`measured, this`nextRemeasureAt
      modifies this`clock, this`lastAliveAt, this`lastBroadcastAt, this`broadcastDue, this`rounds, this`lastSent
      ensures Valid() && now == pass.now <= clock
      ensures LossUnless(!PruneDue(old(peers), now), old(CoreView()), peers, freshId, now, clock, CoreView())
      ensures TimersRan(pass, old(NetView()), old(measurement), old(pending), old(nextRemeasureAt), old(session),
                        clock, node, session, NetView(), measurement, pending, nextRemeasureAt)
      ensures RoundDue(old(lastAliveAt), old(broadcastDue), now) ==> old(rounds) + [now] <= rounds
      ensures Scheduled(next, now, others, old(TimersView()), TimersView(), node != old(node),
                        Anew(old(measurement), pass))
    {
      hide Valid, Sound, Told, CoreView, HasTask, Refounded, PruneDue, Pruned, Silent, TasksRan;
      hide Scheduled, PeerDeadlines, ChannelDeadlines, Soonest, NextAlive, Anew, RetryDeadline, EarlyWakes, LateWakes;
      var first, peerNext, due := BeaconTimers(now, freshId);
      var retry, channelNext;
      retry, channelNext, pass := TaskTimers(now);
      next := Soonest(Soonest(Soonest(Soonest(Soonest(first, peerNext), retry), nextRemeasureAt), channelNext),
                      Some(others));
      PassScheduled(next, now, others, old(TimersView()), TimersView(), node != old(node),
                    Anew(old(measurement), pass), first, due, peerNext, retry, channelNext);
    }

    /** Broadcasts, then peers. */
    method BeaconTimers(now: int, freshId: Id) returns (first: int, peerNext: Option<int>, ghost due: Option<int>)
      requires Valid() && enabled && now == clock && Fresh(freshId)
      modifies this`peers, this`known, this`paths
      modifies this`node, this`session, this`ghostOffset, this`timeline, this`heldStst, this`sessionMemberSeen,
               this`measured, this`nextRemeasureAt
      modifies this`clock, this`lastAliveAt, this`lastBroadcastAt, this`broadcastDue, this`rounds, this`lastSent
      ensures Valid() && now <= clock
      ensures NetView() == if PruneDue(old(peers), now) then Pruned(old(NetView()), now) else old(NetView())
      ensures nextRemeasureAt == if session == old(session) then old(nextRemeasureAt) else None
      ensures LossUnless(!PruneDue(old(peers), now), old(CoreView()), peers, freshId, now, clock, CoreView())
      ensures RoundDue(old(lastAliveAt), old(broadcastDue), now) ==> old(rounds) + [now] <= rounds
      ensures EarlyWakes(first, due, peerNext, now, old(lastAliveAt), old(broadcastDue),
                         lastAliveAt, broadcastDue, PeerDeadlines(peers).Values, node != old(node))
    {
      hide Valid, Sound, Told, CoreView, HasTask, LossUnless, PruneDue, Pruned;
      hide PeerDeadlines, Soonest, NextAlive, EarliestOf;
      first := BroadcastTimers(now);
      due := broadcastDue;
      ghost var alive, sent := lastAliveAt, rounds;
      LastRound();
      PruneTimer(now, freshId);
      LaterRound(sent, alive);
      PeersLater(old(NetView()), NetView(), now);
      peerNext := Earliest(PeerDeadlines(peers));
    }

    /** Measurements, then channels. */
    method TaskTimers(now: int) returns (retry: Option<int>, channelNext: Option<int>, ghost pass: Pass)
      requires Valid() && enabled && now <= clock
      modifies this`measurement, this`pending, this`nextRemeasureAt, this`clock, this`known
      ensures Valid() && now == pass.now && clock >= old(clock) && CoreView() == old(CoreView())
      ensures NetView() == ChannelsLeft(old(NetView()), now)
      ensures TasksRan(pass, old(measurement), old(pending), old(nextRemeasureAt),
                       clock, node, session, old(NetView()), measurement, pending, nextRemeasureAt)
      ensures LateWakes(retry, channelNext, now, RetryDeadline(measurement), nextRemeasureAt,
                        ChannelDeadlines(known).Values, Anew(old(measurement), pass))
    {
      hide Valid, Sound, Told, CoreView, Silent, TasksRan;
      hide ChannelDeadlines, Anew, RetryDeadline, EarliestOf;
      retry, pass := MeasurementTimers(now);
      ChannelTimer(now);
      ChannelsLater(old(NetView()), NetView(), now);
      channelNext := Earliest(ChannelDeadlines(known));
    }

    /** The last round is when the last Alive went out. */
    lemma LastRound()
      requires Valid() && enabled
      ensures rounds != [] && rounds[|rounds| - 1] == lastAliveAt
    {
      hide CoreOk, TasksOk, NetOk, Spaced, Routed;
    }

    /** Rounds only get later. */
    lemma LaterRound(before: seq<int>, at: int)
      requires Valid() && enabled && before != [] && before[|before| - 1] == at && before <= rounds
      ensures at <= lastAliveAt
    {
      hide CoreOk, TasksOk, NetOk, Routed;
      LastRound();
      RoundsSpread(rounds, |before| - 1, |rounds| - 1);
    }

    method MeasurementTimers(now: int) returns (retry: Option<int>, ghost pass: Pass)
      requires Valid() && enabled && now <= clock
      modifies this`measurement, this`pending, this`nextRemeasureAt, this`clock
      ensures Valid() && now == pass.now && clock >= old(clock)
      ensures CoreView() == old(CoreView()) && NetView() == old(NetView())
      ensures TasksRan(pass, old(measurement), old(pending), old(nextRemeasureAt),
                       clock, node, session, NetView(), measurement, pending, nextRemeasureAt)
      ensures retry == if Anew(old(measurement), pass) then None else RetryDeadline(measurement)
      ensures Later(retry, now) && Later(nextRemeasureAt, now)
    {
      hide Valid, Sound, Told, HasTask, TimedOut, Expired, Retried, RemeasureQueued;
      retry := RetryTimer(now);
      ghost var inFlight, queue, retriedAt := measurement, pending, clock;
      RemeasureTimer(now);
      pass := Pass(now, retriedAt, inFlight, queue, pending);
      StartNextMeasurement();
    }

    /** The periodic Alive, and a state change that has waited out its spacing. */
    method BroadcastTimers(now: int) returns (next: int)
      requires Valid() && enabled && now == clock
      modifies this`lastAliveAt, this`lastBroadcastAt, this`broadcastDue, this`rounds, this`lastSent
      ensures Valid() && CoreView() == old(CoreView()) && NetView() == old(NetView())
      ensures next == Soonest(NextAlive(old(lastAliveAt), now), broadcastDue)
      ensures now < next <= lastAliveAt + ALIVE_PERIOD
      ensures if RoundDue(old(lastAliveAt), old(broadcastDue), now)
              then rounds == old(rounds) + [now] && lastSent == Current() && broadcastDue == None
              else rounds == old(rounds) && lastSent == old(lastSent) && broadcastDue == old(broadcastDue)
    {
      next := now + ALIVE_PERIOD;
      if now >= lastAliveAt + ALIVE_PERIOD {
        SendAlive(now);
      }
      next := Soonest(next, Some(lastAliveAt + ALIVE_PERIOD));
      if broadcastDue.Some? {
        if now >= broadcastDue.value {
          SendAlive(now);
        } else {
          next := Soonest(next, broadcastDue);
        }
      }
    }

    /** Prune expired peers once the earliest deadline is a second past. */
    method PruneTimer(now: int, freshId: Id)
      requires Valid() && enabled && now <= clock && Fresh(freshId)
      modifies this`peers, this`known, this`paths
      modifies this`node, this`session, this`ghostOffset, this`timeline, this`heldStst, this`sessionMemberSeen,
               this`measured, this`nextRemeasureAt
      modifies this`clock, this`lastAliveAt, this`lastBroadcastAt, this`broadcastDue, this`rounds, this`lastSent
      ensures Valid() && clock >= old(clock) && old(rounds) <= rounds
      ensures NetView() == if PruneDue(old(peers), now) then Pruned(old(NetView()), now) else old(NetView())
      ensures nextRemeasureAt == if session == old(session) then old(nextRemeasureAt) else None
      ensures LossUnless(!PruneDue(old(peers), now), old(CoreView()), peers, freshId, old(clock), clock, CoreView())
      ensures node == old(node) ==> broadcastDue == old(broadcastDue)
    {
      hide Sound, Told, CoreView, NetView, HasTask, PruneDue, LossHandled, Pruned;
      if PruneDue(peers, now) {
        RemoveExpired(now);
        CheckSessionLoss(freshId);
      }
    }

    /** The expired entries go, and the peers left without one. */
    method RemoveExpired(now: int)
      requires Valid() && enabled
      modifies this`peers, this`known, this`paths
      ensures Valid() && NetView() == Pruned(old(NetView()), now) && CoreView() == old(CoreView())
    {
      hide TasksOk, NetOk, Spaced, CoreOk, Pruned;
      PrunedKeeps(NetView(), now);
      RemoveExpiredEntries(now);
    }

    method RemoveExpiredEntries(now: int)
      modifies this`peers, this`known, this`paths
      ensures NetView() == Pruned(old(NetView()), now)
    {
      var lost := set k | k in peers && peers[k].deadline <= now :: k.0;
      peers := map k | k in peers && peers[k].deadline > now :: peers[k];
      ForgetAbsent(lost);
    }

    /** A silent measurement is retried, and fails once its retries are spent. */
    method RetryTimer(now: int) returns (next: Option<int>)
      requires Valid() && enabled && now <= clock
      modifies this`measurement, this`pending, this`nextRemeasureAt, this`clock
      ensures Valid() && clock >= old(clock) && CoreView() == old(CoreView()) && NetView() == old(NetView())
      ensures Retried(old(measurement), old(pending), now, gateways, clock, measurement, pending)
      ensures if Spent(old(measurement), now) then Rearmed(nextRemeasureAt, now, clock)
              else nextRemeasureAt == old(nextRemeasureAt)
      ensures next == if Failed(old(measurement), now) then None else RetryDeadline(measurement)
      ensures Later(next, now)
    {
      hide Sound, Told, CoreView, NetView, Started;
      next := None;
      if measurement.Some? {
        if now >= measurement.value.retryDeadline {
          var m := TakeMeasurement();
          if m.timeouts >= MAX_MEASUREMENT_RETRIES {
            MeasurementFailed(m.task);
          } else {
            KeepMeasurement(m.(timeouts := m.timeouts + 1, retryDeadline := now + MEASUREMENT_RETRY));
            next := Some(now + MEASUREMENT_RETRY);
          }
        } else {
          next := Some(measurement.value.retryDeadline);
        }
      }
    }

    /** Re-measure a joined session periodically. */
    method RemeasureTimer(now: int)
      requires Valid() && enabled
      modifies this`pending, this`nextRemeasureAt
      ensures Valid() && CoreView() == old(CoreView()) && NetView() == old(NetView())
      ensures nextRemeasureAt
              == if Due(old(nextRemeasureAt), now) then Some(now + REMEASURE_PERIOD) else old(nextRemeasureAt)
      ensures if Due(old(nextRemeasureAt), now)
              then RemeasureQueued(node, session, peers, old(measurement), old(pending), pending)
              else pending == old(pending)
    {
      hide TasksOk, NetOk, Spaced, CoreOk;
      if Due(nextRemeasureAt, now) {
        QueueRemeasure();
        nextRemeasureAt := Some(now + REMEASURE_PERIOD);
      }
    }

    /** Queue a re-measurement of a joined session: towards its founder if visible,
        else any member. Founders do not re-measure their own. */
    method QueueRemeasure()
      requires Valid() && enabled
      modifies this`pending
      ensures Valid() && CoreView() == old(CoreView()) && NetView() == old(NetView())
      ensures RemeasureQueued(node, session, peers, old(measurement), old(pending), pending)
    {
      hide TasksOk, NetOk, Spaced, CoreOk;
      if session == node || HasTask(measurement, pending, session) {
        return;
      }
      var target, via;
      if FounderVisible(peers, session) {
        var k :| k in peers && k.0 == session && peers[k].state.measurementEndpoint.Some?;
        target, via := peers[k].state.measurementEndpoint.value, k.1;
        assert k == (session, via);
        GatewayOfPeer(k);
      } else if MemberVisible(peers, session) {
        var k :| k in peers && peers[k].state.session == Some(session) && peers[k].state.measurementEndpoint.Some?;
        target, via := peers[k].state.measurementEndpoint.value, k.1;
        GatewayOfPeer(k);
      } else {
        return;
      }
      Enqueue(Task(session, target, via, Remeasure));
    }

    /** Channels whose announcements stopped disappear. */
    method ChannelTimer(now: int)
      requires Valid()
      modifies this`known
      ensures Valid() && CoreView() == old(CoreView())
      ensures NetView() == ChannelsLeft(old(NetView()), now)
    {
      hide TasksOk, Spaced, CoreOk;
      if Silent(known, now) {
        known := map k | k in known && known[k].deadline > now :: known[k];
      }
    }

    // ------------------------------------------------------- audio directory

    /** LinkAudio switches on: advertised with the next gossip. */
    method EnableAudio()
      requires Valid()
      modifies this`audio
      modifies this`clock, this`lastAliveAt, this`lastBroadcastAt, this`broadcastDue, this`rounds, this`lastSent
      ensures Valid() && audio && clock >= old(clock)
    {
      if !audio {
        audio := true;
        ScheduleBroadcast();
      }
    }

    /** LinkAudio switches off: its directory goes, and peers are told. */
    method DisableAudio()
      requires Valid()
      modifies this`audio, this`known, this`paths
      modifies this`clock, this`lastAliveAt, this`lastBroadcastAt, this`broadcastDue, this`rounds, this`lastSent
      ensures Valid() && !audio && known == map[] && paths == {} && clock >= old(clock)
    {
      if audio {
        ShutAudio();
        ScheduleBroadcast();
      }
    }

    /** A channel announcement counts only from an endpoint learned in discovery. */
    method HandleAnnouncement(gw: nat, peer: Id, src: Endpoint, channels: seq<Id>, ttl: nat) returns (ghost at: int)
      requires Valid() && enabled && gw in gateways && peer != node
      modifies this`known, this`clock
      ensures Valid() && old(clock) <= at <= clock
      ensures known == if audio && (peer, gw) in peers && peers[(peer, gw)].state.audioEndpoint == Some(src)
                       then Listed(old(known), gw, channels, KnownChannel(peer, at + ttl * 1_000_000))
                       else old(known)
    {
      hide Sound, Told, CoreView, NetView;
      at := clock;
      if !audio {
        return;
      }
      var now := Now();
      at := now;
      if (peer, gw) !in peers || peers[(peer, gw)].state.audioEndpoint != Some(src) {
        return;
      }
      var entry := KnownChannel(peer, now + ttl * 1_000_000);
      for i := 0 to |channels|
        invariant Valid() && (peer, gw) in peers && clock == now
        invariant known == Listed(old(known), gw, channels[..i], entry)
      {
        assert channels[..i + 1][..i] == channels[..i];
        AddChannel(gw, channels[i], entry);
      }
      assert channels[..|channels|] == channels;
    }

    method AddChannel(gw: nat, channel: Id, entry: KnownChannel)
      requires Valid() && enabled && audio && gw in gateways && (entry.peer, gw) in peers
      modifies this`known
      ensures Valid() && known == old(known)[(channel, gw) := entry]
    {
      hide TasksOk, Spaced, CoreOk;
      assert Present(peers, entry.peer);
      known := known[(channel, gw) := entry];
    }

    /** A keepalive answer is a path through that gateway. */
    method HandleAudioPong(gw: nat, peer: Id)
      requires Valid() && enabled && gw in gateways && peer != node
      modifies this`paths
      ensures Valid() && paths == if audio then old(paths) + {(peer, gw)} else old(paths)
    {
      hide TasksOk, Spaced, CoreOk;
      if audio {
        paths := paths + {(peer, gw)};
      }
    }

    /** A publisher withdraws channels on a gateway; others' entries stay. */
    method HandleChannelByes(gw: nat, peer: Id, ids: seq<Id>)
      requires Valid() && enabled && peer != node
      modifies this`known
      ensures Valid()
      ensures known == map k | k in old(known) && !(k.1 == gw && old(known)[k].peer == peer && k.0 in ids)
                         :: old(known)[k]
    {
      hide TasksOk, Spaced, CoreOk;
      known := map k | k in known && !(k.1 == gw && known[k].peer == peer && k.0 in ids) :: known[k];
    }
  }

  // --------------------------------------------------- what the handlers promise

  /** Either a fellow member is still known (or none was ever seen) and nothing
      changed, or a fresh session was founded between the two instants. */
  ghost predicate LossHandled(before: Core, peers: map<(Id, nat), PeerEntry>, freshId: Id, lo: int, hi: int,
                              after: Core) {
    if !before.memberSeen || HasMember(peers, before.session) then after == before
    else before.timeline.tempo > 0 && Between(lo, -after.offset, hi)
         && after == Refounded(before, freshId, -after.offset)
  }

  /** The session's founder is visible with a measurement endpoint. */
  predicate FounderVisible(peers: map<(Id, nat), PeerEntry>, sess: Id) {
    exists k :: k in peers && k.0 == sess && peers[k].state.measurementEndpoint.Some?
  }

  /** A task for the session joins the queue, unless there is one or nobody to
      measure against: towards the founder if visible, else the gossiping peer. */
  ghost predicate JoinQueued(task: Option<Task>, sess: Id, gw: nat, ps: PeerState,
                             peers: map<(Id, nat), PeerEntry>, gateways: set<nat>, hi: int,
                             inFlight: Option<Measurement>, queue: seq<Task>,
                             inFlight': Option<Measurement>, queue': seq<Task>) {
    if HasTask(inFlight, queue, sess) || (!FounderVisible(peers, sess) && ps.measurementEndpoint.None?)
    then task.None? && inFlight' == inFlight && queue' == queue
    else
      && task.Some? && task.value.session == sess && task.value.purpose == Join
      && (if FounderVisible(peers, sess)
          then (sess, task.value.gateway) in peers
               && peers[(sess, task.value.gateway)].state.measurementEndpoint == Some(task.value.target)
          else task.value.gateway == gw && ps.measurementEndpoint == Some(task.value.target))
      && (inFlight', queue') == Started(inFlight, queue + [task.value], gateways, hi)
  }

  /** A re-measurement is due one period after some instant between the two. */
  ghost predicate Rearmed(timer: Option<int>, lo: int, hi: int) {
    timer.Some? && Between(lo, timer.value - REMEASURE_PERIOD, hi)
  }

  /** Joining another session starts its re-measurement period. */
  ghost predicate JoinTimer(before: Id, after: Id, timer: Option<int>, timer': Option<int>, lo: int, hi: int) {
    if after != before then Rearmed(timer', lo, hi) else timer' == timer
  }

  ghost predicate FailedTimer(purpose: Purpose, timer: Option<int>, timer': Option<int>, lo: int, hi: int) {
    if purpose == Remeasure then Rearmed(timer', lo, hi) else timer' == timer
  }

  ghost predicate ConcludedTimer(purpose: Purpose, before: Id, after: Id, timer: Option<int>, timer': Option<int>,
                                 lo: int, hi: int) {
    if purpose == Remeasure then Rearmed(timer', lo, hi) else JoinTimer(before, after, timer, timer', lo, hi)
  }

  ghost predicate PongTimer(m: Measurement, gt: int, pht: Option<int>, pgt: Option<int>, now: int,
                            before: Id, after: Id, timer: Option<int>, timer': Option<int>, lo: int, hi: int) {
    if Answered(m, ClockEstimate.SamplesFrom(gt, now, pht, pgt), now).Some? then timer' == timer
    else ConcludedTimer(m.task.purpose, before, after, timer, timer', lo, hi)
  }

  /** While samples are missing the next ping leaves at once, through the same gateway if
      it is still open, carrying this pong's ghost time. */
  function ChainedPing(m: Option<Measurement>, gw: nat, src: Endpoint, pongSession: Id, gt: int, pht: Option<int>,
                       pgt: Option<int>, now: int, gateways: set<nat>): Option<Sync.Times> {
    if Measuring(m, gw, src) && pongSession == m.value.task.session && gw in gateways
       && Answered(m.value, ClockEstimate.SamplesFrom(gt, now, pht, pgt), now).Some?
    then Some(Sync.Times(Some(now), Some(gt))) else None
  }

  predicate Measuring(m: Option<Measurement>, gw: nat, src: Endpoint) {
    m.Some? && m.value.task.gateway == gw && m.value.task.target == src
  }

  /** The samples in ascending order. */
  ghost predicate Ordering(samples: seq<int>, sorted: seq<int>) {
    sorted != [] && ClockEstimate.Sorted(sorted) && multiset(sorted) == multiset(samples)
  }

  /** The session state once a measurement concludes. */
  function Concluded(c: Core, task: Task, offset: int, foreign: map<Id, Timeline>): Core {
    var r := Retained(c, task, offset);
    if task.purpose == Join then Evaluated(r, task.session, offset, foreign) else r
  }

  /** A pong of the measured session: enough samples conclude the measurement with
      their median; otherwise it goes on, its retry timer re-armed but its spent
      retries not restored. */
  ghost predicate PongHandled(m: Measurement, gt: int, pht: Option<int>, pgt: Option<int>, now: int, sorted: seq<int>,
                              before: Core, queue: seq<Task>, foreign: map<Id, Timeline>, gateways: set<nat>, hi: int,
                              after: Core, inFlight: Option<Measurement>, pending: seq<Task>) {
    var added := ClockEstimate.SamplesFrom(gt, now, pht, pgt);
    var kept := Answered(m, added, now);
    if kept.Some? then after == before && pending == queue && inFlight == kept
    else
      && Ordering(m.samples + added, sorted)
      && after == Concluded(before, m.task, ClockEstimate.MedianOf(sorted), foreign)
      && (inFlight, pending) == Started(None, queue, gateways, hi)
  }

  function WithoutGateway(pending: seq<Task>, id: nat): seq<Task> {
    if pending == [] then []
    else (if pending[0].gateway != id then [pending[0]] else []) + WithoutGateway(pending[1..], id)
  }

  lemma {:induction false} WithoutGatewayMembers(pending: seq<Task>, id: nat)
    ensures forall t :: t in WithoutGateway(pending, id) <==> t in pending && t.gateway != id
  {
    if pending != [] {
      WithoutGatewayMembers(pending[1..], id);
    }
  }

  lemma {:induction false} WithoutGatewayDistinct(pending: seq<Task>, id: nat)
    requires Distinct(pending)
    ensures Distinct(WithoutGateway(pending, id))
  {
    if pending != [] {
      var p, rest := WithoutGateway(pending, id), WithoutGateway(pending[1..], id);
      assert forall i :: 0 <= i < |pending| - 1 ==> pending[1..][i] == pending[i + 1];
      WithoutGatewayDistinct(pending[1..], id);
      WithoutGatewayMembers(pending[1..], id);
      if pending[0].gateway != id {
        assert p == [pending[0]] + rest;
        forall j | 0 <= j < |rest| ensures rest[j].session != pending[0].session {
          assert rest[j] in pending[1..];
        }
      } else {
        assert p == rest;
      }
    }
  }

  lemma WithoutGatewayKeeps(inFlight: Option<Measurement>, pending: seq<Task>, session: Id, measured: map<Id, int>,
                            gateways: set<nat>, id: nat)
    requires TasksOk(inFlight, pending, session, measured) && Routed(pending, gateways)
    ensures var p := WithoutGateway(pending, id);
            && TasksOk(inFlight, p, session, measured) && Routed(p, gateways - {id})
            && forall sess :: Queued(p, sess) ==> Queued(pending, sess)
  {
    var p := WithoutGateway(pending, id);
    WithoutGatewayDistinct(pending, id);
    WithoutGatewayMembers(pending, id);
    forall i | 0 <= i < |p| ensures p[i] in pending && p[i].gateway != id {
      assert p[i] in p;
    }
  }

  /** Some member of the session is visible with a measurement endpoint. */
  predicate MemberVisible(peers: map<(Id, nat), PeerEntry>, sess: Id) {
    exists k :: k in peers && peers[k].state.session == Some(sess) && peers[k].state.measurementEndpoint.Some?
  }

  ghost predicate ForeignHandled(task: Option<Task>, gw: nat, sess: Id, ps: PeerState,
                                 peers: map<(Id, nat), PeerEntry>, gateways: set<nat>, hi: int,
                                 before: Core, foreign: map<Id, Timeline>,
                                 inFlight: Option<Measurement>, queue: seq<Task>,
                                 after: Core, foreign': map<Id, Timeline>,
                                 inFlight': Option<Measurement>, queue': seq<Task>) {
    && foreign' == Cached(foreign, sess, ps.timeline)
    && if sess in before.measured
       then after == Evaluated(before, sess, before.measured[sess], foreign') && inFlight' == inFlight
            && queue' == queue
       else after == before && JoinQueued(task, sess, gw, ps, peers, gateways, hi, inFlight, queue, inFlight', queue')
  }

  /** A re-measurement joins the queue unless we founded the session, it has a task,
      or nobody can be measured: towards the founder if visible, else a member. */
  ghost predicate RemeasureQueued(node: Id, sess: Id, peers: map<(Id, nat), PeerEntry>,
                                  inFlight: Option<Measurement>, queue: seq<Task>, queue': seq<Task>) {
    if sess == node || HasTask(inFlight, queue, sess) || (!FounderVisible(peers, sess) && !MemberVisible(peers, sess))
    then queue' == queue
    else
      && |queue'| == |queue| + 1 && queue'[..|queue|] == queue
      && var t := queue'[|queue|];
      t.session == sess && t.purpose == Remeasure
      && exists k :: k in peers && k.1 == t.gateway && peers[k].state.measurementEndpoint == Some(t.target)
                     && (if FounderVisible(peers, sess) then k.0 == sess else peers[k].state.session == Some(sess))
  }

  /** Some channel's announcements stopped a second past its deadline. */
  predicate Silent(known: map<(Id, nat), KnownChannel>, now: int) {
    exists k :: k in known && now >= known[k].deadline + PRUNE_PADDING
  }

  /** Nothing changed if excused; else the loss of members was handled. */
  ghost predicate LossUnless(excused: bool, before: Core, peers: map<(Id, nat), PeerEntry>, freshId: Id, lo: int,
                             hi: int,
                             after: Core) {
    if excused then after == before else LossHandled(before, peers, freshId, lo, hi, after)
  }

  predicate PruneDue(peers: map<(Id, nat), PeerEntry>, now: int) {
    exists k :: k in peers && now >= peers[k].deadline + PRUNE_PADDING
  }

  predicate TimedOut(m: Option<Measurement>, now: int) {
    m.Some? && now >= m.value.retryDeadline
  }

  predicate Due(timer: Option<int>, now: int) {
    timer.Some? && now >= timer.value
  }

  /** The periodic round is due, or one waited for its spacing. */
  predicate RoundDue(lastAliveAt: int, broadcastDue: Option<int>, now: int) {
    now >= lastAliveAt + ALIVE_PERIOD || Due(broadcastDue, now)
  }

  /** A timed-out measurement is retried at the cost of one retry, until none is left
      and it fails. */
  ghost predicate Retried(inFlight: Option<Measurement>, queue: seq<Task>, now: int, gateways: set<nat>, hi: int,
                          inFlight': Option<Measurement>, queue': seq<Task>) {
    if !TimedOut(inFlight, now) then inFlight' == inFlight && queue' == queue
    else if Expired(inFlight.value, now).Some? then inFlight' == Expired(inFlight.value, now) && queue' == queue
    else (inFlight', queue') == Started(None, queue, gateways, hi)
  }

  /** A measurement has failed for good. */
  predicate Failed(inFlight: Option<Measurement>, now: int) {
    TimedOut(inFlight, now) && inFlight.value.timeouts >= MAX_MEASUREMENT_RETRIES
  }

  /** A re-measurement has. */
  predicate Spent(inFlight: Option<Measurement>, now: int) {
    Failed(inFlight, now) && inFlight.value.task.purpose == Remeasure
  }

  /** Once some channel fell silent, every expired one goes. */
  function ChannelsLeft(n: Net, now: int): Net {
    if Silent(n.known, now) then n.(known := map k | k in n.known && n.known[k].deadline > now :: n.known[k]) else n
  }

  /** The instants and the intermediate measurement state of a housekeeping pass:
      after the retry timer, and after the re-measurement timer. */
  datatype Pass = Pass(now: int, retriedAt: int, inFlight: Option<Measurement>, queue: seq<Task>, requeued: seq<Task>)

  /** The measurement in flight after the pass was started in it: the one before, if
      any, failed in it. */
  predicate Anew(inFlight: Option<Measurement>, pass: Pass) {
    pass.inFlight.None? || Failed(inFlight, pass.now)
  }

  // ------------------------------------------------------------- deadlines

  function PeerDeadlines(peers: map<(Id, nat), PeerEntry>): map<(Id, nat), int> {
    map k | k in peers :: peers[k].deadline + PRUNE_PADDING
  }

  function ChannelDeadlines(known: map<(Id, nat), KnownChannel>): map<(Id, nat), int> {
    map k | k in known :: known[k].deadline + PRUNE_PADDING
  }

  function RetryDeadline(m: Option<Measurement>): Option<int> {
    if m.Some? then Some(m.value.retryDeadline) else None
  }

  lemma PeersLater(before: Net, after: Net, now: int)
    requires after == if PruneDue(before.peers, now) then Pruned(before, now) else before
    ensures AllLater(PeerDeadlines(after.peers).Values, now)
  {
    forall k | k in after.peers ensures now < after.peers[k].deadline + PRUNE_PADDING {
    }
  }

  lemma ChannelsLater(before: Net, after: Net, now: int)
    requires after == ChannelsLeft(before, now)
    ensures AllLater(ChannelDeadlines(after.known).Values, now)
  {
    forall k | k in after.known ensures now < after.known[k].deadline + PRUNE_PADDING {
    }
  }

  /** What the measurement timers of a pass did, in their order: the one in flight
      retried or failed, a re-measurement queued if due - unless the last one just
      failed - and the next measurement started. */
  ghost predicate TasksRan(pass: Pass, inFlight: Option<Measurement>, queue: seq<Task>, remeasureAt: Option<int>,
                           hi: int, node: Id, session: Id, net: Net,
                           inFlight': Option<Measurement>, queue': seq<Task>, remeasureAt': Option<int>) {
    && Retried(inFlight, queue, pass.now, net.gateways, pass.retriedAt, pass.inFlight, pass.queue)
    && (if !Spent(inFlight, pass.now) && Due(remeasureAt, pass.now)
        then RemeasureQueued(node, session, net.peers, pass.inFlight, pass.queue, pass.requeued)
             && remeasureAt' == Some(pass.now + REMEASURE_PERIOD)
        else pass.requeued == pass.queue
             && if Spent(inFlight, pass.now) then Rearmed(remeasureAt', pass.now, hi) else remeasureAt' == remeasureAt)
    && (inFlight', queue') == Started(pass.inFlight, pass.requeued, net.gateways, hi)
  }

  /** What a pass did: peers pruned, the measurement timers served - a session just
      reset has no re-measurement due - and silent channels dropped. */
  ghost predicate TimersRan(pass: Pass, net: Net, inFlight: Option<Measurement>, queue: seq<Task>,
                            remeasureAt: Option<int>,
                            session: Id, hi: int, node': Id, session': Id, net': Net,
                            inFlight': Option<Measurement>, queue': seq<Task>, remeasureAt': Option<int>) {
    var pruned := if PruneDue(net.peers, pass.now) then Pruned(net, pass.now) else net;
    && net' == ChannelsLeft(pruned, pass.now)
    && TasksRan(pass, inFlight, queue, if session' == session then remeasureAt else None,
                hi, node', session', pruned, inFlight', queue', remeasureAt')
  }
}
