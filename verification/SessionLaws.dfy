/**
 What the events of a session mean to those who play in it: gossip within it is
 delivery in the system of peers, who joins plays its grid, who founds one keeps the
 beat, and a finished measurement is acted on.
 */
module SessionLaws {
  import opened Types
  import opened Wrappers
  import opened BeatGrid
  import opened Gossip
  import opened Election
  import opened Discovery
  import opened EngineState
  import ClockEstimate
  import E = Engine

  // ------------------------------------------------------ gossip of the session

  /** What the peer holds of the session. */
  function ViewOf(c: Core): View {
    View(c.timeline, c.held)
  }

  /** An admitted frame of the own session is a delivery of what it carries: the view is
      merged, an entry that is missing leaves its part alone, and nothing else changes. */
  lemma GossipDelivers(c: Core, ps: PeerState)
    ensures var g := Gossiped(c, ps);
            && (ps.timeline.Some? && ps.startStop.Some? ==>
                  ViewOf(g) == MergeView(ViewOf(c), View(ps.timeline.value, ps.startStop.value)))
            && g.timeline == (if ps.timeline.Some? then MergeTimeline(c.timeline, ps.timeline.value) else c.timeline)
            && g.held == (if ps.startStop.Some? then MergeStartStop(c.held, ps.startStop.value) else c.held)
            && g == c.(timeline := g.timeline, held := g.held, memberSeen := true)
  {
  }

  /** Frames of the session, one after the other. */
  function GossipedAll(c: Core, pss: seq<PeerState>): Core
    decreases |pss|
  {
    if pss == [] then c else GossipedAll(Gossiped(c, pss[0]), pss[1..])
  }

  /** The timelines some frames carry. */
  function TimelinesOf(pss: seq<PeerState>): seq<Timeline> {
    if pss == [] then []
    else (if pss[0].timeline.Some? then [pss[0].timeline.value] else []) + TimelinesOf(pss[1..])
  }

  function ActionsOf(pss: seq<PeerState>): seq<StartStopState> {
    if pss == [] then []
    else (if pss[0].startStop.Some? then [pss[0].startStop.value] else []) + ActionsOf(pss[1..])
  }

  /** After any frames of the session the peer holds the merge of the timelines and of the
      transport actions among them; who and where it is does not change. */
  lemma {:induction false} GossipedAllMerges(c: Core, pss: seq<PeerState>)
    ensures var g := GossipedAll(c, pss);
            && g.timeline == MergeTimelines(c.timeline, TimelinesOf(pss))
            && g.held == MergeAll(StampOf, Unchanged, c.held, ActionsOf(pss))
            && g == c.(timeline := g.timeline, held := g.held, memberSeen := c.memberSeen || pss != [])
    decreases |pss|
  {
    if pss != [] {
      var next, tail := Gossiped(c, pss[0]), pss[1..];
      GossipDelivers(c, pss[0]);
      GossipedAllMerges(next, tail);
      if pss[0].timeline.Some? {
        assert TimelinesOf(pss)[1..] == TimelinesOf(tail);
      } else {
        assert TimelinesOf(pss) == TimelinesOf(tail);
      }
      if pss[0].startStop.Some? {
        MergesAreRegisters(c.timeline, c.timeline, c.held, pss[0].startStop.value);
        assert ActionsOf(pss)[1..] == ActionsOf(tail);
      } else {
        assert ActionsOf(pss) == ActionsOf(tail);
      }
    }
  }

  lemma Settled<V(!new)>(key: V -> int, norm: V -> V, cur: V, incs: seq<V>)
    requires KeepsKey(key, norm)
    ensures var r := MergeAll(key, norm, cur, incs);
            key(r) == MaxKey(key, cur, incs) && (r == cur || exists i :: 0 <= i < |incs| && r == norm(incs[i]))
  {
    MergeAllIs(key, norm, cur, incs);
    MaxKeyBounds(key, cur, incs);
  }

  /** So it ends with the greatest beat origin and the latest timestamp it held or heard:
      its own, or those of the first frame that carried them. */
  lemma GossipReachesTop(c: Core, pss: seq<PeerState>)
    ensures var g, tls, acts := GossipedAll(c, pss), TimelinesOf(pss), ActionsOf(pss);
            && g.timeline.beatOrigin == MaxKey(OriginOf, c.timeline, tls)
            && g.held.timestamp == MaxKey(StampOf, c.held, acts)
            && (g.timeline == c.timeline || exists i :: 0 <= i < |tls| && g.timeline == Reclamp(tls[i]))
            && (g.held == c.held || exists i :: 0 <= i < |acts| && g.held == acts[i])
  {
    GossipedAllMerges(c, pss);
    MergeTimelinesIs(c.timeline, TimelinesOf(pss));
    MergesAreRegisters(c.timeline, c.timeline, c.held, c.held);
    Settled(OriginOf, Reclamp, c.timeline, TimelinesOf(pss));
    Settled(StampOf, Unchanged, c.held, ActionsOf(pss));
  }

  // --------------------------------------------------------------- joining

  /** Gossip from a foreign session, one timeline after the other. */
  function CachedAll(foreign: map<Id, Timeline>, sess: Id, tls: seq<Option<Timeline>>): map<Id, Timeline>
    decreases |tls|
  {
    if tls == [] then foreign else CachedAll(Cached(foreign, sess, tls[0]), sess, tls[1..])
  }

  function Somes(tls: seq<Option<Timeline>>): seq<Timeline> {
    if tls == [] then [] else (if tls[0].Some? then [tls[0].value] else []) + Somes(tls[1..])
  }

  function Same(tl: Timeline): Timeline { tl }

  /** The cache of a session is the same register as a member's own, unclamped and starting
      with the first timeline heard; the other sessions keep theirs. */
  lemma {:induction false} CachedMerges(foreign: map<Id, Timeline>, sess: Id, tls: seq<Option<Timeline>>)
    ensures var f, heard := CachedAll(foreign, sess, tls), Somes(tls);
            && (forall s :: s != sess ==> (s in f <==> s in foreign) && (s in f ==> f[s] == foreign[s]))
            && (sess in f <==> sess in foreign || heard != [])
            && (sess in foreign ==> f[sess] == MergeAll(OriginOf, Same, foreign[sess], heard))
            && (sess !in foreign && heard != [] ==> f[sess] == MergeAll(OriginOf, Same, heard[0], heard[1..]))
    decreases |tls|
  {
    if tls != [] {
      CachedMerges(Cached(foreign, sess, tls[0]), sess, tls[1..]);
      if tls[0].Some? {
        assert Somes(tls)[1..] == Somes(tls[1..]);
      } else {
        assert Somes(tls) == Somes(tls[1..]);
      }
    }
  }

  /** The switch, exactly if the rule says so: the session measured, at the offset measured,
      the transport reset, the abandoned session retained. With a cached timeline the
      beat at every local time is the one that timeline gives, its tempo being one that
      is allowed; another is first brought into range. Else nothing changes. */
  lemma JoinedPlays(c: Core, sess: Id, offset: int, foreign: map<Id, Timeline>, t: int)
    ensures var e := Evaluated(c, sess, offset, foreign);
            if !Beats(Candidate(sess, offset), Holding(c)) then e == c
            else
              && e.node == c.node && e.session == sess && e.offset == offset && e.held == DEFAULT_START_STOP
              && e.memberSeen && e.measured == c.measured[c.session := c.offset]
              && (sess !in foreign ==> e.timeline == c.timeline)
              && (sess in foreign ==>
                    && e.timeline == foreign[sess].(tempo := ClampTempo(foreign[sess].tempo))
                    && (Clamped(foreign[sess].tempo) ==>
                          BeatsAtGhost(e.timeline, t + e.offset) == BeatsAtGhost(foreign[sess], t + offset)))
  {
  }

  /** Readings of the same instant on two clocks, `skew` being how far the first peer's
      estimate of the ghost time is off. */
  predicate SameInstant(t1: int, offset1: int, t2: int, offset2: int, skew: int) {
    t1 + offset1 == t2 + offset2 + skew
  }

  /** Who joined and a member whose timeline was cached hear the same grid: at any instant,
      for any quantum, their beats differ by no more than the error of the measurement is
      worth, to within one micro-beat - not at all, if there is none. */
  lemma JoinersPlayTogether(c: Core, m: Core, foreign: map<Id, Timeline>, offset: int, t: int, tm: int, skew: int,
                            q: int)
    requires CoreOk(m) && m.session in foreign && foreign[m.session] == m.timeline
    requires Beats(Candidate(m.session, offset), Holding(c)) && SameInstant(t, offset, tm, m.offset, skew)
    ensures var e := Evaluated(c, m.session, offset, foreign);
            && e.session == m.session && e.timeline == m.timeline
            && var apart := AppBeatAtGhost(e.timeline, t + e.offset, q) - AppBeatAtGhost(m.timeline, tm + m.offset, q);
               && (skew == 0 ==> apart == 0)
               && Abs(apart * m.timeline.tempo - skew * MICRO) <= m.timeline.tempo
  {
    var tl := m.timeline;
    AppBeatClosedForm(tl, t + offset, q);
    AppBeatClosedForm(tl, tm + m.offset, q);
    BeatsApart(tl, tm + m.offset, skew);
  }

  /** Gossip from another session, once measured, is acted on at once: that session cannot
      draw the peer any more, it is the one held exactly if it beat the one held before,
      and a peer that joins plays the newest of the timelines cached and just heard. */
  lemma ForeignGossipActs(task: Option<Task>, gw: nat, sess: Id, ps: PeerState, peers: map<(Id, nat), PeerEntry>,
                          gateways: set<nat>, hi: int, before: Core, foreign: map<Id, Timeline>,
                          inFlight: Option<Measurement>, queue: seq<Task>, after: Core, foreign': map<Id, Timeline>,
                          inFlight': Option<Measurement>, queue': seq<Task>)
    requires E.ForeignHandled(task, gw, sess, ps, peers, gateways, hi, before, foreign, inFlight, queue,
                              after, foreign', inFlight', queue')
    requires sess in before.measured && sess != before.session
    ensures var measured := Candidate(sess, before.measured[sess]);
            && !Beats(measured, Holding(after)) && (Holding(after) == measured <==> Beats(measured, Holding(before)))
            && (Holding(after) != measured ==> after == before)
            && (Holding(after) == measured && ps.timeline.Some? ==>
                  && after.timeline.beatOrigin >= ps.timeline.value.beatOrigin
                  && (sess in foreign ==> after.timeline.beatOrigin >= foreign[sess].beatOrigin)
                  && (after.timeline == Reclamp(ps.timeline.value)
                      || (sess in foreign && after.timeline == Reclamp(foreign[sess]))))
  {
    var measured := Candidate(sess, before.measured[sess]);
    if Beats(measured, Holding(before)) {
      JoinAntisymmetric(measured, Holding(before));
    }
  }

  // -------------------------------------------------------------- founding

  /** A fresh session keeps the local beat: exactly at that instant, within a micro-beat at
      every other. The transport goes on at the current beat, and ghost time starts. */
  lemma FoundedContinues(c: Core, id: Id, now: int, t: int)
    requires c.timeline.tempo > 0
    ensures var r := Refounded(c, id, now);
            && r.node == r.session == id && !r.memberSeen && r.measured == c.measured[c.session := c.offset]
            && r.timeline.tempo == c.timeline.tempo && now + r.offset == 0
            && Abs(BeatsAtGhost(r.timeline, t + r.offset) - BeatsAtGhost(c.timeline, t + c.offset)) <= 1
            && BeatsAtGhost(r.timeline, now + r.offset) == BeatsAtGhost(c.timeline, now + c.offset)
            && r.held == StartStopState(c.held.isPlaying, BeatsAtGhost(c.timeline, now + c.offset), 0)
  {
    RefoundContinuous(c.timeline, now + c.offset, t - now);
    assert now + c.offset + (t - now) == t + c.offset;
    assert t + -now == t - now;
  }

  // ---------------------------------------------------- finished measurements

  /** A join measurement is put to the rule: the measured session is the one held, at that
      offset, exactly if it beat the one held before; either way it cannot draw the peer
      any more, and its offset is retained. */
  lemma ConcludedJoin(c: Core, task: Task, offset: int, foreign: map<Id, Timeline>)
    requires task.purpose == Join && task.session != c.session
    ensures var a, measured := E.Concluded(c, task, offset, foreign), Candidate(task.session, offset);
            && !Beats(measured, Holding(a))
            && (Holding(a) == measured <==> Beats(measured, Holding(c)))
            && (Holding(a) != measured ==> Holding(a) == Holding(c) && a.timeline == c.timeline && a.held == c.held)
            && task.session in a.measured && a.measured[task.session] == offset
            && (forall s :: s in c.measured && s != task.session && s != c.session ==>
                  s in a.measured && a.measured[s] == c.measured[s])
            && (Holding(a) == measured ==> c.session in a.measured && a.measured[c.session] == c.offset)
  {
    var measured := Candidate(task.session, offset);
    if Beats(measured, Holding(c)) {
      JoinAntisymmetric(measured, Holding(c));
    }
  }

  /** A re-measurement changes no session: the offset in use is corrected if it was the
      current one's, and retained. */
  lemma ConcludedRemeasure(c: Core, task: Task, offset: int, foreign: map<Id, Timeline>)
    requires task.purpose == Remeasure
    ensures E.Concluded(c, task, offset, foreign)
         == c.(offset := if c.session == task.session then offset else c.offset,
               measured := c.measured[task.session := offset])
  {
  }

  /** What a measurement is for. If of all samples a strict majority is within d/2 of the
      true offset, the one retained is within (d+1)/2 - and in use, if the session won or
      was the current one. */
  lemma MeasurementTrue(m: Measurement, gt: int, pht: Option<int>, pgt: Option<int>, now: int, sorted: seq<int>,
                        before: Core, queue: seq<Task>, foreign: map<Id, Timeline>, gateways: set<nat>, hi: int,
                        after: Core, inFlight: Option<Measurement>, pending: seq<Task>, theta: int, d: int)
    requires E.PongHandled(m, gt, pht, pgt, now, sorted, before, queue, foreign, gateways, hi, after, inFlight, pending)
    requires var all := m.samples + ClockEstimate.SamplesFrom(gt, now, pht, pgt);
             && Answered(m, ClockEstimate.SamplesFrom(gt, now, pht, pgt), now).None?
             && 2 * ClockEstimate.Count(all, 2 * theta - d, 2 * theta + d) > |all|
    requires TaskOk(m.task, before.session, before.measured)
    ensures m.task.session in after.measured && 2 * Abs(after.measured[m.task.session] - theta) <= d + 1
    ensures after.session == m.task.session ==> after.offset == after.measured[m.task.session]
  {
    var all := m.samples + ClockEstimate.SamplesFrom(gt, now, pht, pgt);
    ClockEstimate.MedianRobust(all, sorted, theta, d);
    var offset := ClockEstimate.MedianOf(sorted);
    if m.task.purpose == Remeasure {
      ConcludedRemeasure(before, m.task, offset, foreign);
    } else {
      ConcludedJoin(before, m.task, offset, foreign);
    }
  }
}
