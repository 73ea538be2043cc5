/**
 What the timers, the task queue and the directory of a peer do, in terms of what
 came before: who is measured next and when, when a session counts as lost, and which
 channels are dropped.
 */
module EngineLaws {
  import opened Types
  import opened Wrappers
  import opened BeatGrid
  import opened Discovery
  import opened EngineState
  import opened Wakeups
  import ClockEstimate
  import Sync
  import E = Engine

  // ---------------------------------------------------------- members and loss

  /** No peer entry names the session. */
  ghost predicate NobodyIn(peers: map<(Id, nat), PeerEntry>, session: Id) {
    forall k :: k in peers ==> peers[k].state.session != Some(session)
  }

  /** A fresh session is founded exactly if a fellow member was seen and no entry names the
      session any more; otherwise nothing changes. */
  lemma FoundedIff(before: Core, peers: map<(Id, nat), PeerEntry>, freshId: Id, lo: int, hi: int, after: Core)
    requires E.LossHandled(before, peers, freshId, lo, hi, after) && freshId != before.session
    ensures after.session != before.session <==> before.memberSeen && NobodyIn(peers, before.session)
    ensures if after.session == before.session then after == before
            else after.session == after.node == freshId && !after.memberSeen && lo <= -after.offset <= hi
  {
    assert HasMember(peers, before.session) <==> !NobodyIn(peers, before.session);
  }

  /** Nobody is left in a session after a goodbye, a closed gateway or a pruning exactly if
      nobody else was in it, on another gateway, or still in time. */
  lemma NobodyLeftIff(n: Net, node: Id, gw: nat, now: int, session: Id)
    requires NetOk(n)
    ensures NobodyIn(Departed(n, node, gw).peers, session)
       <==> forall k :: k in n.peers && n.peers[k].state.session == Some(session) ==> k == (node, gw)
    ensures NobodyIn(Closed(n, gw).peers, session)
       <==> forall k :: k in n.peers && n.peers[k].state.session == Some(session) ==> k.1 == gw
    ensures NobodyIn(Pruned(n, now).peers, session)
       <==> forall k :: k in n.peers && n.peers[k].state.session == Some(session) ==> n.peers[k].deadline <= now
  {
    hide Departed, Closed, Pruned;
    DepartedExactly(n, node, gw);
    ClosedExactly(n, gw);
    PrunedKeeps(n, now);
    assert forall k :: k in n.peers && k != (node, gw) ==> k in Departed(n, node, gw).peers;
    assert forall k :: k in n.peers && k.1 != gw ==> k in Closed(n, gw).peers;
    assert forall k :: k in n.peers && n.peers[k].deadline > now ==> k in Pruned(n, now).peers;
  }

  /** A pass looks for that only when it pruned. */
  lemma PassFoundedIff(pruned: bool, before: Core, peers: map<(Id, nat), PeerEntry>, freshId: Id, lo: int, hi: int,
                       after: Core)
    requires E.LossUnless(!pruned, before, peers, freshId, lo, hi, after) && freshId != before.session
    ensures after.session != before.session <==> pruned && before.memberSeen && NobodyIn(peers, before.session)
    ensures after.session == before.session ==> after == before
  {
    if pruned {
      FoundedIff(before, peers, freshId, lo, hi, after);
    }
  }

  // ------------------------------------------------------------- the task queue

  /** The task in flight, then those that wait. */
  function Line(inFlight: Option<Measurement>, pending: seq<Task>): seq<Task> {
    (if inFlight.Some? then [inFlight.value.task] else []) + pending
  }

  /** Starting keeps the line, but for a head whose gateway is closed. A measurement started
      has everything before it, and its first retry 50 ms on. */
  lemma StartedKeepsLine(inFlight: Option<Measurement>, pending: seq<Task>, gateways: set<nat>, now: int, u: int)
    ensures var (m, p) := Started(inFlight, pending, gateways, now);
            && Line(m, p) == (if inFlight.None? && pending != [] && pending[0].gateway !in gateways
                              then pending[1..] else Line(inFlight, pending))
            && (inFlight.Some? ==> m == inFlight)
            && (inFlight.None? ==> (m.Some? <==> pending != [] && pending[0].gateway in gateways))
            && (inFlight.None? && m.Some? ==>
                  m.value.samples == [] && m.value.timeouts == 0 && (E.TimedOut(m, u) <==> u >= now + 50_000))
  {
  }

  /** The queue as one measurement after the other is over, at these instants. */
  function Turns(pending: seq<Task>, gateways: set<nat>, ends: seq<int>): (Option<Measurement>, seq<Task>)
    decreases |ends|
  {
    if ends == [] then (None, pending)
    else
      var (m, p) := Started(None, pending, gateways, ends[0]);
      if |ends| == 1 then (m, p) else Turns(p, gateways, ends[1..])
  }

  /** Tasks through open gateways are measured in the order they were queued. */
  lemma {:induction false} ServedInOrder(pending: seq<Task>, gateways: set<nat>, ends: seq<int>)
    requires Routed(pending, gateways) && 0 < |ends| <= |pending|
    ensures var (m, p) := Turns(pending, gateways, ends);
            m.Some? && m.value.task == pending[|ends| - 1] && p == pending[|ends|..]
    decreases |ends|
  {
    if |ends| > 1 {
      ServedInOrder(pending[1..], gateways, ends[1..]);
    }
  }

  /** Gossip from a session not measured yet, nothing else being measured: pongs count from
      now on from the founder's endpoint, if it is known, else from the gossiping peer's;
      if neither is, from nowhere. */
  lemma JoinMeasures(task: Option<Task>, sess: Id, gw: nat, ps: PeerState, n: Net, hi: int,
                     inFlight: Option<Measurement>, queue: seq<Task>)
    requires NetOk(n) && gw in n.gateways
    requires E.JoinQueued(task, sess, gw, ps, n.peers, n.gateways, hi, None, [], inFlight, queue)
    ensures queue == []
    ensures inFlight.Some? ==> inFlight.value.task.session == sess && inFlight.value.task.purpose == Join
    ensures if Endpoints(n.peers, sess) != {} then
              exists k :: k in Endpoints(n.peers, sess) && E.Measuring(inFlight, k.1, k.0)
            else if ps.measurementEndpoint.Some? then E.Measuring(inFlight, gw, ps.measurementEndpoint.value)
            else inFlight.None?
  {
    if E.FounderVisible(n.peers, sess) {
      var k :| k in n.peers && k.0 == sess && n.peers[k].state.measurementEndpoint.Some?;
      assert (n.peers[k].state.measurementEndpoint.value, k.1) in Endpoints(n.peers, sess);
      var t := task.value;
      assert (t.target, t.gateway) in Endpoints(n.peers, sess);
      assert [] + [t] == [t];
    } else {
      assert Endpoints(n.peers, sess) == {};
      if task.Some? {
        assert [] + [task.value] == [task.value];
      }
    }
  }

  /** The measurement endpoints a node advertises, and the gateways it does on. */
  function Endpoints(peers: map<(Id, nat), PeerEntry>, node: Id): set<(Endpoint, nat)> {
    set k | k in peers && k.0 == node && peers[k].state.measurementEndpoint.Some?
      :: (peers[k].state.measurementEndpoint.value, k.1)
  }

  /** A re-measurement is queued exactly if someone else founded the session, it has no
      task, and its founder or a member can be measured. */
  lemma RemeasuredIff(node: Id, sess: Id, peers: map<(Id, nat), PeerEntry>,
                      inFlight: Option<Measurement>, queue: seq<Task>, queue': seq<Task>)
    requires E.RemeasureQueued(node, sess, peers, inFlight, queue, queue')
    ensures queue' != queue <==> && sess != node && !HasTask(inFlight, queue, sess)
                                 && exists k :: k in peers && peers[k].state.measurementEndpoint.Some?
                                                && (k.0 == sess || peers[k].state.session == Some(sess))
    ensures queue <= queue' && HasTask(inFlight, queue', sess) == (HasTask(inFlight, queue, sess) || queue' != queue)
  {
    if queue' != queue {
      assert queue'[|queue|].session == sess;
    }
  }

  /** In a pass that finds a re-measurement due, nothing else being measured, whoever did
      not found the session measures its founder or else a member, if either can be; the
      next is due in 30 s. */
  lemma DueRemeasures(pass: E.Pass, at: int, hi: int, node: Id, session: Id, n: Net,
                      inFlight: Option<Measurement>, queue: seq<Task>, remeasureAt: Option<int>)
    requires NetOk(n) && pass.now >= at
    requires E.TasksRan(pass, None, [], Some(at), hi, node, session, n, inFlight, queue, remeasureAt)
    ensures remeasureAt == Some(pass.now + 30_000_000)
    ensures inFlight.Some? <==> session != node
                                && exists k :: k in n.peers && n.peers[k].state.measurementEndpoint.Some?
                                               && (k.0 == session || n.peers[k].state.session == Some(session))
    ensures inFlight.Some? ==> inFlight.value.task.session == session && inFlight.value.task.purpose == Remeasure
  {
    RemeasuredIff(node, session, n.peers, None, [], pass.requeued);
    if pass.requeued != [] {
      assert |pass.requeued| == 1;
    }
  }

  /** A pass that finds the measurement in flight silent retries it while retries are left,
      and else goes on with the next one queued. */
  lemma SilenceRetriesOrMovesOn(pass: E.Pass, m: Measurement, tasks: seq<Task>, hi: int, node: Id, session: Id, n: Net,
                                inFlight: Option<Measurement>, queue: seq<Task>, remeasureAt: Option<int>)
    requires m.retryDeadline <= pass.now && Routed(tasks, n.gateways)
    requires E.TasksRan(pass, Some(m), tasks, None, hi, node, session, n, inFlight, queue, remeasureAt)
    ensures m.timeouts < 5 ==>
              inFlight.Some? && inFlight.value.task == m.task && inFlight.value.timeouts == m.timeouts + 1
              && inFlight.value.samples == m.samples && queue == tasks
    ensures m.timeouts >= 5 && tasks != [] ==> inFlight.Some? && inFlight.value.task == tasks[0] && queue == tasks[1..]
    ensures m.timeouts >= 5 && tasks == [] ==> inFlight.None? && queue == []
    ensures m.timeouts >= 5 && m.task.purpose == Remeasure ==>
              remeasureAt.Some? && pass.now + 30_000_000 <= remeasureAt.value <= hi + 30_000_000
  {
  }

  /** The next re-measurement is due 30 s after a join, a finished or a failed
      re-measurement, and else as before. */
  lemma RemeasureDue(purpose: Purpose, before: Id, after: Id, timer: Option<int>, timer': Option<int>, lo: int, hi: int)
    ensures E.JoinTimer(before, after, timer, timer', lo, hi) ==>
              if after == before then timer' == timer
              else timer'.Some? && lo + 30_000_000 <= timer'.value <= hi + 30_000_000
    ensures E.FailedTimer(purpose, timer, timer', lo, hi) ==>
              if purpose == Join then timer' == timer
              else timer'.Some? && lo + 30_000_000 <= timer'.value <= hi + 30_000_000
    ensures E.ConcludedTimer(purpose, before, after, timer, timer', lo, hi) ==>
              if purpose == Join && after == before then timer' == timer
              else timer'.Some? && lo + 30_000_000 <= timer'.value <= hi + 30_000_000
  {
  }

  /** A retry, like a pong, gives the measured peer 50 ms. */
  lemma RetryAfter(m: Measurement, samples: seq<int>, now: int, u: int)
    ensures var e := Expired(m, now);
            e.Some? ==> (E.TimedOut(e, u) <==> u >= now + 50_000)
                        && e.value.task == m.task && e.value.samples == m.samples
    ensures var a := Answered(m, samples, now);
            a.Some? ==> (E.TimedOut(a, u) <==> u >= now + 50_000)
                        && a.value.task == m.task && a.value.samples == m.samples + samples
  {
  }

  /** What waits for other gateways keeps its order. */
  lemma {:induction false} WithoutGatewayOrder(pending: seq<Task>, id: nat, i: nat, j: nat) returns (a: nat, b: nat)
    requires i < j < |E.WithoutGateway(pending, id)|
    ensures a < b < |pending|
    ensures pending[a] == E.WithoutGateway(pending, id)[i] && pending[b] == E.WithoutGateway(pending, id)[j]
  {
    var rest := E.WithoutGateway(pending[1..], id);
    if pending[0].gateway == id {
      a, b := WithoutGatewayOrder(pending[1..], id, i, j);
      a, b := a + 1, b + 1;
    } else if i > 0 {
      a, b := WithoutGatewayOrder(pending[1..], id, i - 1, j - 1);
      a, b := a + 1, b + 1;
    } else {
      b := PlaceOf(pending[1..], id, j - 1);
      a, b := 0, b + 1;
    }
  }

  lemma {:induction false} PlaceOf(pending: seq<Task>, id: nat, j: nat) returns (b: nat)
    requires j < |E.WithoutGateway(pending, id)|
    ensures b < |pending| && pending[b] == E.WithoutGateway(pending, id)[j]
  {
    E.WithoutGatewayMembers(pending, id);
    var t := E.WithoutGateway(pending, id)[j];
    assert t in pending;
    b :| b < |pending| && pending[b] == t;
  }

  // ------------------------------------------------------------ chained pings

  /** A pong chains a ping exactly if it is of the measurement in flight, names its session,
      its gateway is open, and samples are missing still. */
  lemma ChainedIff(m: Option<Measurement>, gw: nat, src: Endpoint, session: Id, gt: int, pht: Option<int>,
                   pgt: Option<int>, now: int, gateways: set<nat>)
    ensures E.ChainedPing(m, gw, src, session, gt, pht, pgt, now, gateways).Some?
       <==> && m.Some? && m.value.task == Task(session, src, gw, m.value.task.purpose) && gw in gateways
            && |m.value.samples| + |ClockEstimate.SamplesFrom(gt, now, pht, pgt)| <= Sync.SAMPLES_REQUIRED
  {
  }

  /** What chaining is for: the pong that answers a chained ping brings two samples, both
      within d/2 of the true offset, every one-way delay being in [0, d]. The first pong
      was `back0` under way, the ping `out`, the second pong `back`. */
  lemma ChainedSamplesNear(m: Option<Measurement>, gw: nat, src: Endpoint, session: Id, gt: int, pht: Option<int>,
                           pgt: Option<int>, now: int, gateways: set<nat>,
                           theta: int, back0: int, out: int, back: int, d: int)
    requires 0 <= back0 <= d && 0 <= out <= d && 0 <= back <= d && gt == now - back0 + theta
    requires E.ChainedPing(m, gw, src, session, gt, pht, pgt, now, gateways).Some?
    requires now != 0 && gt != 0 && now + out + theta != 0
    ensures var times := E.ChainedPing(m, gw, src, session, gt, pht, pgt, now, gateways).value;
            var samples := ClockEstimate.SamplesFrom(now + out + theta, now + out + back, times.ht, times.pgt);
            |samples| == 2 && forall i :: 0 <= i < 2 ==> 2 * theta - d <= samples[i] <= 2 * theta + d
  {
    ClockEstimate.EstimatorsNear(now + out + theta, now + out + back, now, gt, theta, back0, out, back, d);
  }

  /** While samples are missing a pong adds its own to those there are; nothing else about
      the measurement changes but the deadline, and nothing at all about the session. */
  lemma PongCounts(m: Measurement, gt: int, pht: Option<int>, pgt: Option<int>, now: int, sorted: seq<int>,
                   before: Core, queue: seq<Task>, foreign: map<Id, Timeline>, gateways: set<nat>, hi: int,
                   after: Core, inFlight: Option<Measurement>, pending: seq<Task>)
    requires E.PongHandled(m, gt, pht, pgt, now, sorted, before, queue, foreign, gateways, hi, after, inFlight, pending)
    requires |m.samples| + |ClockEstimate.SamplesFrom(gt, now, pht, pgt)| <= 100
    ensures after == before && pending == queue
    ensures inFlight == Some(Measurement(m.task, m.samples + ClockEstimate.SamplesFrom(gt, now, pht, pgt), m.timeouts,
                                         now + 50_000))
  {
  }

  // ------------------------------------------------------------------ wake-ups

  /** What the instant a pass returns means: nothing the engine knows of is due before it,
      but a broadcast deferred by a session founded in the pass, and the retry of a
      measurement started in it. */
  lemma WakesInTime(e: E.Engine, next: int, now: int, others: int, before: Timers, founded: bool, anew: bool)
    requires Scheduled(next, now, others, before, e.TimersView(), founded, anew)
    ensures next <= e.lastAliveAt + 250_000 && next <= others
    ensures forall k :: k in e.peers ==> next <= e.peers[k].deadline + 1_000_000
    ensures forall k :: k in e.known ==> next <= e.known[k].deadline + 1_000_000
    ensures e.nextRemeasureAt.Some? ==> next <= e.nextRemeasureAt.value
    ensures !founded && e.broadcastDue.Some? ==> next <= e.broadcastDue.value
    ensures !anew && e.measurement.Some? ==> next <= e.measurement.value.retryDeadline
  {
    var seen := Seen(e.TimersView(), others, founded, anew);
    forall k | k in e.peers ensures next <= e.peers[k].deadline + 1_000_000 {
      assert E.PeerDeadlines(e.peers)[k] in E.PeerDeadlines(e.peers).Values;
    }
    forall k | k in e.known ensures next <= e.known[k].deadline + 1_000_000 {
      assert E.ChannelDeadlines(e.known)[k] in E.ChannelDeadlines(e.known).Values;
    }
    assert e.nextRemeasureAt.Some? ==> e.nextRemeasureAt.value in seen;
    assert !founded && e.broadcastDue.Some? ==> e.broadcastDue.value in seen;
    assert !anew && e.measurement.Some? ==> e.measurement.value.retryDeadline in seen;
  }

  // ------------------------------------------------------------------- channels

  /** After a closed gateway or a pruning a channel is known exactly if it was learned through
      another gateway, and its publisher still has an entry there, or one in time. */
  lemma ChannelKeptIff(n: Net, id: nat, now: int, k: (Id, nat))
    requires NetOk(n)
    ensures k in Closed(n, id).known
       <==> k in n.known && k.1 != id && exists p :: p in n.peers && p.0 == n.known[k].peer && p.1 != id
    ensures k in Pruned(n, now).known
       <==> k in n.known && exists p :: p in n.peers && p.0 == n.known[k].peer && n.peers[p].deadline > now
  {
    hide Closed, Pruned;
    ClosedExactly(n, id);
    PrunedKeeps(n, now);
    if k in n.known {
      assert forall p :: p in Closed(n, id).peers <==> p in n.peers && p.1 != id;
      assert forall p :: p in Pruned(n, now).peers <==> p in n.peers && n.peers[p].deadline > now;
    }
  }

  /** The channel timer never drops a channel before its deadline, leaves none a second past
      it, and drops either every expired one or none. */
  lemma ChannelsLeftExactly(n: Net, now: int)
    ensures var c := E.ChannelsLeft(n, now);
            && c == n.(known := c.known) && (forall k :: k in c.known ==> k in n.known && c.known[k] == n.known[k])
            && (forall k :: k in n.known && n.known[k].deadline > now ==> k in c.known)
            && (forall k :: k in c.known ==> now < c.known[k].deadline + 1_000_000)
            && (c == n || forall k :: k in c.known ==> c.known[k].deadline > now)
  {
  }
}
