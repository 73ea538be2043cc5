/**
 What one peer knows, as values: its session and measured clocks, its measurement
 tasks, and what it learned through its gateways - with what each event does to
 them and what every event keeps.
 */
module EngineState {
  import opened Types
  import opened Wrappers
  import opened BeatGrid
  import opened Gossip
  import opened Election
  import opened Discovery
  import Sync

  const REMEASURE_PERIOD := 30_000_000
  const PRUNE_PADDING := 1_000_000
  const ALIVE_PERIOD := 250_000
  const MIN_BROADCAST_SPACING := 50_000
  const MEASUREMENT_RETRY := 50_000
  const MAX_MEASUREMENT_RETRIES := 5

  // --------------------------------------------------------- session state

  /** Node and session identity, session timeline, ghost-clock offset, transport
      state, whether a fellow member was seen, and the offsets of known sessions. */
  datatype Core = Core(node: Id, session: Id, timeline: Timeline, offset: int, held: StartStopState,
                       memberSeen: bool, measured: map<Id, int>)

  /** The tempo is in range, a retained offset of the current session is the one in
      use, and a session founded by someone else was measured. */
  predicate CoreOk(c: Core) {
    && Clamped(c.timeline.tempo)
    && (c.session in c.measured ==> c.measured[c.session] == c.offset)
    && (c.session != c.node ==> c.session in c.measured)
  }

  function Holding(c: Core): Candidate {
    Candidate(c.session, c.offset)
  }

  /** Switch session: retain the abandoned one's transform, take the cached timeline
      if any, reset the transport. */
  function Joined(c: Core, sess: Id, offset: int, foreign: map<Id, Timeline>): Core {
    c.(session := sess, offset := offset, held := DEFAULT_START_STOP, memberSeen := true,
       timeline := if sess in foreign then Reclamp(foreign[sess]) else c.timeline,
       measured := c.measured[c.session := c.offset])
  }

  /** The join rule applied to a measured session. */
  function Evaluated(c: Core, sess: Id, offset: int, foreign: map<Id, Timeline>): Core {
    if Beats(Candidate(sess, offset), Holding(c)) then Joined(c, sess, offset, foreign) else c
  }

  /** Found a fresh session at local time `now`; its ghost clock starts there. */
  function Refounded(c: Core, id: Id, now: int): Core
    requires c.timeline.tempo > 0
  {
    var tl := Refound(c.timeline, now + c.offset);
    Core(id, id, tl, -now, StartStopState(c.held.isPlaying, tl.beatOrigin, 0), false,
         c.measured[c.session := c.offset])
  }

  /** Gossip from a member of our session. */
  function Gossiped(c: Core, ps: PeerState): Core {
    c.(memberSeen := true,
       timeline := if ps.timeline.Some? then MergeTimeline(c.timeline, ps.timeline.value) else c.timeline,
       held := if ps.startStop.Some? then MergeStartStop(c.held, ps.startStop.value) else c.held)
  }

  /** A foreign session's timeline is cached under the same priority rule. */
  function Cached(foreign: map<Id, Timeline>, sess: Id, tl: Option<Timeline>): map<Id, Timeline> {
    if tl.None? || (sess in foreign && tl.value.beatOrigin <= foreign[sess].beatOrigin) then foreign
    else foreign[sess := tl.value]
  }

  // ----------------------------------------------------- measurement tasks

  datatype Purpose = Join | Remeasure

  datatype Task = Task(session: Id, target: Endpoint, gateway: nat, purpose: Purpose)

  /** Samples are doubled offsets. */
  datatype Measurement = Measurement(task: Task, samples: seq<int>, timeouts: nat, retryDeadline: int)

  predicate Queued(pending: seq<Task>, sess: Id) {
    exists i :: 0 <= i < |pending| && pending[i].session == sess
  }

  predicate HasTask(inFlight: Option<Measurement>, pending: seq<Task>, sess: Id) {
    (inFlight.Some? && inFlight.value.task.session == sess) || Queued(pending, sess)
  }

  /** A join task is for another session, not measured yet. */
  predicate TaskOk(t: Task, session: Id, measured: map<Id, int>) {
    t.purpose == Join ==> t.session != session && t.session !in measured
  }

  /** Queued tasks go through open gateways. */
  predicate Routed(pending: seq<Task>, gateways: set<nat>) {
    forall i :: 0 <= i < |pending| ==> pending[i].gateway in gateways
  }

  predicate WithinBudget(m: Measurement) {
    m.timeouts <= MAX_MEASUREMENT_RETRIES && |m.samples| <= Sync.SAMPLES_REQUIRED
  }

  /** No session is queued twice. */
  predicate Distinct(pending: seq<Task>) {
    forall i, j :: 0 <= i < j < |pending| ==> pending[i].session != pending[j].session
  }

  /** At most one task a session across flight and queue; join tasks name neither
      the current nor a measured session; the one in flight is within its retry and
      sample budget. */
  ghost predicate TasksOk(inFlight: Option<Measurement>, pending: seq<Task>, session: Id, measured: map<Id, int>) {
    && Distinct(pending)
    && (forall i :: 0 <= i < |pending| ==> TaskOk(pending[i], session, measured))
    && (inFlight.Some? ==> !Queued(pending, inFlight.value.task.session)
                           && TaskOk(inFlight.value.task, session, measured) && WithinBudget(inFlight.value))
  }

  /** Take the next task if none is in flight; one through a closed gateway is
      dropped. */
  function Started(inFlight: Option<Measurement>, pending: seq<Task>, gateways: set<nat>, now: int)
    : (Option<Measurement>, seq<Task>)
  {
    if inFlight.Some? || pending == [] then (inFlight, pending)
    else if pending[0].gateway !in gateways then (None, pending[1..])
    else (Some(Measurement(pending[0], [], 0, now + MEASUREMENT_RETRY)), pending[1..])
  }

  lemma StartedKeeps(inFlight: Option<Measurement>, pending: seq<Task>, gateways: set<nat>, now: int,
                     session: Id, measured: map<Id, int>)
    requires TasksOk(inFlight, pending, session, measured)
    ensures var (m, p) := Started(inFlight, pending, gateways, now);
            TasksOk(m, p, session, measured) && (forall i :: 0 <= i < |p| ==> p[i] in pending)
            && (m.Some? ==> m == inFlight || m.value.task in pending)
  {
  }

  /** A task for a session without one may join the queue. */
  lemma EnqueuedKeeps(inFlight: Option<Measurement>, pending: seq<Task>, session: Id, measured: map<Id, int>, t: Task)
    requires TasksOk(inFlight, pending, session, measured)
    requires TaskOk(t, session, measured) && !HasTask(inFlight, pending, t.session)
    ensures TasksOk(inFlight, pending + [t], session, measured)
  {
  }

  /** A join keeps everything, is only made to a measured session, and is not
      undone: the abandoned session's retained offset is refused. */
  lemma EvaluatedKeeps(c: Core, sess: Id, offset: int, foreign: map<Id, Timeline>,
                       inFlight: Option<Measurement>, pending: seq<Task>)
    requires CoreOk(c) && TasksOk(inFlight, pending, c.session, c.measured)
    requires sess in c.measured && c.measured[sess] == offset
    ensures var e := Evaluated(c, sess, offset, foreign);
            && CoreOk(e) && TasksOk(inFlight, pending, e.session, e.measured)
            && !Beats(Candidate(sess, offset), Holding(e))
            && (c.session in e.measured ==> !Beats(Candidate(c.session, e.measured[c.session]), Holding(e)))
  {
    var e := Evaluated(c, sess, offset, foreign);
    if Beats(Candidate(sess, offset), Holding(c)) {
      JoinAntisymmetric(Candidate(sess, offset), Holding(c));
    }
  }

  /** Founding keeps everything, given an id nobody uses. */
  lemma RefoundedKeeps(c: Core, id: Id, now: int, inFlight: Option<Measurement>, pending: seq<Task>)
    requires CoreOk(c) && TasksOk(inFlight, pending, c.session, c.measured) && id !in c.measured
             && !HasTask(inFlight, pending, id)
    requires id != c.session
    ensures c.timeline.tempo > 0
    ensures var r := Refounded(c, id, now);
            CoreOk(r) && TasksOk(inFlight, pending, r.session, r.measured) && !r.memberSeen && r.session == r.node
            && r.measured[c.session] == c.offset
  {
    assert forall i :: 0 <= i < |pending| ==> pending[i].session != id;
  }

  /** A measurement result is retained; a re-measurement of the current session also
      corrects the offset in use. */
  function Retained(c: Core, t: Task, offset: int): Core {
    c.(measured := c.measured[t.session := offset],
       offset := if t.purpose == Remeasure && c.session == t.session then offset else c.offset)
  }

  lemma RetainedKeeps(c: Core, t: Task, offset: int, pending: seq<Task>)
    requires CoreOk(c) && TasksOk(None, pending, c.session, c.measured) && TaskOk(t, c.session, c.measured)
    requires !Queued(pending, t.session)
    ensures var r := Retained(c, t, offset);
            CoreOk(r) && TasksOk(None, pending, r.session, r.measured)
  {
    var r := Retained(c, t, offset);
    forall i | 0 <= i < |pending| ensures TaskOk(pending[i], r.session, r.measured) {
      assert pending[i].session != t.session;
    }
  }

  /** The retry timer expired: one retry is spent, or the measurement fails. */
  function Expired(m: Measurement, now: int): Option<Measurement> {
    if m.timeouts >= MAX_MEASUREMENT_RETRIES then None
    else Some(m.(timeouts := m.timeouts + 1, retryDeadline := now + MEASUREMENT_RETRY))
  }

  /** A pong arrived: its samples are added and the retry timer re-armed, without
      giving spent retries back; enough samples end the measurement. */
  function Answered(m: Measurement, samples: seq<int>, now: int): Option<Measurement> {
    if |m.samples + samples| > Sync.SAMPLES_REQUIRED then None
    else Some(m.(samples := m.samples + samples, retryDeadline := now + MEASUREMENT_RETRY))
  }

  datatype Event = Timeout(now: int) | Pong(samples: seq<int>, now: int)

  function Stepped(m: Measurement, e: Event): Option<Measurement> {
    if e.Timeout? then Expired(m, e.now) else Answered(m, e.samples, e.now)
  }

  /** The measurement after a run of events, if it is still in flight. */
  function Survivor(m: Measurement, events: seq<Event>): Option<Measurement>
    decreases |events|
  {
    if events == [] then Some(m)
    else
      var next := Stepped(m, events[0]);
      if next.None? then None else Survivor(next.value, events[1..])
  }

  function Timeouts(events: seq<Event>): nat {
    if events == [] then 0 else (if events[0].Timeout? then 1 else 0) + Timeouts(events[1..])
  }

  function Samples(events: seq<Event>): nat {
    if events == [] then 0 else (if events[0].Pong? then |events[0].samples| else 0) + Samples(events[1..])
  }

  /** Exactly when a measurement is over: once the expiries exceed its retries or the
      samples what it needs, in whatever order they came. */
  lemma {:induction false} MeasurementOverIff(m: Measurement, events: seq<Event>)
    requires WithinBudget(m)
    ensures Survivor(m, events).None? <==>
              m.timeouts + Timeouts(events) > MAX_MEASUREMENT_RETRIES
                || |m.samples| + Samples(events) > Sync.SAMPLES_REQUIRED
    ensures var s := Survivor(m, events);
            s.Some? ==> s.value.timeouts == m.timeouts + Timeouts(events)
                        && |s.value.samples| == |m.samples| + Samples(events)
    decreases |events|
  {
    if events != [] {
      var next := Stepped(m, events[0]);
      if next.Some? {
        MeasurementOverIff(next.value, events[1..]);
      }
    }
  }

  /** So if every pong brings samples, a new measurement ends, one way or the other, by
      the 106th event. */
  lemma MeasurementEnds(m: Measurement, events: seq<Event>)
    requires m.timeouts == 0 && m.samples == [] && |events| >= 106
    requires forall e :: e in events && e.Pong? ==> e.samples != []
    ensures Survivor(m, events).None?
  {
    MeasurementOverIff(m, events);
    EveryEventCounts(events);
  }

  lemma {:induction false} EveryEventCounts(events: seq<Event>)
    requires forall e :: e in events && e.Pong? ==> e.samples != []
    ensures Timeouts(events) + Samples(events) >= |events|
  {
    if events != [] {
      EveryEventCounts(events[1..]);
    }
  }

  /** Pongs without samples spend nothing and re-arm the timer: however many come in
      time, the measurement stays in flight and gets no further. */
  lemma EmptyPongsNeverEnd(m: Measurement, events: seq<Event>)
    requires WithinBudget(m) && forall e :: e in events ==> e.Pong? && e.samples == []
    ensures Survivor(m, events).Some?
  {
    MeasurementOverIff(m, events);
    EmptyPongsCountNothing(events);
  }

  lemma {:induction false} EmptyPongsCountNothing(events: seq<Event>)
    requires forall e :: e in events ==> e.Pong? && e.samples == []
    ensures Timeouts(events) == 0 && Samples(events) == 0
  {
    if events != [] {
      assert events[0] in events;
      EmptyPongsCountNothing(events[1..]);
    }
  }

  // --------------------------------------------------------- what was learned

  datatype PeerEntry = PeerEntry(state: PeerState, deadline: int)

  datatype KnownChannel = KnownChannel(peer: Id, deadline: int)

  /** Open gateways, the id the next one gets, peers by (node, gateway), remote
      channels by (channel, gateway), and measured paths by (node, gateway). */
  datatype Net = Net(gateways: set<nat>, nextId: nat, peers: map<(Id, nat), PeerEntry>,
                     known: map<(Id, nat), KnownChannel>, paths: set<(Id, nat)>)

  /** The node has an entry on some gateway. */
  predicate Present(peers: map<(Id, nat), PeerEntry>, node: Id) {
    exists k :: k in peers && k.0 == node
  }

  /** Everything names an open gateway, every channel's publisher is a present peer,
      and ids above every gateway opened so far are unused. */
  ghost predicate NetOk(n: Net) {
    && (forall g :: g in n.gateways ==> g < n.nextId)
    && (forall k :: k in n.peers ==> k.1 in n.gateways)
    && (forall k :: k in n.known ==> k.1 in n.gateways && Present(n.peers, n.known[k].peer))
    && (forall k :: k in n.paths ==> k.1 in n.gateways)
  }

  /** Some peer entry belongs to the session. */
  predicate HasMember(peers: map<(Id, nat), PeerEntry>, session: Id) {
    exists k :: k in peers && peers[k].state.session == Some(session)
  }

  /** Channels listed in an announcement are refreshed, one after the other. */
  function Listed(known: map<(Id, nat), KnownChannel>, gw: nat, ids: seq<Id>, entry: KnownChannel)
    : map<(Id, nat), KnownChannel>
  {
    if ids == [] then known else Listed(known, gw, ids[..|ids| - 1], entry)[(ids[|ids| - 1], gw) := entry]
  }

  /** Exactly the listed channels of that gateway carry the new entry; every other one
      stays as it was. */
  lemma {:induction false} ListedExactly(known: map<(Id, nat), KnownChannel>, gw: nat, ids: seq<Id>,
                                         entry: KnownChannel)
    ensures var l := Listed(known, gw, ids, entry);
            && (forall k :: k in l <==> k in known || (k.1 == gw && k.0 in ids))
            && (forall k :: k in l ==> l[k] == if k.1 == gw && k.0 in ids then entry else known[k])
  {
    if ids != [] {
      ListedExactly(known, gw, ids[..|ids| - 1], entry);
      assert ids == ids[..|ids| - 1] + [ids[|ids| - 1]];
    }
  }

  /** A departed publisher's channels and paths disappear. */
  function Left(n: Net, node: Id): Net {
    n.(known := map k | k in n.known && n.known[k].peer != node :: n.known[k],
       paths := set k | k in n.paths && k.0 != node)
  }

  /** The peers left without an entry are forgotten with their channels and, if they
      were among the lost, their paths. */
  function Forgotten(n: Net, lost: set<Id>): Net {
    n.(known := map k | k in n.known && !(n.known[k].peer in lost && !Present(n.peers, n.known[k].peer)) :: n.known[k],
       paths := set k | k in n.paths && !(k.0 in lost && !Present(n.peers, k.0)))
  }

  lemma ForgottenNobody(n: Net)
    ensures Forgotten(n, {}) == n
  {
    assert Forgotten(n, {}).known == n.known;
  }

  /** Forgetting takes the lost one at a time, in any order. */
  lemma ForgottenStep(n: Net, done: set<Id>, node: Id)
    ensures Forgotten(n, done + {node})
            == if Present(n.peers, node) then Forgotten(n, done) else Left(Forgotten(n, done), node)
  {
    var next := if Present(n.peers, node) then Forgotten(n, done) else Left(Forgotten(n, done), node);
    assert Forgotten(n, done + {node}).known == next.known;
    assert Forgotten(n, done + {node}).paths == next.paths;
  }

  /** Close a gateway: it goes, with the entries, channels and paths learned through
      it, and whatever belonged to peers that had no other entry. */
  function Closed(n: Net, id: nat): Net {
    var lost := set k | k in n.peers && k.1 == id :: k.0;
    Forgotten(Net(n.gateways - {id}, n.nextId,
                  map k | k in n.peers && k.1 != id :: n.peers[k],
                  map k | k in n.known && k.1 != id :: n.known[k],
                  set k | k in n.paths && k.1 != id),
              lost)
  }

  /** Drop the entries expired at `now`, and forget the peers left without one. */
  function Pruned(n: Net, now: int): Net {
    var lost := set k | k in n.peers && n.peers[k].deadline <= now :: k.0;
    Forgotten(n.(peers := map k | k in n.peers && n.peers[k].deadline > now :: n.peers[k]), lost)
  }

  /** A peer says goodbye on one gateway: that entry goes, and its channels and paths
      on all gateways. */
  function Departed(n: Net, node: Id, gw: nat): Net {
    Left(n.(peers := n.peers - {(node, gw)}), node)
  }

  /** The node had an entry and has none any more. */
  predicate Gone(before: map<(Id, nat), PeerEntry>, after: map<(Id, nat), PeerEntry>, node: Id) {
    Present(before, node) && !Present(after, node)
  }

  /** Closing a gateway removes exactly what was learned through it: a peer entry
      stays exactly if it is on another gateway, a channel exactly if it is on
      another gateway and its publisher is still present, a path exactly if it is on
      another gateway and its peer is not gone. */
  lemma ClosedExactly(n: Net, id: nat)
    requires NetOk(n)
    ensures var c := Closed(n, id);
            && NetOk(c) && c.gateways == n.gateways - {id} && c.nextId == n.nextId
            && (forall k :: k in c.peers <==> k in n.peers && k.1 != id)
            && (forall k :: k in c.peers ==> c.peers[k] == n.peers[k])
            && (forall k :: k in c.known <==> k in n.known && k.1 != id && Present(c.peers, n.known[k].peer))
            && (forall k :: k in c.known ==> c.known[k] == n.known[k])
            && (forall k :: k in c.paths <==> k in n.paths && k.1 != id && !Gone(n.peers, c.peers, k.0))
  {
    var c := Closed(n, id);
    var lost := set k | k in n.peers && k.1 == id :: k.0;
    forall node | Gone(n.peers, c.peers, node) ensures node in lost {
      var p :| p in n.peers && p.0 == node;
      assert p.1 != id ==> p in c.peers;
    }
    forall node | node in lost ensures Present(n.peers, node) {
      var p :| p in n.peers && p.1 == id && p.0 == node;
    }
  }

  lemma PrunedKeeps(n: Net, now: int)
    requires NetOk(n)
    ensures var c := Pruned(n, now);
            && NetOk(c) && c.gateways == n.gateways && c.nextId == n.nextId
            && (forall k :: k in c.peers <==> k in n.peers && n.peers[k].deadline > now)
            && (forall k :: k in c.peers ==> c.peers[k] == n.peers[k])
            && (forall k :: k in c.known <==> k in n.known && Present(c.peers, n.known[k].peer))
            && (forall k :: k in c.known ==> c.known[k] == n.known[k])
            && (forall k :: k in c.paths <==> k in n.paths && !Gone(n.peers, c.peers, k.0))
  {
    var c := Pruned(n, now);
    var lost := set k | k in n.peers && n.peers[k].deadline <= now :: k.0;
    forall node | Gone(n.peers, c.peers, node) ensures node in lost {
      var p :| p in n.peers && p.0 == node;
      assert n.peers[p].deadline > now ==> p in c.peers;
    }
    forall node | node in lost ensures Present(n.peers, node) {
      var p :| p in n.peers && n.peers[p].deadline <= now && p.0 == node;
    }
  }

  /** A ByeBye removes exactly that entry and, on all gateways, the channels and paths of
      that node. */
  lemma DepartedExactly(n: Net, node: Id, gw: nat)
    requires NetOk(n)
    ensures var d := Departed(n, node, gw);
            && NetOk(d) && d.gateways == n.gateways && d.nextId == n.nextId
            && (forall k :: k in d.peers <==> k in n.peers && k != (node, gw))
            && (forall k :: k in d.peers ==> d.peers[k] == n.peers[k])
            && (forall k :: k in d.known <==> k in n.known && n.known[k].peer != node)
            && (forall k :: k in d.known ==> d.known[k] == n.known[k])
            && (forall k :: k in d.paths <==> k in n.paths && k.0 != node)
  {
    var d := Departed(n, node, gw);
    forall k | k in d.known ensures Present(d.peers, d.known[k].peer) {
      assert Present(n.peers, n.known[k].peer);
      var p :| p in n.peers && p.0 == n.known[k].peer;
      assert p in d.peers;
    }
  }

  // ------------------------------------------------------------- broadcasts

  /** What an Alive round carries. */
  datatype Advert = Advert(node: Id, session: Id, timeline: Timeline, held: StartStopState, audio: bool)

  /** Consecutive rounds are at least 50 ms apart. */
  ghost predicate Spaced(rounds: seq<int>) {
    forall i :: 0 < i < |rounds| ==> rounds[i] - rounds[i - 1] >= MIN_BROADCAST_SPACING
  }

  /** So any two rounds, however far apart in the list, are at least 50 ms times
      their distance apart. */
  lemma {:induction false} RoundsSpread(rounds: seq<int>, i: nat, j: nat)
    requires Spaced(rounds) && i <= j < |rounds|
    ensures rounds[j] - rounds[i] >= (j - i) * MIN_BROADCAST_SPACING
    decreases j
  {
    if i < j {
      RoundsSpread(rounds, i, j - 1);
    }
  }
}
