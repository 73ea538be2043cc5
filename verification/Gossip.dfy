/**
 Gossip of the timeline and the transport state inside one session: the merge
 rules, and n peers that edit, send snapshots and receive any snapshot ever sent,
 any number of times and in any order.
 */
module Gossip {
  import opened Types
  import opened BeatGrid

  // ----------------------------------------------------- the merge register

  /** A register kept under "strictly greater key wins"; an accepted value is
      normalised on the way in. */
  function Merge<V>(key: V -> int, norm: V -> V, cur: V, inc: V): V {
    if key(inc) > key(cur) then norm(inc) else cur
  }

  function MergeAll<V>(key: V -> int, norm: V -> V, cur: V, incs: seq<V>): V
    decreases |incs|
  {
    if incs == [] then cur else MergeAll(key, norm, Merge(key, norm, cur, incs[0]), incs[1..])
  }

  /** Normalising keeps the key. */
  ghost predicate KeepsKey<V(!new)>(key: V -> int, norm: V -> V) {
    forall v :: key(norm(v)) == key(v)
  }

  /** The greatest key among the current value and the incoming ones. */
  function MaxKey<V>(key: V -> int, cur: V, incs: seq<V>): int {
    if incs == [] then key(cur)
    else
      var m := MaxKey(key, cur, incs[1..]);
      if key(incs[0]) > m then key(incs[0]) else m
  }

  lemma {:induction false} MaxKeyIs<V>(key: V -> int, cur: V, incs: seq<V>, m: int)
    requires m >= key(cur) && (forall v :: v in incs ==> key(v) <= m)
    requires m == key(cur) || exists v :: v in incs && key(v) == m
    ensures MaxKey(key, cur, incs) == m
  {
    MaxKeyBounds(key, cur, incs);
  }

  lemma {:induction false} MaxKeyBounds<V>(key: V -> int, cur: V, incs: seq<V>)
    ensures MaxKey(key, cur, incs) >= key(cur)
    ensures forall v :: v in incs ==> key(v) <= MaxKey(key, cur, incs)
    ensures MaxKey(key, cur, incs) == key(cur) || exists v :: v in incs && key(v) == MaxKey(key, cur, incs)
  {
    if incs != [] {
      MaxKeyBounds(key, cur, incs[1..]);
      var m := MaxKey(key, cur, incs[1..]);
      if key(incs[0]) <= m && m != key(cur) {
        var v :| v in incs[1..] && key(v) == m;
        assert v in incs;
      }
    }
  }

  /** The register ends with the greatest key: its own value if no incoming one
      exceeds it, else the first one received that carries the greatest key. */
  lemma {:induction false} MergeAllIs<V(!new)>(key: V -> int, norm: V -> V, cur: V, incs: seq<V>)
    requires KeepsKey(key, norm)
    ensures var r, m := MergeAll(key, norm, cur, incs), MaxKey(key, cur, incs);
            && key(r) == m
            && (m == key(cur) ==> r == cur)
            && (m > key(cur) ==> exists i :: 0 <= i < |incs| && key(incs[i]) == m && r == norm(incs[i])
                                  && forall j :: 0 <= j < i ==> key(incs[j]) < m)
    decreases |incs|
  {
    if incs != [] {
      var next, tail := Merge(key, norm, cur, incs[0]), incs[1..];
      MergeAllIs(key, norm, next, tail);
      MaxKeyBounds(key, cur, incs);
      MaxKeyBounds(key, next, tail);
      MaxKeyBounds(key, cur, tail);
      var r, m := MergeAll(key, norm, cur, incs), MaxKey(key, next, tail);
      assert key(next) == if key(incs[0]) > key(cur) then key(incs[0]) else key(cur);
      MaxAfterFirst(key, norm, cur, incs);
      if m > key(cur) {
        if m == key(next) {
          assert key(incs[0]) == m && r == norm(incs[0]);
        } else {
          var i :| 0 <= i < |tail| && key(tail[i]) == m && r == norm(tail[i])
                   && forall j :: 0 <= j < i ==> key(tail[j]) < m;
          assert key(incs[i + 1]) == m && r == norm(incs[i + 1]);
          forall j | 0 <= j < i + 1 ensures key(incs[j]) < m {
            if j > 0 {
              assert incs[j] == tail[j - 1];
            }
          }
        }
      }
    }
  }

  lemma MaxAfterFirst<V(!new)>(key: V -> int, norm: V -> V, cur: V, incs: seq<V>)
    requires KeepsKey(key, norm) && incs != []
    ensures MaxKey(key, cur, incs) == MaxKey(key, Merge(key, norm, cur, incs[0]), incs[1..])
  {
    var next, tail := Merge(key, norm, cur, incs[0]), incs[1..];
    assert key(next) == if key(incs[0]) > key(cur) then key(incs[0]) else key(cur);
    MaxKeyBounds(key, cur, tail);
    MaxKeyBounds(key, next, tail);
    var m := MaxKey(key, cur, tail);
    if key(next) > m {
      MaxKeyIs(key, next, tail, key(next));
    } else {
      MaxKeyIs(key, next, tail, m);
    }
  }

  ghost predicate SameMembers<V(!new)>(a: seq<V>, b: seq<V>) {
    forall v :: v in a <==> v in b
  }

  lemma MaxKeyOfMembers<V(!new)>(key: V -> int, cur: V, a: seq<V>, b: seq<V>)
    requires SameMembers(a, b)
    ensures MaxKey(key, cur, a) == MaxKey(key, cur, b)
  {
    MaxKeyBounds(key, cur, a);
    MaxKeyBounds(key, cur, b);
    if MaxKey(key, cur, a) != key(cur) {
      var v :| v in a && key(v) == MaxKey(key, cur, a);
      assert v in b;
    }
    if MaxKey(key, cur, b) != key(cur) {
      var v :| v in b && key(v) == MaxKey(key, cur, b);
      assert v in a;
    }
  }

  /** The key reached depends only on which values were received: loss aside, not on
      order or repetition. */
  lemma KeyOrderIndependent<V(!new)>(key: V -> int, norm: V -> V, cur: V, a: seq<V>, b: seq<V>)
    requires KeepsKey(key, norm) && SameMembers(a, b)
    ensures key(MergeAll(key, norm, cur, a)) == key(MergeAll(key, norm, cur, b))
  {
    MergeAllIs(key, norm, cur, a);
    MergeAllIs(key, norm, cur, b);
    MaxKeyOfMembers(key, cur, a, b);
  }

  /** All winning candidates carry the same value. */
  ghost predicate TopAgrees<V(!new)>(key: V -> int, norm: V -> V, cur: V, incs: seq<V>) {
    var m := MaxKey(key, cur, incs);
    m > key(cur) ==>
      forall u, v :: u in incs && v in incs && key(u) == m && key(v) == m ==> norm(u) == norm(v)
  }

  /** The whole value is independent of order and repetition exactly when the
      received values with the winning key agree. */
  lemma ValueOrderIndependentIff<V(!new)>(key: V -> int, norm: V -> V, cur: V, incs: seq<V>)
    requires KeepsKey(key, norm)
    ensures (forall other :: SameMembers(incs, other) ==>
               MergeAll(key, norm, cur, other) == MergeAll(key, norm, cur, incs))
       <==> TopAgrees(key, norm, cur, incs)
  {
    var m := MaxKey(key, cur, incs);
    if TopAgrees(key, norm, cur, incs) {
      forall other | SameMembers(incs, other)
        ensures MergeAll(key, norm, cur, other) == MergeAll(key, norm, cur, incs)
      {
        MergeAllIs(key, norm, cur, incs);
        MergeAllIs(key, norm, cur, other);
        MaxKeyOfMembers(key, cur, incs, other);
        MaxKeyBounds(key, cur, incs);
        if m > key(cur) {
          var i :| 0 <= i < |incs| && key(incs[i]) == m && MergeAll(key, norm, cur, incs) == norm(incs[i]);
          var j :| 0 <= j < |other| && key(other[j]) == m && MergeAll(key, norm, cur, other) == norm(other[j]);
          assert incs[i] in incs && other[j] in incs;
        }
      }
    } else {
      var u, v :| u in incs && v in incs && key(u) == m && key(v) == m && norm(u) != norm(v);
      HeadWins(key, norm, cur, incs, u);
      HeadWins(key, norm, cur, incs, v);
    }
  }

  /** Receiving a winning value first makes it the result. */
  lemma HeadWins<V(!new)>(key: V -> int, norm: V -> V, cur: V, incs: seq<V>, u: V)
    requires KeepsKey(key, norm) && u in incs && key(u) == MaxKey(key, cur, incs) > key(cur)
    ensures SameMembers(incs, [u] + incs) && MergeAll(key, norm, cur, [u] + incs) == norm(u)
  {
    var other := [u] + incs;
    MaxKeyOfMembers(key, cur, incs, other);
    MergeAllIs(key, norm, cur, other);
    var i :| 0 <= i < |other| && key(other[i]) == MaxKey(key, cur, other)
             && MergeAll(key, norm, cur, other) == norm(other[i])
             && forall j :: 0 <= j < i ==> key(other[j]) < MaxKey(key, cur, other);
    assert key(other[0]) == MaxKey(key, cur, other);
    assert i == 0;
  }

  // ------------------------------------------------- timeline and transport

  function OriginOf(tl: Timeline): int { tl.beatOrigin }

  /** Receivers re-clamp the tempo. */
  function Reclamp(tl: Timeline): Timeline { tl.(tempo := ClampTempo(tl.tempo)) }

  function StampOf(s: StartStopState): int { s.timestamp }

  function Unchanged(s: StartStopState): StartStopState { s }

  function MergeTimeline(cur: Timeline, inc: Timeline): Timeline {
    if inc.beatOrigin > cur.beatOrigin then Reclamp(inc) else cur
  }

  function MergeStartStop(cur: StartStopState, inc: StartStopState): StartStopState {
    if inc.timestamp > cur.timestamp then inc else cur
  }

  lemma MergesAreRegisters(t: Timeline, u: Timeline, r: StartStopState, s: StartStopState)
    ensures MergeTimeline(t, u) == Merge(OriginOf, Reclamp, t, u)
    ensures MergeStartStop(r, s) == Merge(StampOf, Unchanged, r, s)
    ensures KeepsKey(OriginOf, Reclamp) && KeepsKey(StampOf, Unchanged)
  {
  }

  function MergeTimelines(cur: Timeline, incs: seq<Timeline>): Timeline
    decreases |incs|
  {
    if incs == [] then cur else MergeTimelines(MergeTimeline(cur, incs[0]), incs[1..])
  }

  lemma {:induction false} MergeTimelinesIs(cur: Timeline, incs: seq<Timeline>)
    ensures MergeTimelines(cur, incs) == MergeAll(OriginOf, Reclamp, cur, incs)
    decreases |incs|
  {
    if incs != [] {
      MergesAreRegisters(cur, incs[0], DEFAULT_START_STOP, DEFAULT_START_STOP);
      MergeTimelinesIs(MergeTimeline(cur, incs[0]), incs[1..]);
    }
  }

  /** A peer's timeline after any snapshots depends only on which ones it got,
      exactly when those with the greatest beat origin agree on the timeline. */
  lemma TimelineOrderIndependentIff(cur: Timeline, incs: seq<Timeline>)
    ensures (forall other :: SameMembers(incs, other) ==> MergeTimelines(cur, other) == MergeTimelines(cur, incs))
       <==> TopAgrees(OriginOf, Reclamp, cur, incs)
  {
    MergesAreRegisters(cur, cur, DEFAULT_START_STOP, DEFAULT_START_STOP);
    ValueOrderIndependentIff(OriginOf, Reclamp, cur, incs);
    MergeTimelinesIs(cur, incs);
    forall other ensures MergeTimelines(cur, other) == MergeAll(OriginOf, Reclamp, cur, other) {
      MergeTimelinesIs(cur, other);
    }
  }

  /** Two tempo changes at the same beat origin do not merge: the first one heard
      stays. */
  lemma EqualOriginsDoNotMerge()
    ensures var cur := Timeline(500_000, 0, 0);
            var a, b := Timeline(400_000, 7, 0), Timeline(600_000, 7, 0);
            MergeTimelines(cur, [a, b]) == a && MergeTimelines(cur, [b, a]) == b
  {
    var cur := Timeline(500_000, 0, 0);
    var a, b := Timeline(400_000, 7, 0), Timeline(600_000, 7, 0);
    assert [a, b][1..] == [b] && [b, a][1..] == [a] && [a][1..] == [] && [b][1..] == [];
    assert MergeTimelines(a, [b]) == a && MergeTimelines(b, [a]) == b;
  }

  // ---------------------------------------------------------- n-peer system

  /** What a peer holds and what a snapshot carries. */
  datatype View = View(timeline: Timeline, startStop: StartStopState)

  type Peer = nat

  /** All peers' views, every snapshot ever sent, and every timeline and transport
      change ever made by a local edit. */
  datatype World = World(views: map<Peer, View>, sent: set<View>, edits: set<Timeline>, actions: set<StartStopState>)

  datatype Step =
    | SetTempo(p: Peer, ghostNow: int, tempo: int)
    | SetPlaying(p: Peer, ghostNow: int, playing: bool)
    | Send(p: Peer)
    | Deliver(p: Peer, snapshot: View)

  function MergeView(v: View, inc: View): View {
    View(MergeTimeline(v.timeline, inc.timeline), MergeStartStop(v.startStop, inc.startStop))
  }

  /** A local transport change at ghost time `g`; its timestamp is never reused. */
  function Restamp(v: View, g: int, playing: bool): StartStopState
    requires v.timeline.tempo > 0
  {
    var next := v.startStop.timestamp + 1;
    StartStopState(playing, BeatsAtGhost(v.timeline, g), if g > next then g else next)
  }

  /** A local change carries the flag asked for, at the current beat, under the least
      timestamp that neither was used before nor lies in the past. */
  lemma RestampIs(v: View, g: int, playing: bool, stamp: int)
    requires v.timeline.tempo > 0
    ensures var s := Restamp(v, g, playing);
            && s.isPlaying == playing && s.beats == BeatsAtGhost(v.timeline, g)
            && s.timestamp > v.startStop.timestamp && s.timestamp >= g
            && (stamp > v.startStop.timestamp && stamp >= g ==> stamp >= s.timestamp)
  {
  }

  /** So whoever holds no later action than the maker did takes it over as it is. */
  lemma RestampWins(v: View, g: int, playing: bool, other: View)
    requires v.timeline.tempo > 0 && other.startStop.timestamp <= v.startStop.timestamp
    ensures var s := Restamp(v, g, playing);
            MergeView(other, View(v.timeline, s)).startStop == s
  {
    RestampIs(v, g, playing, 0);
  }

  /** Lost messages are never delivered; nothing removes a sent one, so it may come
      again and late. */
  predicate Enabled(w: World, s: Step) {
    s.p in w.views && w.views[s.p].timeline.tempo > 0 && (s.Deliver? ==> s.snapshot in w.sent)
  }

  function Next(w: World, s: Step): World
    requires Enabled(w, s)
  {
    var v := w.views[s.p];
    match s
    case SetTempo(p, g, tempo) =>
      var tl := Retempo(v.timeline, g, tempo);
      w.(views := w.views[p := v.(timeline := tl)], edits := w.edits + {tl})
    case SetPlaying(p, g, playing) =>
      var st := Restamp(v, g, playing);
      w.(views := w.views[p := v.(startStop := st)], actions := w.actions + {st})
    case Send(p) => w.(sent := w.sent + {v})
    case Deliver(p, m) => w.(views := w.views[p := MergeView(v, m)])
  }

  ghost predicate RunsFrom(w: World, steps: seq<Step>)
    decreases |steps|
  {
    steps == [] || (Enabled(w, steps[0]) && RunsFrom(Next(w, steps[0]), steps[1..]))
  }

  ghost function EndOf(w: World, steps: seq<Step>): World
    requires RunsFrom(w, steps)
    decreases |steps|
  {
    if steps == [] then w else EndOf(Next(w, steps[0]), steps[1..])
  }

  /** All peers in one session, nothing sent yet. */
  ghost predicate Initial(w: World, t0: Timeline, s0: StartStopState) {
    && Clamped(t0.tempo) && w.sent == {} && w.edits == {} && w.actions == {}
    && forall p :: p in w.views ==> w.views[p] == View(t0, s0)
  }

  /** A view made of the initial state and local edits only. */
  ghost predicate Genuine(v: View, w: World, t0: Timeline, s0: StartStopState) {
    && (v.timeline == t0 || v.timeline in w.edits) && (v.startStop == s0 || v.startStop in w.actions)
  }

  ghost predicate Inv(w: World, t0: Timeline, s0: StartStopState) {
    && Clamped(t0.tempo)
    && (forall t :: t in w.edits ==> Clamped(t.tempo))
    && (forall p :: p in w.views ==> Genuine(w.views[p], w, t0, s0))
    && (forall m :: m in w.sent ==> Genuine(m, w, t0, s0) && Superseded(m, w))
  }

  /** Whoever sent this snapshot still holds it, part by part, or something newer. */
  ghost predicate Superseded(m: View, w: World) {
    exists p :: p in w.views && Supersedes(w.views[p], m)
  }

  /** Each part is the same or has a greater key. */
  predicate Supersedes(v: View, m: View) {
    && (v.timeline == m.timeline || m.timeline.beatOrigin < v.timeline.beatOrigin)
    && (v.startStop == m.startStop || m.startStop.timestamp < v.startStop.timestamp)
  }

  predicate AheadOf(v: View, m: View) {
    m.timeline.beatOrigin <= v.timeline.beatOrigin && m.startStop.timestamp <= v.startStop.timestamp
  }

  /** No step of any peer lowers anyone's beat origin or transport timestamp, or
      changes what goes with them. */
  lemma StepMonotone(w: World, s: Step, p: Peer)
    requires Enabled(w, s) && p in w.views
    ensures p in Next(w, s).views && Supersedes(Next(w, s).views[p], w.views[p])
  {
  }

  lemma StepKeepsInv(w: World, s: Step, t0: Timeline, s0: StartStopState)
    requires Enabled(w, s) && Inv(w, t0, s0)
    ensures Inv(Next(w, s), t0, s0)
  {
    var w', v := Next(w, s), w.views[s.p];
    assert Genuine(v, w, t0, s0);
    if s.Deliver? {
      assert Genuine(s.snapshot, w, t0, s0);
      assert Reclamp(s.snapshot.timeline) == s.snapshot.timeline;
    }
    forall p | p in w'.views ensures Genuine(w'.views[p], w', t0, s0) {
      assert p in w.views && Genuine(w.views[p], w, t0, s0);
    }
    forall m | m in w'.sent ensures Genuine(m, w', t0, s0) && Superseded(m, w') {
      if m in w.sent {
        assert Genuine(m, w, t0, s0);
        var p :| p in w.views && Supersedes(w.views[p], m);
        StepMonotone(w, s, p);
        assert p in w'.views && Supersedes(w'.views[p], m);
      } else {
        assert Supersedes(w'.views[s.p], m);
      }
    }
  }

  lemma InitialInv(w: World, t0: Timeline, s0: StartStopState)
    requires Initial(w, t0, s0)
    ensures Inv(w, t0, s0)
  {
  }

  /** Over every run: nothing anyone holds ever goes back, and every held or sent
      timeline and transport state is the initial one or was made by some peer's
      local edit - under any interleaving, loss, duplication and reordering. */
  lemma {:induction false} RunSafe(w: World, steps: seq<Step>, t0: Timeline, s0: StartStopState)
    requires Inv(w, t0, s0) && RunsFrom(w, steps)
    ensures Inv(EndOf(w, steps), t0, s0)
    ensures EndOf(w, steps).views.Keys == w.views.Keys
    ensures forall p :: p in w.views ==> Supersedes(EndOf(w, steps).views[p], w.views[p])
    decreases |steps|
  {
    if steps != [] {
      var next := Next(w, steps[0]);
      StepKeepsInv(w, steps[0], t0, s0);
      RunSafe(next, steps[1..], t0, s0);
      forall p | p in w.views ensures Supersedes(EndOf(w, steps).views[p], w.views[p]) {
        StepMonotone(w, steps[0], p);
        assert p in next.views;
      }
    }
  }

  /** Once a peer has been delivered a snapshot it stays at or ahead of it. */
  lemma {:induction false} DeliveredStays(w: World, steps: seq<Step>, p: Peer, m: View, t0: Timeline,
                                          s0: StartStopState)
    requires Inv(w, t0, s0) && RunsFrom(w, steps) && Deliver(p, m) in steps
    ensures p in EndOf(w, steps).views && AheadOf(EndOf(w, steps).views[p], m)
    decreases |steps|
  {
    var next := Next(w, steps[0]);
    StepKeepsInv(w, steps[0], t0, s0);
    RunSafe(next, steps[1..], t0, s0);
    if steps[0] == Deliver(p, m) {
      assert AheadOf(next.views[p], m);
    } else {
      DeliveredStays(next, steps[1..], p, m, t0, s0);
    }
  }

  /** The step makes `p` hold the timeline: its own tempo change, or a delivery. */
  predicate LearnsTimeline(w: World, s: Step, p: Peer, t: Timeline)
    requires Enabled(w, s)
  {
    s.p == p && ((s.SetTempo? && Next(w, s).views[p].timeline == t) || (s.Deliver? && s.snapshot.timeline == t))
  }

  ghost predicate EverLearnsTimeline(w: World, steps: seq<Step>, p: Peer, t: Timeline)
    requires RunsFrom(w, steps)
    decreases |steps|
  {
    steps != [] && (LearnsTimeline(w, steps[0], p, t) || EverLearnsTimeline(Next(w, steps[0]), steps[1..], p, t))
  }

  /** Whoever learned a timeline never falls behind it. */
  lemma {:induction false} LearnedTimelineStays(w: World, steps: seq<Step>, p: Peer, t: Timeline, t0: Timeline,
                                                s0: StartStopState)
    requires Inv(w, t0, s0) && RunsFrom(w, steps) && EverLearnsTimeline(w, steps, p, t)
    ensures p in EndOf(w, steps).views && EndOf(w, steps).views[p].timeline.beatOrigin >= t.beatOrigin
    decreases |steps|
  {
    var next := Next(w, steps[0]);
    StepKeepsInv(w, steps[0], t0, s0);
    RunSafe(next, steps[1..], t0, s0);
    if LearnsTimeline(w, steps[0], p, t) {
      assert next.views[p].timeline.beatOrigin >= t.beatOrigin;
    } else {
      LearnedTimelineStays(next, steps[1..], p, t, t0, s0);
    }
  }

  /** A timeline is only held by who held it at the start or learned it. */
  lemma {:induction false} TimelineWasLearned(w: World, steps: seq<Step>, p: Peer, t: Timeline, t0: Timeline,
                                              s0: StartStopState)
    requires Inv(w, t0, s0) && RunsFrom(w, steps) && p in w.views && p in EndOf(w, steps).views
    requires EndOf(w, steps).views[p].timeline == t
    ensures w.views[p].timeline == t || EverLearnsTimeline(w, steps, p, t)
    decreases |steps|
  {
    if steps != [] {
      var next := Next(w, steps[0]);
      StepKeepsInv(w, steps[0], t0, s0);
      TimelineWasLearned(next, steps[1..], p, t, t0, s0);
      if next.views[p].timeline == t && w.views[p].timeline != t && steps[0].Deliver? {
        assert Genuine(steps[0].snapshot, w, t0, s0);
        assert Reclamp(steps[0].snapshot.timeline) == steps[0].snapshot.timeline;
      }
    }
  }

  /** Every origin but `top`'s is smaller. */
  ghost predicate TopTimeline(w: World, t0: Timeline, top: Timeline) {
    forall t :: t in w.edits + {t0} && t != top ==> t.beatOrigin < top.beatOrigin
  }

  /** Convergence: over any run from the start, if one timeline's origin exceeds all
      others ever made, a peer ends with exactly that timeline if and only if it
      made it or was delivered a snapshot carrying it, or nobody made a better one
      than the initial. */
  lemma TimelineConverges(w: World, steps: seq<Step>, t0: Timeline, s0: StartStopState, top: Timeline, p: Peer)
    requires Initial(w, t0, s0) && RunsFrom(w, steps) && p in w.views
    requires TopTimeline(EndOf(w, steps), t0, top)
    ensures p in EndOf(w, steps).views
    ensures EndOf(w, steps).views[p].timeline == top <==> top == t0 || EverLearnsTimeline(w, steps, p, top)
  {
    var end := EndOf(w, steps);
    InitialInv(w, t0, s0);
    RunSafe(w, steps, t0, s0);
    assert p in end.views && Genuine(end.views[p], end, t0, s0);
    if EverLearnsTimeline(w, steps, p, top) {
      LearnedTimelineStays(w, steps, p, top, t0, s0);
    } else if end.views[p].timeline == top {
      TimelineWasLearned(w, steps, p, top, t0, s0);
    }
  }

  /** The step makes `p` hold the transport state: its own action, or a delivery. */
  predicate LearnsAction(w: World, s: Step, p: Peer, a: StartStopState)
    requires Enabled(w, s)
  {
    s.p == p && ((s.SetPlaying? && Next(w, s).views[p].startStop == a) || (s.Deliver? && s.snapshot.startStop == a))
  }

  ghost predicate EverLearnsAction(w: World, steps: seq<Step>, p: Peer, a: StartStopState)
    requires RunsFrom(w, steps)
    decreases |steps|
  {
    steps != [] && (LearnsAction(w, steps[0], p, a) || EverLearnsAction(Next(w, steps[0]), steps[1..], p, a))
  }

  lemma {:induction false} LearnedActionStays(w: World, steps: seq<Step>, p: Peer, a: StartStopState, t0: Timeline,
                                              s0: StartStopState)
    requires Inv(w, t0, s0) && RunsFrom(w, steps) && EverLearnsAction(w, steps, p, a)
    ensures p in EndOf(w, steps).views && EndOf(w, steps).views[p].startStop.timestamp >= a.timestamp
    decreases |steps|
  {
    var next := Next(w, steps[0]);
    StepKeepsInv(w, steps[0], t0, s0);
    RunSafe(next, steps[1..], t0, s0);
    if LearnsAction(w, steps[0], p, a) {
      assert next.views[p].startStop.timestamp >= a.timestamp;
    } else {
      LearnedActionStays(next, steps[1..], p, a, t0, s0);
    }
  }

  lemma {:induction false} ActionWasLearned(w: World, steps: seq<Step>, p: Peer, a: StartStopState)
    requires RunsFrom(w, steps) && p in w.views && p in EndOf(w, steps).views
    requires EndOf(w, steps).views[p].startStop == a
    ensures w.views[p].startStop == a || EverLearnsAction(w, steps, p, a)
    decreases |steps|
  {
    if steps != [] {
      ActionWasLearned(Next(w, steps[0]), steps[1..], p, a);
    }
  }

  /** Every timestamp but `top`'s is smaller. */
  ghost predicate TopAction(w: World, s0: StartStopState, top: StartStopState) {
    forall a :: a in w.actions + {s0} && a != top ==> a.timestamp < top.timestamp
  }

  /** The same for the transport: the latest action is held by exactly those who made
      it or were delivered it. */
  lemma TransportConverges(w: World, steps: seq<Step>, t0: Timeline, s0: StartStopState, top: StartStopState, p: Peer)
    requires Initial(w, t0, s0) && RunsFrom(w, steps) && p in w.views
    requires TopAction(EndOf(w, steps), s0, top)
    ensures p in EndOf(w, steps).views
    ensures EndOf(w, steps).views[p].startStop == top <==> top == s0 || EverLearnsAction(w, steps, p, top)
  {
    var end := EndOf(w, steps);
    InitialInv(w, t0, s0);
    RunSafe(w, steps, t0, s0);
    assert p in end.views && Genuine(end.views[p], end, t0, s0);
    if EverLearnsAction(w, steps, p, top) {
      LearnedActionStays(w, steps, p, top, t0, s0);
    } else if end.views[p].startStop == top {
      ActionWasLearned(w, steps, p, top);
    }
  }

  /** Only deliveries and sends. */
  predicate Quiet(steps: seq<Step>) {
    forall i :: 0 <= i < |steps| ==> steps[i].Deliver? || steps[i].Send?
  }

  /** Every view and every message is at or below this origin and timestamp. */
  ghost predicate Below(w: World, origin: int, stamp: int) {
    && (forall p :: p in w.views ==>
          w.views[p].timeline.beatOrigin <= origin && w.views[p].startStop.timestamp <= stamp)
    && (forall m :: m in w.sent ==> m.timeline.beatOrigin <= origin && m.startStop.timestamp <= stamp)
  }

  lemma {:induction false} QuietStaysBelow(w: World, steps: seq<Step>, origin: int, stamp: int)
    requires RunsFrom(w, steps) && Quiet(steps) && Below(w, origin, stamp)
    ensures Below(EndOf(w, steps), origin, stamp)
    decreases |steps|
  {
    if steps != [] {
      assert steps[0].Deliver? || steps[0].Send?;
      QuietStaysBelow(Next(w, steps[0]), steps[1..], origin, stamp);
    }
  }

  /** Every peer is delivered every other peer's snapshot; its own frames a peer
      ignores. */
  ghost predicate Exchanged(w: World, steps: seq<Step>) {
    forall a, b :: a in w.views && b in w.views && a != b ==> Deliver(a, w.views[b]) in steps
  }

  ghost predicate TopOrigin(w: World, a: Peer) {
    a in w.views && forall c :: c in w.views ==> w.views[c].timeline.beatOrigin <= w.views[a].timeline.beatOrigin
  }

  ghost predicate TopStamp(w: World, a: Peer) {
    a in w.views && forall c :: c in w.views ==> w.views[c].startStop.timestamp <= w.views[a].startStop.timestamp
  }

  /** Those with the greatest origin agree on the timeline. */
  ghost predicate TopTimelinesAgree(w: World) {
    forall a, b :: TopOrigin(w, a) && TopOrigin(w, b) ==> w.views[a].timeline == w.views[b].timeline
  }

  /** Those with the latest timestamp agree on the transport state. */
  ghost predicate TopActionsAgree(w: World) {
    forall a, b :: TopStamp(w, a) && TopStamp(w, b) ==> w.views[a].startStop == w.views[b].startStop
  }

  ghost predicate SameTimelines(w: World) {
    forall p, q :: p in w.views && q in w.views ==> w.views[p].timeline == w.views[q].timeline
  }

  ghost predicate SameActions(w: World) {
    forall p, q :: p in w.views && q in w.views ==> w.views[p].startStop == w.views[q].startStop
  }

  /** One full exchange suffices: from any reachable world, if no one edits while
      every peer is delivered every other peer's current snapshot - in any order,
      among any repeated and stale messages - all peers end with the greatest origin
      and the latest timestamp there were. They end with the same timeline exactly if
      those who held that origin agreed on it, and likewise for the transport. */
  lemma FullExchange(w: World, steps: seq<Step>, t0: Timeline, s0: StartStopState)
    requires Inv(w, t0, s0) && RunsFrom(w, steps) && Quiet(steps) && Exchanged(w, steps)
    ensures var end := EndOf(w, steps);
            && end.views.Keys == w.views.Keys
            && (forall p, a :: p in w.views && TopOrigin(w, a) ==>
                  end.views[p].timeline.beatOrigin == w.views[a].timeline.beatOrigin)
            && (forall p, a :: p in w.views && TopStamp(w, a) ==>
                  end.views[p].startStop.timestamp == w.views[a].startStop.timestamp)
            && (SameTimelines(end) <==> TopTimelinesAgree(w))
            && (SameActions(end) <==> TopActionsAgree(w))
  {
    var end := EndOf(w, steps);
    RunSafe(w, steps, t0, s0);
    if w.views.Keys != {} {
      var o, a := TopPeers(w, w.views.Keys);
      ReachesTop(w, steps, t0, s0, o, a);
      TimelinesEndEqual(w, steps, t0, s0, o, a);
      ActionsEndEqual(w, steps, t0, s0, o, a);
    }
  }

  /** There is a peer with the greatest origin and one with the latest timestamp. */
  lemma {:induction false} TopPeers(w: World, ps: set<Peer>) returns (o: Peer, a: Peer)
    requires ps <= w.views.Keys && ps != {}
    ensures o in ps && a in ps
    ensures forall c :: c in ps ==> w.views[c].timeline.beatOrigin <= w.views[o].timeline.beatOrigin
    ensures forall c :: c in ps ==> w.views[c].startStop.timestamp <= w.views[a].startStop.timestamp
    decreases ps
  {
    var p :| p in ps;
    o, a := p, p;
    var rest := ps - {p};
    assert forall c :: c in ps <==> c == p || c in rest;
    if rest != {} {
      var o', a' := TopPeers(w, rest);
      if w.views[o'].timeline.beatOrigin > w.views[p].timeline.beatOrigin {
        o := o';
      }
      if w.views[a'].startStop.timestamp > w.views[p].startStop.timestamp {
        a := a';
      }
    }
  }

  /** Everyone reaches the top keys, and no further. */
  lemma ReachesTop(w: World, steps: seq<Step>, t0: Timeline, s0: StartStopState, o: Peer, a: Peer)
    requires Inv(w, t0, s0) && RunsFrom(w, steps) && Quiet(steps) && Exchanged(w, steps)
    requires TopOrigin(w, o) && TopStamp(w, a)
    ensures var end := EndOf(w, steps);
            forall p :: p in w.views ==>
              && p in end.views && end.views[p].timeline.beatOrigin == w.views[o].timeline.beatOrigin
              && end.views[p].startStop.timestamp == w.views[a].startStop.timestamp
  {
    var end := EndOf(w, steps);
    RunSafe(w, steps, t0, s0);
    forall m | m in w.sent
      ensures m.timeline.beatOrigin <= w.views[o].timeline.beatOrigin
              && m.startStop.timestamp <= w.views[a].startStop.timestamp
    {
      var b :| b in w.views && Supersedes(w.views[b], m);
    }
    QuietStaysBelow(w, steps, w.views[o].timeline.beatOrigin, w.views[a].startStop.timestamp);
    forall p, b | p in w.views && b in w.views ensures AheadOf(end.views[p], w.views[b]) {
      if b != p {
        DeliveredStays(w, steps, p, w.views[b], t0, s0);
      }
    }
    forall p | p in w.views
      ensures p in end.views && end.views[p].timeline.beatOrigin == w.views[o].timeline.beatOrigin
      ensures end.views[p].startStop.timestamp == w.views[a].startStop.timestamp
    {
      assert AheadOf(end.views[p], w.views[o]) && AheadOf(end.views[p], w.views[a]);
    }
  }

  /** Whatever has the key carries the value. */
  predicate OnlyTimeline(v: View, t: Timeline) {
    v.timeline.beatOrigin < t.beatOrigin || v.timeline == t
  }

  predicate OnlyAction(v: View, a: StartStopState) {
    v.startStop.timestamp < a.timestamp || v.startStop == a
  }

  lemma {:induction false} QuietKeepsTimeline(w: World, steps: seq<Step>, t: Timeline)
    requires RunsFrom(w, steps) && Quiet(steps) && Clamped(t.tempo)
    requires forall p :: p in w.views ==> OnlyTimeline(w.views[p], t)
    requires forall m :: m in w.sent ==> OnlyTimeline(m, t)
    ensures forall p :: p in EndOf(w, steps).views ==> OnlyTimeline(EndOf(w, steps).views[p], t)
    decreases |steps|
  {
    if steps != [] {
      assert steps[0].Deliver? || steps[0].Send?;
      assert Reclamp(t) == t;
      QuietKeepsTimeline(Next(w, steps[0]), steps[1..], t);
    }
  }

  lemma {:induction false} QuietKeepsAction(w: World, steps: seq<Step>, a: StartStopState)
    requires RunsFrom(w, steps) && Quiet(steps)
    requires forall p :: p in w.views ==> OnlyAction(w.views[p], a)
    requires forall m :: m in w.sent ==> OnlyAction(m, a)
    ensures forall p :: p in EndOf(w, steps).views ==> OnlyAction(EndOf(w, steps).views[p], a)
    decreases |steps|
  {
    if steps != [] {
      assert steps[0].Deliver? || steps[0].Send?;
      QuietKeepsAction(Next(w, steps[0]), steps[1..], a);
    }
  }

  lemma TimelinesEndEqual(w: World, steps: seq<Step>, t0: Timeline, s0: StartStopState, o: Peer, a: Peer)
    requires Inv(w, t0, s0) && RunsFrom(w, steps) && Quiet(steps) && Exchanged(w, steps)
    requires TopOrigin(w, o) && TopStamp(w, a)
    ensures SameTimelines(EndOf(w, steps)) <==> TopTimelinesAgree(w)
  {
    var end, t := EndOf(w, steps), w.views[o].timeline;
    RunSafe(w, steps, t0, s0);
    ReachesTop(w, steps, t0, s0, o, a);
    if TopTimelinesAgree(w) {
      assert Genuine(w.views[o], w, t0, s0);
      forall p | p in w.views ensures OnlyTimeline(w.views[p], t) {
        assert w.views[p].timeline.beatOrigin == t.beatOrigin ==> TopOrigin(w, p);
      }
      forall m | m in w.sent ensures OnlyTimeline(m, t) {
        var b :| b in w.views && Supersedes(w.views[b], m);
        assert OnlyTimeline(w.views[b], t);
      }
      QuietKeepsTimeline(w, steps, t);
      forall p | p in end.views ensures end.views[p].timeline == t {
        assert OnlyTimeline(end.views[p], t);
      }
    } else {
      var b, c :| TopOrigin(w, b) && TopOrigin(w, c) && w.views[b].timeline != w.views[c].timeline;
      assert end.views[b].timeline == w.views[b].timeline && end.views[c].timeline == w.views[c].timeline;
    }
  }

  lemma ActionsEndEqual(w: World, steps: seq<Step>, t0: Timeline, s0: StartStopState, o: Peer, a: Peer)
    requires Inv(w, t0, s0) && RunsFrom(w, steps) && Quiet(steps) && Exchanged(w, steps)
    requires TopOrigin(w, o) && TopStamp(w, a)
    ensures SameActions(EndOf(w, steps)) <==> TopActionsAgree(w)
  {
    var end, s := EndOf(w, steps), w.views[a].startStop;
    RunSafe(w, steps, t0, s0);
    ReachesTop(w, steps, t0, s0, o, a);
    if TopActionsAgree(w) {
      forall p | p in w.views ensures OnlyAction(w.views[p], s) {
        assert w.views[p].startStop.timestamp == s.timestamp ==> TopStamp(w, p);
      }
      forall m | m in w.sent ensures OnlyAction(m, s) {
        var b :| b in w.views && Supersedes(w.views[b], m);
        assert OnlyAction(w.views[b], s);
      }
      QuietKeepsAction(w, steps, s);
      forall p | p in end.views ensures end.views[p].startStop == s {
        assert OnlyAction(end.views[p], s);
      }
    } else {
      var b, c :| TopStamp(w, b) && TopStamp(w, c) && w.views[b].startStop != w.views[c].startStop;
      assert end.views[b].startStop == w.views[b].startStop && end.views[c].startStop == w.views[c].startStop;
    }
  }
}
