/** The earliest of a set of instants. */
module Instants {
  import opened Wrappers

  function Soonest(d: int, e: Option<int>): int {
    if e.Some? && e.value < d then e.value else d
  }

  predicate EarliestOf(e: Option<int>, ds: set<int>) {
    if ds == {} then e == None else e.Some? && e.value in ds && forall d :: d in ds ==> e.value <= d
  }

  method Earliest<K>(ds: map<K, int>) returns (e: Option<int>)
    ensures EarliestOf(e, ds.Values)
  {
    e := None;
    var rest := ds.Keys;
    ghost var seen: set<K> := {};
    while rest != {}
      invariant rest + seen == ds.Keys
      invariant if seen == {} then e == None else e.Some? && e.value in ds.Values
      invariant forall k :: k in seen ==> e.Some? && e.value <= ds[k]
    {
      var k :| k in rest;
      rest, seen := rest - {k}, seen + {k};
      e := Some(Soonest(ds[k], e));
    }
    assert seen == ds.Keys;
    assert ds.Values != {} ==> ds.Keys != {};
  }
}

/**
 Deadlines of housekeeping: the instants there is something to do at, and the next one
 to wake for.
 */
module Wakeups {
  import opened Wrappers
  import opened EngineState
  import opened Instants

  /** The deadlines an engine holds. */
  datatype Timers = Timers(lastAliveAt: int, broadcastDue: Option<int>, peers: set<int>, retry: Option<int>,
                           remeasureAt: Option<int>, channels: set<int>)

  predicate Later(e: Option<int>, now: int) {
    e.Some? ==> now < e.value
  }

  ghost predicate AllLater(ds: set<int>, now: int) {
    forall d :: d in ds ==> now < d
  }

  /** When the next periodic round falls. */
  function NextAlive(lastAliveAt: int, now: int): int {
    (if now >= lastAliveAt + ALIVE_PERIOD then now else lastAliveAt) + ALIVE_PERIOD
  }

  function Alone(e: Option<int>): set<int> {
    if e.Some? then {e.value} else {}
  }

  /** Every instant there is something to do at. */
  function Deadlines(t: Timers, others: int): set<int> {
    {t.lastAliveAt + ALIVE_PERIOD, others} + Alone(t.broadcastDue) + t.peers + Alone(t.retry) + Alone(t.remeasureAt)
    + t.channels
  }

  /** The deadlines a pass may leave uncovered: a broadcast deferred by a session founded
      in it, and the retry of a measurement started in it. */
  function Unseen(t: Timers, founded: bool, anew: bool): set<int> {
    (if founded then Alone(t.broadcastDue) else {}) + (if anew then Alone(t.retry) else {})
  }

  /** All the others. */
  function Seen(t: Timers, others: int, founded: bool, anew: bool): set<int> {
    {t.lastAliveAt + ALIVE_PERIOD, others} + (if founded then {} else Alone(t.broadcastDue)) + t.peers
    + (if anew then {} else Alone(t.retry)) + Alone(t.remeasureAt) + t.channels
  }

  /** The next wake-up covers every deadline but those two, is one of the deadlines there
      are or were, and lies ahead. */
  ghost predicate Scheduled(next: int, now: int, others: int, before: Timers, after: Timers, founded: bool,
                            anew: bool) {
    && (forall d :: d in Seen(after, others, founded, anew) ==> next <= d)
    && (next in Deadlines(after, others) || next == NextAlive(before.lastAliveAt, now)
        || before.broadcastDue == Some(next))
    && (now < next || next == others)
  }

  /** So it covers them all if and only if it covers those. */
  lemma CoversAllIff(next: int, now: int, others: int, before: Timers, after: Timers, founded: bool, anew: bool)
    requires Scheduled(next, now, others, before, after, founded, anew)
    ensures (forall d :: d in Deadlines(after, others) ==> next <= d)
       <==> (forall d :: d in Unseen(after, founded, anew) ==> next <= d)
  {
    assert Deadlines(after, others) == Seen(after, others, founded, anew) + Unseen(after, founded, anew);
  }

  /** The first deadlines of a pass: the next round or broadcast, `due` being pending then,
      and the earliest of the peers that stay. */
  ghost predicate EarlyWakes(first: int, due: Option<int>, peerNext: Option<int>, now: int, alive: int,
                             dueBefore: Option<int>, alive': int, due': Option<int>, peers: set<int>, founded: bool) {
    && first == Soonest(NextAlive(alive, now), due) && now < first <= alive' + ALIVE_PERIOD
    && (due == None || due == dueBefore) && (!founded ==> due' == due)
    && EarliestOf(peerNext, peers) && AllLater(peers, now)
  }

  /** The others. */
  ghost predicate LateWakes(retry: Option<int>, channelNext: Option<int>, now: int, retry': Option<int>,
                            remeasureAt: Option<int>, channels: set<int>, anew: bool) {
    && retry == (if anew then None else retry') && Later(retry, now) && Later(remeasureAt, now)
    && EarliestOf(channelNext, channels) && AllLater(channels, now)
  }

  lemma PassScheduled(next: int, now: int, others: int, before: Timers, after: Timers, founded: bool, anew: bool,
                      first: int, due: Option<int>, peerNext: Option<int>, retry: Option<int>,
                      channelNext: Option<int>)
    requires EarlyWakes(first, due, peerNext, now, before.lastAliveAt, before.broadcastDue,
                        after.lastAliveAt, after.broadcastDue, after.peers, founded)
    requires LateWakes(retry, channelNext, now, after.retry, after.remeasureAt, after.channels, anew)
    requires next == Soonest(Soonest(Soonest(Soonest(Soonest(first, peerNext), retry), after.remeasureAt), channelNext),
                             Some(others))
    ensures Scheduled(next, now, others, before, after, founded, anew)
  {
    hide NextAlive;
  }
}
