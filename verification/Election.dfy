/**
 Session election: which of two sessions a peer prefers, and what runs of the rule
 do.
 */
module Election {
  import opened Types
  import opened BeatGrid

  /** Half-width of the band in which the session id decides. */
  const JOIN_EPSILON := 500_000

  /** A session as a peer sees it: its id and the offset of its ghost clock from
      the local one. */
  datatype Candidate = Candidate(id: Id, offset: int)

  /** The join rule: the session with the greater ghost time wins; within the band,
      the byte-wise lesser id. */
  predicate Beats(a: Candidate, b: Candidate) {
    a.id != b.id &&
    (a.offset - b.offset > JOIN_EPSILON
     || (Abs(a.offset - b.offset) < JOIN_EPSILON && LexLess(a.id, b.id)))
  }

  /** Opposite measurements of the same two sessions never make both peers switch,
      and an abandoned session re-evaluated with its retained offset is refused. */
  lemma JoinAntisymmetric(a: Candidate, b: Candidate)
    requires Beats(a, b)
    ensures !Beats(b, a)
  {
    if LexLess(a.id, b.id) && LexLess(b.id, a.id) {
      LexTransitive(a.id, b.id, a.id);
      LexIrreflexive(a.id);
    }
  }

  /** Two sessions are incomparable exactly when their clocks differ by exactly the
      threshold. */
  lemma JoinSilentIff(a: Candidate, b: Candidate)
    requires a.id != b.id
    ensures !Beats(a, b) && !Beats(b, a) <==> Abs(a.offset - b.offset) == JOIN_EPSILON
  {
    LexTotal(a.id, b.id);
    if LexLess(a.id, b.id) && LexLess(b.id, a.id) {
      LexTransitive(a.id, b.id, a.id);
      LexIrreflexive(a.id);
    }
  }

  /** Distinct sessions have distinct ids. */
  ghost predicate Sessions(s: set<Candidate>) {
    forall a, b :: a in s && b in s && a.id == b.id ==> a == b
  }

  /** No two sessions are exactly the threshold apart. */
  ghost predicate NoneOnEdge(s: set<Candidate>) {
    forall a, b :: a in s && b in s && a.id != b.id ==> Abs(a.offset - b.offset) != JOIN_EPSILON
  }

  /** Ids ascend from a to b to c, each step within the band, while c's clock is
      ahead of a's by more than the band. */
  predicate Drifts(a: Candidate, b: Candidate, c: Candidate) {
    LexLess(a.id, b.id) && LexLess(b.id, c.id)
    && Abs(a.offset - b.offset) < JOIN_EPSILON && Abs(b.offset - c.offset) < JOIN_EPSILON
    && c.offset - a.offset > JOIN_EPSILON
  }

  ghost predicate NoDrift(s: set<Candidate>) {
    forall a, b, c :: a in s && b in s && c in s ==> !Drifts(a, b, c)
  }

  ghost predicate StrictTotalOrder(s: set<Candidate>) {
    && (forall a :: a in s ==> !Beats(a, a))
    && (forall a, b :: a in s && b in s && a != b ==> Beats(a, b) || Beats(b, a))
    && (forall a, b, c :: a in s && b in s && c in s && Beats(a, b) && Beats(b, c) ==> Beats(a, c))
  }

  lemma DriftCycles(a: Candidate, b: Candidate, c: Candidate)
    requires Drifts(a, b, c)
    ensures Beats(a, b) && Beats(b, c) && Beats(c, a)
  {
    LexIrreflexive(a.id);
    LexIrreflexive(b.id);
    LexTransitive(a.id, b.id, c.id);
  }

  /** Only such a drift, from whichever of the three it starts, breaks
      transitivity. */
  lemma TransitiveUnlessDrift(a: Candidate, b: Candidate, c: Candidate)
    requires Beats(a, b) && Beats(b, c)
    requires !Drifts(a, b, c) && !Drifts(b, c, a) && !Drifts(c, a, b)
    requires a.id != c.id && Abs(a.offset - c.offset) != JOIN_EPSILON
    ensures Beats(a, c)
  {
    LexTotal(a.id, c.id);
    if LexLess(a.id, b.id) && LexLess(b.id, c.id) {
      LexTransitive(a.id, b.id, c.id);
    }
  }

  /** The join rule ranks a set of sessions consistently exactly when no two are
      the threshold apart and no ascending chain of ids drifts across the band. */
  lemma TotalOrderIff(s: set<Candidate>)
    requires Sessions(s)
    ensures StrictTotalOrder(s) <==> NoneOnEdge(s) && NoDrift(s)
  {
    if StrictTotalOrder(s) {
      forall a, b | a in s && b in s && a.id != b.id ensures Abs(a.offset - b.offset) != JOIN_EPSILON {
        JoinSilentIff(a, b);
      }
      forall a, b, c | a in s && b in s && c in s ensures !Drifts(a, b, c) {
        if Drifts(a, b, c) {
          DriftCycles(a, b, c);
          JoinAntisymmetric(c, a);
        }
      }
    }
    if NoneOnEdge(s) && NoDrift(s) {
      forall a, b | a in s && b in s && a != b ensures Beats(a, b) || Beats(b, a) {
        JoinSilentIff(a, b);
      }
      forall a, b, c | a in s && b in s && c in s && Beats(a, b) && Beats(b, c) ensures Beats(a, c) {
        if a.id == c.id {
          JoinAntisymmetric(a, b);
        } else {
          TransitiveUnlessDrift(a, b, c);
        }
      }
    }
  }

  /** Three sessions that chase each other. */
  lemma CycleExists()
    ensures exists a: Candidate, b: Candidate, c: Candidate :: Beats(a, b) && Beats(b, c) && Beats(c, a)
  {
    var a := Candidate([0, 0, 0, 0, 0, 0, 0, 1], 0);
    var b := Candidate([0, 0, 0, 0, 0, 0, 0, 2], 300_000);
    var c := Candidate([0, 0, 0, 0, 0, 0, 0, 3], 600_000);
    LastByteLess(1, 2);
    LastByteLess(2, 3);
    DriftCycles(a, b, c);
  }

  lemma LastByteLess(x: byte, y: byte)
    requires x < y
    ensures LexLess([0, 0, 0, 0, 0, 0, 0, x], [0, 0, 0, 0, 0, 0, 0, y])
  {
    assert LexLess([x], [y]);
    assert LexLess([0, x], [0, y]) by { assert [0, x][1..] == [x] && [0, y][1..] == [y]; }
    assert LexLess([0, 0, x], [0, 0, y]) by { assert [0, 0, x][1..] == [0, x] && [0, 0, y][1..] == [0, y]; }
    assert LexLess([0, 0, 0, x], [0, 0, 0, y]) by {
      assert [0, 0, 0, x][1..] == [0, 0, x] && [0, 0, 0, y][1..] == [0, 0, y];
    }
    assert LexLess([0, 0, 0, 0, x], [0, 0, 0, 0, y]) by {
      assert [0, 0, 0, 0, x][1..] == [0, 0, 0, x] && [0, 0, 0, 0, y][1..] == [0, 0, 0, y];
    }
    assert LexLess([0, 0, 0, 0, 0, x], [0, 0, 0, 0, 0, y]) by {
      assert [0, 0, 0, 0, 0, x][1..] == [0, 0, 0, 0, x] && [0, 0, 0, 0, 0, y][1..] == [0, 0, 0, 0, y];
    }
    assert LexLess([0, 0, 0, 0, 0, 0, x], [0, 0, 0, 0, 0, 0, y]) by {
      assert [0, 0, 0, 0, 0, 0, x][1..] == [0, 0, 0, 0, 0, x] && [0, 0, 0, 0, 0, 0, y][1..] == [0, 0, 0, 0, 0, y];
    }
    assert [0, 0, 0, 0, 0, 0, 0, x][1..] == [0, 0, 0, 0, 0, 0, x]
           && [0, 0, 0, 0, 0, 0, 0, y][1..] == [0, 0, 0, 0, 0, 0, y];
  }

  // ----------------------------------------------------------------- runs

  /** The session held after evaluating one candidate. */
  function Join(cur: Candidate, c: Candidate): Candidate {
    if Beats(c, cur) then c else cur
  }

  /** The session held after evaluating candidates one by one, and the joins made
      on the way. */
  function Elect(cur: Candidate, cs: seq<Candidate>): Candidate
    decreases |cs|
  {
    if cs == [] then cur else Elect(Join(cur, cs[0]), cs[1..])
  }

  function Joins(cur: Candidate, cs: seq<Candidate>): nat
    decreases |cs|
  {
    if cs == [] then 0
    else (if Beats(cs[0], cur) then 1 else 0) + Joins(Join(cur, cs[0]), cs[1..])
  }

  /** The sessions that a peer holding `cur` could still be drawn to. */
  ghost function Above(cur: Candidate, s: set<Candidate>): set<Candidate> {
    set c | c in s && Beats(c, cur)
  }

  lemma JoinClimbs(cur: Candidate, c: Candidate, s: set<Candidate>)
    requires StrictTotalOrder(s) && cur in s && c in s && Beats(c, cur)
    ensures Above(c, s) < Above(cur, s)
  {
    assert c in Above(cur, s) && c !in Above(c, s);
  }

  lemma ProperSubsetSmaller(a: set<Candidate>, b: set<Candidate>)
    requires a < b
    ensures |a| < |b|
  {
    var x :| x in b && x !in a;
    SubsetSize(a, b - {x});
  }

  lemma SubsetSize(a: set<Candidate>, b: set<Candidate>)
    requires a <= b
    ensures |a| <= |b|
  {
    assert b == a + (b - a);
  }

  /** Any run over a consistently ranked set of sessions makes at most as many joins
      as there are sessions above the first: at most n - 1 for n sessions. */
  lemma {:induction false} JoinsBounded(cur: Candidate, cs: seq<Candidate>, s: set<Candidate>)
    requires StrictTotalOrder(s) && cur in s && forall i :: 0 <= i < |cs| ==> cs[i] in s
    ensures Elect(cur, cs) in s
    ensures Joins(cur, cs) + |Above(Elect(cur, cs), s)| <= |Above(cur, s)| < |s|
    decreases |cs|
  {
    AboveSize(cur, s);
    if cs != [] {
      var next := Join(cur, cs[0]);
      JoinsBounded(next, cs[1..], s);
      if Beats(cs[0], cur) {
        JoinClimbs(cur, cs[0], s);
        ProperSubsetSmaller(Above(next, s), Above(cur, s));
      }
    }
  }

  lemma AboveSize(cur: Candidate, s: set<Candidate>)
    requires StrictTotalOrder(s) && cur in s
    ensures |Above(cur, s)| < |s|
  {
    assert Above(cur, s) < s;
    ProperSubsetSmaller(Above(cur, s), s);
  }

  /** The session that beats all others. */
  ghost predicate IsTop(t: Candidate, s: set<Candidate>) {
    t in s && forall c :: c in s && c != t ==> Beats(t, c)
  }

  /** A peer is at rest - no session of the set would draw it away - exactly at the
      top, which is unique. */
  lemma RestsOnlyAtTop(t: Candidate, s: set<Candidate>)
    requires StrictTotalOrder(s) && t in s
    ensures Above(t, s) == {} <==> IsTop(t, s)
    ensures forall u :: IsTop(t, s) && IsTop(u, s) ==> t == u
  {
    if Above(t, s) == {} {
      forall c | c in s && c != t ensures Beats(t, c) {
        assert c !in Above(t, s);
      }
    }
    if IsTop(t, s) {
      forall c | c in s ensures !Beats(c, t) {
        if c != t && Beats(c, t) {
          JoinAntisymmetric(c, t);
        }
      }
      forall u | IsTop(u, s) ensures t == u {
        if t != u {
          JoinAntisymmetric(t, u);
        }
      }
    }
  }

  /** The elected session is never beaten by the one it started from or by any it
      evaluated. */
  lemma {:induction false} ElectedUnbeaten(cur: Candidate, cs: seq<Candidate>, s: set<Candidate>)
    requires StrictTotalOrder(s) && cur in s && forall i :: 0 <= i < |cs| ==> cs[i] in s
    ensures var e := Elect(cur, cs);
            e in s && !Beats(cur, e) && forall i :: 0 <= i < |cs| ==> !Beats(cs[i], e)
    decreases |cs|
  {
    if cs != [] {
      var next := Join(cur, cs[0]);
      ElectedUnbeaten(next, cs[1..], s);
      var e := Elect(next, cs[1..]);
      Unbeaten(cur, cs[0], e, s);
    }
  }

  lemma Unbeaten(cur: Candidate, c: Candidate, e: Candidate, s: set<Candidate>)
    requires StrictTotalOrder(s) && cur in s && c in s && e in s && !Beats(Join(cur, c), e)
    ensures !Beats(cur, e) && !Beats(c, e)
  {
    if Beats(c, cur) {
      assert Beats(cur, e) ==> Beats(c, e);
    } else if c != cur {
      assert Beats(cur, c);
      assert Beats(c, e) ==> Beats(cur, e);
    }
  }

  /** Agreement: every peer that has evaluated every session, in whatever order and
      from whichever it started, holds the same one - the top. */
  lemma ElectionAgrees(cur: Candidate, cs: seq<Candidate>, s: set<Candidate>)
    requires StrictTotalOrder(s) && cur in s
    requires forall i :: 0 <= i < |cs| ==> cs[i] in s
    requires forall c :: c in s ==> c == cur || c in cs
    ensures IsTop(Elect(cur, cs), s)
  {
    ElectedUnbeaten(cur, cs, s);
    var e := Elect(cur, cs);
    forall c | c in s && c != e ensures Beats(e, c) {
      if c != cur {
        var i :| 0 <= i < |cs| && cs[i] == c;
      }
      assert !Beats(c, e);
    }
  }

  // ------------------------------------------------- peers with clocks apart

  /** The same session as a peer sees it whose clock is `k` behind. */
  function Shift(c: Candidate, k: int): Candidate {
    c.(offset := c.offset + k)
  }

  function ShiftAll(cs: seq<Candidate>, k: int): (r: seq<Candidate>)
    ensures |r| == |cs| && forall i :: 0 <= i < |cs| ==> r[i] == Shift(cs[i], k)
  {
    if cs == [] then [] else [Shift(cs[0], k)] + ShiftAll(cs[1..], k)
  }

  /** The election does not depend on the clock offsets are measured against. */
  lemma {:induction false} ElectShift(cur: Candidate, cs: seq<Candidate>, k: int)
    ensures Elect(Shift(cur, k), ShiftAll(cs, k)) == Shift(Elect(cur, cs), k)
    decreases |cs|
  {
    if cs != [] {
      assert ShiftAll(cs, k)[1..] == ShiftAll(cs[1..], k);
      ElectShift(Join(cur, cs[0]), cs[1..], k);
    }
  }

  /** Agreement across peers: two that have evaluated every session, in whatever order
      and from whichever they started, each against its own clock, hold the same one. */
  lemma PeersAgree(cur1: Candidate, cs1: seq<Candidate>, cur2: Candidate, cs2: seq<Candidate>, s: set<Candidate>,
                   k: int)
    requires StrictTotalOrder(s) && cur1 in s && cur2 in s
    requires forall i :: 0 <= i < |cs1| ==> cs1[i] in s
    requires forall i :: 0 <= i < |cs2| ==> cs2[i] in s
    requires forall c :: c in s ==> (c == cur1 || c in cs1) && (c == cur2 || c in cs2)
    ensures Elect(cur1, cs1).id == Elect(Shift(cur2, k), ShiftAll(cs2, k)).id
  {
    ElectionAgrees(cur1, cs1, s);
    ElectionAgrees(cur2, cs2, s);
    RestsOnlyAtTop(Elect(cur1, cs1), s);
    ElectShift(cur2, cs2, k);
  }
}
