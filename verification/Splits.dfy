/**
 When the pieces a stream is written in decide how it is packed: draining between two
 writes against draining after both.
 */
module Splits {
  import opened Types
  import opened Wrappers
  import opened BeatGrid
  import opened AudioWire
  import opened AudioSink
  import opened EmittedStamps
  import opened FrameCounts

  // -------------------------------------------------------------- the planner

  /** No chunk more fits. */
  predicate Spent(p: Plan, fb: nat, z: Sizing) {
    p.exhausted || p.left < z.record + fb
  }

  /** Nor does a frame more of the run the plan ends in: another frame waits already,
      or no frame fits, or the last chunk is at the cap. */
  predicate Closed(p: Plan, fb: nat, z: Sizing) {
    p.exhausted || p.left < fb || (p.takes != [] && z.cap == Some(p.takes[|p.takes| - 1]))
  }

  lemma SumFront(a: nat, s: seq<nat>)
    ensures Sum([a] + s) == a + Sum(s)
  {
    assert ([a] + s)[1..] == s;
  }

  /** One run, the budget running out at its end. */
  lemma {:induction false} GrownRun(n: nat, m: nat, left: nat, fb: nat, z: Sizing)
    requires fb > 0 && ValidSizing(z) && n > 0 && m > 0 && Spent(PlanFrom([n], left, fb, z), fb, z)
    ensures GrowthShows(PlanFrom([n], left, fb, z), PlanFrom([n + m], left, fb, z), fb, z)
    decreases n
  {
    hide PlanFrom, TakeSize;
    if left < z.record + fb {
      RunOver(n, left, fb, z);
      RunOver(n + m, left, fb, z);
    } else {
      var take, left' := TakeSize(n, left, fb, z), left - z.record - TakeSize(n, left, fb, z) * fb;
      RunStep(n, left, fb, z);
      if take < n {
        SameTake(n, m, left, fb, z);
        RunStep(n + m, left, fb, z);
        GrownRun(n - take, m, left', fb, z);
        NothingTaken(n - take, left', fb, z);
        AfterTake(take, PlanFrom([n - take], left', fb, z), PlanFrom([n + m - take], left', fb, z), fb, z);
      } else {
        NothingLeft(left', fb, z);
        assert [n] + [] == [n];
        RunTaken(n, m, left, fb, z);
      }
    }
  }

  lemma RunOver(n: nat, left: nat, fb: nat, z: Sizing)
    requires fb > 0 && ValidSizing(z) && n > 0 && left < z.record + fb
    ensures PlanFrom([n], left, fb, z) == Plan([], left, true)
  {
  }

  lemma SameTake(n: nat, m: nat, left: nat, fb: nat, z: Sizing)
    requires fb > 0 && left >= z.record + fb && TakeSize(n, left, fb, z) < n
    ensures TakeSize(n + m, left, fb, z) == TakeSize(n, left, fb, z)
  {
  }

  lemma NothingTaken(n: nat, left: nat, fb: nat, z: Sizing)
    requires fb > 0 && ValidSizing(z) && n > 0
    ensures PlanFrom([n], left, fb, z).takes == [] ==> PlanFrom([n], left, fb, z).exhausted
  {
  }

  /** The last chunk took the whole run: of a longer one it takes more unless no frame
      fits or it is at the cap. */
  lemma TakeOfLonger(n: nat, m: nat, left: nat, fb: nat, z: Sizing)
    requires fb > 0 && n > 0 && m > 0 && left >= z.record + fb && TakeSize(n, left, fb, z) == n
    requires n * fb + z.record <= left
    ensures if left - z.record - n * fb < fb || z.cap == Some(n) then TakeSize(n + m, left, fb, z) == n
            else TakeSize(n + m, left, fb, z) > n
  {
    var fit := (left - z.record) / fb;
    if left - z.record - n * fb < fb {
      ModUnique(left - z.record, fb, n, left - z.record - n * fb);
    } else {
      Distribute(n, 1, fb);
      Fits(n + 1, left - z.record, fb);
    }
  }

  lemma RunTaken(n: nat, m: nat, left: nat, fb: nat, z: Sizing)
    requires fb > 0 && ValidSizing(z) && n > 0 && m > 0 && left >= z.record + fb && TakeSize(n, left, fb, z) == n
    requires n * fb + z.record <= left && left - z.record - n * fb < z.record + fb
    ensures GrowthShows(Plan([n], left - z.record - n * fb, false), PlanFrom([n + m], left, fb, z), fb, z)
  {
    hide PlanFrom, TakeSize;
    var more := TakeSize(n + m, left, fb, z);
    TakeOfLonger(n, m, left, fb, z);
    RunStep(n + m, left, fb, z);
    var rest := PlanFrom([n + m - more], left - z.record - more * fb, fb, z);
    assert [n] + [] == [n];
    SumFront(n, []);
    SumFront(more, rest.takes);
    MulMono(n, more, fb);
    NoRoom([n + m - more], left - z.record - more * fb, fb, z);
  }

  /** The plan of a run grown further leaves no room either, and takes as many frames
      exactly if the plan was closed. */
  predicate GrowthShows(p: Plan, g: Plan, fb: nat, z: Sizing) {
    Spent(g, fb, z) && if Closed(p, fb, z) then g.takes == p.takes else Sum(g.takes) > Sum(p.takes)
  }

  lemma RunStep(n: nat, left: nat, fb: nat, z: Sizing)
    requires fb > 0 && ValidSizing(z) && n > 0 && left >= z.record + fb
    ensures 0 < TakeSize(n, left, fb, z) <= n && z.record + TakeSize(n, left, fb, z) * fb <= left
    ensures var take := TakeSize(n, left, fb, z);
            var rest := PlanFrom([n - take], left - z.record - take * fb, fb, z);
            PlanFrom([n], left, fb, z) == Plan([take] + rest.takes, rest.left, rest.exhausted)
  {
    TakeSizeFits(n, left, fb, z);
    var one: seq<nat> := [n];
    assert one[1..] == [];
    var take := TakeSize(n, left, fb, z);
    assert [n - take] + one[1..] == [n - take];
  }

  lemma NothingLeft(left: nat, fb: nat, z: Sizing)
    requires fb > 0 && ValidSizing(z)
    ensures PlanFrom([0], left, fb, z) == Plan([], left, false)
  {
    var zero: seq<nat> := [0];
    assert zero[1..] == [];
  }

  lemma AfterTake(take: nat, p: Plan, g: Plan, fb: nat, z: Sizing)
    requires GrowthShows(p, g, fb, z) && Spent(p, fb, z) && (p.takes == [] ==> p.exhausted)
    ensures GrowthShows(Plan([take] + p.takes, p.left, p.exhausted), Plan([take] + g.takes, g.left, g.exhausted), fb, z)
  {
    SumFront(take, p.takes);
    SumFront(take, g.takes);
  }

  lemma PlanStep(c: seq<nat>, left: nat, fb: nat, z: Sizing)
    requires fb > 0 && ValidSizing(z) && c != [] && c[0] > 0 && left >= z.record + fb
    ensures 0 < TakeSize(c[0], left, fb, z) <= c[0] && z.record + TakeSize(c[0], left, fb, z) * fb <= left
    ensures var take := TakeSize(c[0], left, fb, z);
            var rest := PlanFrom([c[0] - take] + c[1..], left - z.record - take * fb, fb, z);
            PlanFrom(c, left, fb, z) == Plan([take] + rest.takes, rest.left, rest.exhausted)
  {
    TakeSizeFits(c[0], left, fb, z);
  }

  lemma PlanOver(c: seq<nat>, left: nat, fb: nat, z: Sizing)
    requires fb > 0 && ValidSizing(z) && c != [] && c[0] > 0 && left < z.record + fb
    ensures PlanFrom(c, left, fb, z) == Plan([], left, true)
  {
  }

  /** The planner law. A plan that leaves no room for a chunk stays as it is when the last
      run grows exactly if it is closed; if not, it takes more. */
  lemma {:induction false} GrownPlan(c: seq<nat>, m: nat, left: nat, fb: nat, z: Sizing)
    requires fb > 0 && ValidSizing(z) && c != [] && c[|c| - 1] > 0 && m > 0
    requires Spent(PlanFrom(c, left, fb, z), fb, z)
    ensures GrowthShows(PlanFrom(c, left, fb, z), PlanFrom(Grow(c, m), left, fb, z), fb, z)
    ensures PlanFrom(c, left, fb, z).takes == [] ==> PlanFrom(c, left, fb, z).exhausted
    decreases |c|, c[0]
  {
    hide PlanFrom, TakeSize, GrowthShows, Grow, Closed;
    if |c| == 1 {
      assert c == [c[0]];
      GrowOne(c[0], m);
      GrownRun(c[0], m, left, fb, z);
      NothingTaken(c[0], left, fb, z);
    } else {
      var tail := c[1..];
      assert c == [c[0]] + tail && tail[|tail| - 1] == c[|c| - 1];
      GrowFront(c[0], tail, m);
      var g := Grow(c, m);
      assert g[0] == c[0] && g[1..] == Grow(tail, m);
      if c[0] == 0 {
        PlanSkipsZero(c, left, fb, z);
        PlanSkipsZero(g, left, fb, z);
        GrownPlan(tail, m, left, fb, z);
      } else if left < z.record + fb {
        PlanOver(c, left, fb, z);
        PlanOver(g, left, fb, z);
        SpentPlan(Plan([], left, true), fb, z);
      } else {
        PlanStep(c, left, fb, z);
        PlanStep(g, left, fb, z);
        var take := TakeSize(c[0], left, fb, z);
        var left', cut := left - z.record - take * fb, [c[0] - take] + tail;
        GrowFront(c[0] - take, tail, m);
        assert cut[|cut| - 1] == tail[|tail| - 1];
        GrownPlan(cut, m, left', fb, z);
        AfterTake(take, PlanFrom(cut, left', fb, z), PlanFrom(Grow(cut, m), left', fb, z), fb, z);
      }
    }
  }

  lemma SpentPlan(p: Plan, fb: nat, z: Sizing)
    requires p.exhausted
    ensures GrowthShows(p, p, fb, z)
  {
  }

  /** Runs queued behind do not change a plan that leaves no room. */
  lemma {:induction false} PlanIgnoresBehind(c: seq<nat>, d: seq<nat>, left: nat, fb: nat, z: Sizing)
    requires fb > 0 && ValidSizing(z) && Spent(PlanFrom(c, left, fb, z), fb, z)
    ensures PlanFrom(c + d, left, fb, z).takes == PlanFrom(c, left, fb, z).takes
    ensures Spent(PlanFrom(c + d, left, fb, z), fb, z)
    decreases |c|, if c == [] then 0 else c[0]
  {
    hide PlanFrom, TakeSize;
    if c == [] {
      assert c + d == d;
      NoCounts(left, fb, z);
      NoRoom(d, left, fb, z);
    } else {
      var tail := c[1..];
      assert (c + d)[1..] == tail + d && (c + d)[0] == c[0];
      if c[0] == 0 {
        PlanSkipsZero(c, left, fb, z);
        PlanSkipsZero(c + d, left, fb, z);
        PlanIgnoresBehind(tail, d, left, fb, z);
      } else if left < z.record + fb {
        PlanOver(c, left, fb, z);
        PlanOver(c + d, left, fb, z);
      } else {
        PlanStep(c, left, fb, z);
        PlanStep(c + d, left, fb, z);
        var take := TakeSize(c[0], left, fb, z);
        var left', cut := left - z.record - take * fb, [c[0] - take] + tail;
        assert cut + d == [c[0] - take] + (tail + d);
        PlanIgnoresBehind(cut, d, left', fb, z);
      }
    }
  }

  lemma NoCounts(left: nat, fb: nat, z: Sizing)
    requires fb > 0 && ValidSizing(z)
    ensures PlanFrom([], left, fb, z) == Plan([], left, false)
  {
  }

  // ------------------------------------------------- draining a list of runs

  /** What draining makes of a list of runs: the frames of each datagram, the runs left,
      and whether the last datagram was not closed. */
  datatype Emission = Emission(sizes: seq<nat>, rest: seq<nat>, open: bool)

  lemma PlanTakesFrames(c: seq<nat>, left: nat, fb: nat, z: Sizing)
    requires fb > 0 && ValidSizing(z)
    ensures var p := PlanFrom(c, left, fb, z);
            && AllPositive(p.takes) && Sum(p.takes) <= Sum(c)
            && (p.takes != [] ==> Sum(p.takes) > 0)
            && (!p.exhausted ==> Sum(p.takes) == Sum(c))
  {
    PlanProperties(c, left, fb, z);
  }

  function Emit(c: seq<nat>, fb: nat, z: Sizing): (e: Emission)
    requires fb > 0 && ValidSizing(z)
    ensures AllPositive(c) ==> AllPositive(e.rest)
    ensures Sum(e.sizes) + Sum(e.rest) == Sum(c)
    decreases Sum(c)
  {
    var p := PlanFrom(c, z.budget, fb, z);
    if !Full(p, fb, z) then Emission([], c, false)
    else
      PlanTakesFrames(c, z.budget, fb, z);
      var later := Emit(Drop(c, Sum(p.takes)), fb, z);
      SumFront(Sum(p.takes), later.sizes);
      Emission([Sum(p.takes)] + later.sizes, later.rest, later.open || !Closed(p, fb, z))
  }

  lemma EmitNothing(fb: nat, z: Sizing)
    requires fb > 0 && ValidSizing(z)
    ensures Emit([], fb, z) == Emission([], [], false)
  {
  }

  lemma EmitFull(c: seq<nat>, fb: nat, z: Sizing)
    requires fb > 0 && ValidSizing(z) && Full(PlanFrom(c, z.budget, fb, z), fb, z)
    ensures var p := PlanFrom(c, z.budget, fb, z);
            var k := Sum(p.takes);
            var later := Emit(Drop(c, k), fb, z);
            && 0 < k <= Sum(c) && (!p.exhausted ==> k == Sum(c))
            && Emit(c, fb, z) == Emission([k] + later.sizes, later.rest, later.open || !Closed(p, fb, z))
  {
    PlanTakesFrames(c, z.budget, fb, z);
  }

  lemma EmitPartial(c: seq<nat>, fb: nat, z: Sizing)
    requires fb > 0 && ValidSizing(z) && !Full(PlanFrom(c, z.budget, fb, z), fb, z)
    ensures Emit(c, fb, z) == Emission([], c, false)
  {
  }

  /** The same datagrams first, then these. */
  function After(first: seq<nat>, e: Emission): Emission {
    Emission(first + e.sizes, e.rest, e.open)
  }

  lemma AfterFront(k: nat, first: seq<nat>, e: Emission)
    ensures var a := After(first, e);
            After([k] + first, e) == Emission([k] + a.sizes, a.rest, a.open)
  {
    assert [k] + first + e.sizes == [k] + (first + e.sizes);
  }

  lemma AfterNothing(e: Emission)
    ensures After([], e) == e
  {
    assert [] + e.sizes == e.sizes;
  }

  /** The runs left, once `m` frames joined the last of them, if there is one. */
  function Continued(rest: seq<nat>, m: nat): seq<nat> {
    if rest == [] then [m] else Grow(rest, m)
  }

  /** Only a datagram that took everything can be open. */
  lemma {:induction false} OpenLeavesNothing(c: seq<nat>, fb: nat, z: Sizing)
    requires fb > 0 && ValidSizing(z) && Emit(c, fb, z).open
    ensures Emit(c, fb, z).rest == []
    decreases Sum(c)
  {
    hide PlanFrom, Emit;
    var p := PlanFrom(c, z.budget, fb, z);
    if Full(p, fb, z) {
      EmitFull(c, fb, z);
      if p.exhausted {
        OpenLeavesNothing(Drop(c, Sum(p.takes)), fb, z);
      } else {
        DropAll(c, Sum(p.takes));
        EmitNothing(fb, z);
      }
    } else {
      EmitPartial(c, fb, z);
    }
  }

  /** Draining before the last run grows emits the same datagrams as draining after it
      did, exactly if the last one emitted was closed. */
  lemma {:induction false} GrowthAfterEmit(c: seq<nat>, m: nat, fb: nat, z: Sizing)
    requires fb > 0 && ValidSizing(z) && c != [] && AllPositive(c) && m > 0
    ensures var e, once := Emit(c, fb, z), Emit(Grow(c, m), fb, z);
            var twice := After(e.sizes, Emit(Continued(e.rest, m), fb, z));
            if e.open then once.sizes != twice.sizes else once == twice
    decreases Sum(c)
  {
    hide PlanFrom, Emit, Grow, Drop;
    var p, g := PlanFrom(c, z.budget, fb, z), PlanFrom(Grow(c, m), z.budget, fb, z);
    if Full(p, fb, z) {
      EmitFull(c, fb, z);
      GrownPlan(c, m, z.budget, fb, z);
      EmitFull(Grow(c, m), fb, z);
      var k := Sum(p.takes);
      if p.exhausted && k < Sum(c) {
        DropGrow(c, m, k);
        GrowthAfterEmit(Drop(c, k), m, fb, z);
      } else {
        DropAll(c, k);
        EmitNothing(fb, z);
        DropGrowAll(c, m);
      }
    } else {
      EmitPartial(c, fb, z);
    }
  }

  /** A run queued behind changes nothing that was emitted before it. */
  lemma {:induction false} RunAfterEmit(c: seq<nat>, m: nat, fb: nat, z: Sizing)
    requires fb > 0 && ValidSizing(z) && AllPositive(c) && m > 0
    ensures var e := Emit(c, fb, z);
            Emit(c + [m], fb, z) == After(e.sizes, Emit(e.rest + [m], fb, z))
    decreases Sum(c)
  {
    hide PlanFrom, Emit, Drop, After;
    var p, more := PlanFrom(c, z.budget, fb, z), c + [m];
    if Full(p, fb, z) {
      var k := Sum(p.takes);
      EmitFull(c, fb, z);
      PlanIgnoresBehind(c, [m], z.budget, fb, z);
      EmitFull(more, fb, z);
      SumAppend(c, [m]);
      SumOne(m);
      DropAppend(c, [m], k);
      var later := Emit(Drop(c, k), fb, z);
      RunAfterEmit(Drop(c, k), m, fb, z);
      AfterFront(k, later.sizes, Emit(later.rest + [m], fb, z));
    } else {
      EmitPartial(c, fb, z);
      AfterNothing(Emit(more, fb, z));
    }
  }

  // ------------------------------------------------------ draining the queue

  /** These many frames in each datagram. */
  ghost predicate Sized(out: seq<Material>, sizes: seq<nat>, ch: nat) {
    |out| == |sizes| && forall i :: 0 <= i < |out| ==> |out[i].data| == sizes[i] * ch
  }

  /** The two emit the same samples datagram by datagram. */
  ghost predicate SameSamples(a: seq<Material>, b: seq<Material>) {
    |a| == |b| && forall i :: 0 <= i < |a| ==> a[i].data == b[i].data
  }

  /** What a sink would make of its queue. */
  function EmissionOf(segs: seq<Segment>, ch: nat, z: Sizing): Emission
    requires ch > 0 && ValidSizing(z)
  {
    Emit(Runs(segs, ch), 2 * ch, z)
  }

  lemma SizedFront(m: Material, out: seq<Material>, k: nat, sizes: seq<nat>, ch: nat)
    requires |m.data| == k * ch && Sized(out, sizes, ch)
    ensures Sized([m] + out, [k] + sizes, ch)
  {
  }

  lemma SizedAppend(a: seq<Material>, b: seq<Material>, s: seq<nat>, t: seq<nat>, ch: nat)
    requires Sized(a, s, ch) && Sized(b, t, ch)
    ensures Sized(a + b, s + t, ch)
  {
  }

  /** Draining segments is draining their runs. */
  lemma {:induction false} DrainEmits(segs: seq<Segment>, nextSeq: nat, ch: nat, rate: int, z: Sizing)
    requires ch > 0 && ValidSizing(z) && rate > 0 && Timed(segs)
    ensures var d, e := Drain(segs, nextSeq, ch, rate, z), EmissionOf(segs, ch, z);
            Sized(d.out, e.sizes, ch) && Runs(d.segs, ch) == e.rest
    decreases |Whole(segs, ch)|
  {
    hide PlanFrom, Emit, Counts, Consume, Runs, Sized, Drop;
    var p := NextPlan(segs, ch, z);
    PlanOfSegments(segs, ch, z);
    if Full(p, 2 * ch, z) {
      FullPlanShrinks(segs, nextSeq, ch, rate, z);
      var c := Consume(segs, p.takes, nextSeq, ch, rate);
      PlanTakesFrames(Counts(segs, ch), z.budget, 2 * ch, z);
      ConsumeCovers(segs, p.takes, nextSeq, ch, rate);
      RunsAfterConsume(segs, p.takes, nextSeq, ch, rate);
      EmitFull(Runs(segs, ch), 2 * ch, z);
      DrainEmits(c.segs, nextSeq + |p.takes|, ch, rate, z);
      SizedFront(c.material, Drain(c.segs, nextSeq + |p.takes|, ch, rate, z).out, Sum(p.takes),
                 EmissionOf(c.segs, ch, z).sizes, ch);
    } else {
      EmitPartial(Runs(segs, ch), 2 * ch, z);
      NothingSized(ch);
    }
  }

  lemma NothingSized(ch: nat)
    ensures Sized([], [], ch)
  {
  }

  lemma PlanOfSegments(segs: seq<Segment>, ch: nat, z: Sizing)
    requires ch > 0 && ValidSizing(z)
    ensures PlanFrom(Runs(segs, ch), z.budget, 2 * ch, z) == NextPlan(segs, ch, z)
  {
    PlanOfRuns(Counts(segs, ch), z.budget, 2 * ch, z);
  }

  // ------------------------------------------- equal samples mean equal sizes

  lemma SizeDetermined(a: nat, b: nat, ch: nat)
    requires ch > 0 && a * ch == b * ch
    ensures a == b
  {
    MultipleOrder(a, b, ch);
    MultipleOrder(b, a, ch);
  }

  /** Of one stream, datagrams of the same sizes are the same datagrams. */
  lemma {:induction false} SameSizesSameSamples(a: seq<Material>, b: seq<Material>, s: seq<nat>, x: seq<i16>,
                                                y: seq<i16>, ch: nat)
    requires Sized(a, s, ch) && Sized(b, s, ch) && DataOf(a) + x == DataOf(b) + y
    ensures SameSamples(a, b)
    decreases |a|
  {
    if a != [] {
      var n := |a[0].data|;
      SampleAssoc(a[0].data, DataOf(a[1..]), x);
      SampleAssoc(b[0].data, DataOf(b[1..]), y);
      assert a[0].data == (DataOf(a) + x)[..n] && b[0].data == (DataOf(b) + y)[..n];
      assert DataOf(a[1..]) + x == (DataOf(a) + x)[n..] && DataOf(b[1..]) + y == (DataOf(b) + y)[n..];
      assert Sized(a[1..], s[1..], ch) && Sized(b[1..], s[1..], ch);
      SameSizesSameSamples(a[1..], b[1..], s[1..], x, y, ch);
      forall i | 0 <= i < |a| ensures a[i].data == b[i].data {
        if i > 0 {
          assert a[i] == a[1..][i - 1] && b[i] == b[1..][i - 1];
        }
      }
    }
  }

  lemma SameSamplesIff(a: seq<Material>, b: seq<Material>, s: seq<nat>, t: seq<nat>, x: seq<i16>, y: seq<i16>, ch: nat)
    requires ch > 0 && Sized(a, s, ch) && Sized(b, t, ch) && DataOf(a) + x == DataOf(b) + y
    ensures SameSamples(a, b) <==> s == t
  {
    if SameSamples(a, b) {
      forall i | 0 <= i < |s| ensures s[i] == t[i] {
        assert |a[i].data| == |b[i].data|;
        SizeDetermined(s[i], t[i], ch);
      }
    }
    if s == t {
      SameSizesSameSamples(a, b, s, x, y, ch);
    }
  }

  // ------------------------------------------------------ between two writes

  lemma {:induction false} NothingMore(c: seq<nat>, fb: nat, z: Sizing)
    requires fb > 0 && ValidSizing(z)
    ensures Emit(Emit(c, fb, z).rest, fb, z).sizes == []
    decreases Sum(c)
  {
    hide PlanFrom, Emit, Drop;
    var p := PlanFrom(c, z.budget, fb, z);
    if Full(p, fb, z) {
      EmitFull(c, fb, z);
      NothingMore(Drop(c, Sum(p.takes)), fb, z);
    } else {
      EmitPartial(c, fb, z);
    }
  }

  lemma SamePrefix(a: seq<nat>, x: seq<nat>, y: seq<nat>)
    ensures a + x == a + y <==> x == y
  {
    assert (a + x)[|a|..] == x && (a + y)[|a|..] == y;
  }

  /** Whether draining first makes no difference to a write of `m` frames. If everything
      pending was emitted, it makes one exactly if the write joins the run the last,
      open datagram ended with. If some is pending, exactly if the write joins it in one
      case and not in the other, and that packs differently. */
  predicate SplitFree(c: seq<nat>, m: nat, joins: bool, joinsKept: bool, fb: nat, z: Sizing)
    requires fb > 0 && ValidSizing(z) && AllPositive(c)
  {
    var e := Emit(c, fb, z);
    m == 0
    || if e.rest == [] then !(joins && e.open)
       else joins == joinsKept || Emit(e.rest + [m], fb, z).sizes == Emit(Grow(e.rest, m), fb, z).sizes
  }

  lemma SplitFreeIff(c: seq<nat>, m: nat, joins: bool, joinsKept: bool, fb: nat, z: Sizing)
    requires fb > 0 && ValidSizing(z) && AllPositive(c)
    requires (joins ==> c != []) && (joinsKept ==> Emit(c, fb, z).rest != [])
    ensures var e := Emit(c, fb, z);
            Emit(Extended(c, m, joins), fb, z).sizes == e.sizes + Emit(Extended(e.rest, m, joinsKept), fb, z).sizes
            <==> SplitFree(c, m, joins, joinsKept, fb, z)
  {
    hide Emit, Grow;
    var e := Emit(c, fb, z);
    if m == 0 {
      NothingMore(c, fb, z);
      assert e.sizes + [] == e.sizes;
    } else {
      if joins {
        GrowthAfterEmit(c, m, fb, z);
      } else {
        RunAfterEmit(c, m, fb, z);
      }
      if e.rest == [] {
        assert [] + [m] == [m];
      } else {
        if e.open {
          OpenLeavesNothing(c, fb, z);
        }
        SamePrefix(e.sizes, Emit(Extended(e.rest, m, joins), fb, z).sizes,
                   Emit(Extended(e.rest, m, joinsKept), fb, z).sizes);
      }
    }
  }

  /** Split independence, exactly. Draining a queue before a write and again after it
      emits the same samples as draining once after it if and only if that write is free
      of the split. */
  lemma DrainBetweenWrites(q: seq<Segment>, nextSeq: nat, w: Write, ch: nat, rate: int, z: Sizing)
    requires ch > 0 && ValidSizing(z) && rate > 0 && Timed(q) && Aligned(q, ch)
    requires w.tempo > 0 && |w.samples| % ch == 0
    ensures var d := Drain(q, nextSeq, ch, rate, z);
            var again := Drain(Enqueue(d.segs, w.begin, w.tempo, w.samples, rate, ch), d.nextSeq, ch, rate, z);
            var once := Drain(Enqueue(q, w.begin, w.tempo, w.samples, rate, ch), nextSeq, ch, rate, z);
            SameSamples(d.out + again.out, once.out)
            <==> SplitFree(Runs(q, ch), |w.samples| / ch, Joins(q, w, ch, rate), Joins(d.segs, w, ch, rate), 2 * ch, z)
  {
    hide Emit, Drain, Enqueue, Joins, Runs, Grow, Aligned, Sized, SameSamples, SplitFree, Contiguous;
    var d, m := Drain(q, nextSeq, ch, rate, z), |w.samples| / ch;
    var kept, joined := Enqueue(d.segs, w.begin, w.tempo, w.samples, rate, ch),
                        Enqueue(q, w.begin, w.tempo, w.samples, rate, ch);
    var again, once := Drain(kept, d.nextSeq, ch, rate, z), Drain(joined, nextSeq, ch, rate, z);
    DrainAligned(q, nextSeq, ch, rate, z);
    RunsAfterEnqueue(q, w, ch, rate);
    RunsAfterEnqueue(d.segs, w, ch, rate);
    DrainEmits(q, nextSeq, ch, rate, z);
    DrainEmits(kept, d.nextSeq, ch, rate, z);
    DrainEmits(joined, nextSeq, ch, rate, z);
    var sizes, later := EmissionOf(q, ch, z).sizes, EmissionOf(kept, ch, z).sizes;
    SizedAppend(d.out, again.out, sizes, later, ch);
    SameStream(q, nextSeq, w, ch, rate, z);
    SameSamplesIff(d.out + again.out, once.out, sizes + later, EmissionOf(joined, ch, z).sizes,
                   Whole(again.segs, ch), Whole(once.segs, ch), ch);
    SplitFreeIff(Runs(q, ch), m, Joins(q, w, ch, rate), Joins(d.segs, w, ch, rate), 2 * ch, z);
  }

  /** The plain case: nothing is left, or cutting did not move the run's end across the
      tolerance. Then draining in between shows exactly if the write has a frame, joins
      the run, and finds the last datagram open. */
  lemma OpenDatagramShows(q: seq<Segment>, nextSeq: nat, w: Write, ch: nat, rate: int, z: Sizing)
    requires ch > 0 && ValidSizing(z) && rate > 0 && Timed(q) && Aligned(q, ch)
    requires w.tempo > 0 && |w.samples| % ch == 0
    requires var kept := Drain(q, nextSeq, ch, rate, z).segs;
             Runs(kept, ch) == [] || Joins(kept, w, ch, rate) == Joins(q, w, ch, rate)
    ensures var d := Drain(q, nextSeq, ch, rate, z);
            var again := Drain(Enqueue(d.segs, w.begin, w.tempo, w.samples, rate, ch), d.nextSeq, ch, rate, z);
            var once := Drain(Enqueue(q, w.begin, w.tempo, w.samples, rate, ch), nextSeq, ch, rate, z);
            SameSamples(d.out + again.out, once.out)
            <==> !(|w.samples| >= ch && Joins(q, w, ch, rate) && EmissionOf(q, ch, z).open)
  {
    hide Emit, Drain, Enqueue, Joins, Runs, Grow, Aligned, SameSamples, Contiguous;
    DrainBetweenWrites(q, nextSeq, w, ch, rate, z);
    DrainEmits(q, nextSeq, ch, rate, z);
    OneFrame(|w.samples|, ch);
    if EmissionOf(q, ch, z).open {
      OpenLeavesNothing(Runs(q, ch), 2 * ch, z);
    }
  }

  /** Either way it is the same stream. */
  lemma SameStream(q: seq<Segment>, nextSeq: nat, w: Write, ch: nat, rate: int, z: Sizing)
    requires ch > 0 && ValidSizing(z) && rate > 0 && Timed(q) && Aligned(q, ch)
    requires w.tempo > 0 && |w.samples| % ch == 0
    ensures var d := Drain(q, nextSeq, ch, rate, z);
            var again := Drain(Enqueue(d.segs, w.begin, w.tempo, w.samples, rate, ch), d.nextSeq, ch, rate, z);
            var once := Drain(Enqueue(q, w.begin, w.tempo, w.samples, rate, ch), nextSeq, ch, rate, z);
            DataOf(d.out + again.out) + Whole(again.segs, ch) == DataOf(once.out) + Whole(once.segs, ch)
  {
    hide Drain, Enqueue, Aligned, Whole, DataOf;
    var d := Drain(q, nextSeq, ch, rate, z);
    var kept, joined := Enqueue(d.segs, w.begin, w.tempo, w.samples, rate, ch),
                        Enqueue(q, w.begin, w.tempo, w.samples, rate, ch);
    var again := Drain(kept, d.nextSeq, ch, rate, z);
    DrainAligned(q, nextSeq, ch, rate, z);
    EnqueueAppends(q, w.begin, w.tempo, w.samples, rate, ch);
    EnqueueAppends(d.segs, w.begin, w.tempo, w.samples, rate, ch);
    DrainConserves(q, nextSeq, ch, rate, z);
    DrainConserves(kept, d.nextSeq, ch, rate, z);
    DrainConserves(joined, nextSeq, ch, rate, z);
    DataOfAppend(d.out, again.out);
    SampleAssoc(DataOf(d.out), DataOf(again.out), Whole(again.segs, ch));
    SampleAssoc(DataOf(d.out), Whole(d.segs, ch), w.samples);
  }

  // ---------------------------------------------- one continuous run, fill sizing

  /** The most frames of one run in a fill datagram. */
  function FillBlock(ch: nat): (k: nat)
    requires 0 < ch < 256
    ensures k > 0
  {
    if ch == 1 then 548
    else
      Fits(1, FILL.budget - FILL.record, 2 * ch);
      (FILL.budget - FILL.record) / (2 * ch)
  }

  /** The fewest that go out early. */
  function FillThreshold(ch: nat): (t: nat)
    requires 0 < ch < 256
    ensures 0 < t <= FillBlock(ch)
  {
    if ch == 1 then 535
    else
      Fits(1, FILL.budget - 2 * FILL.record, 2 * ch);
      DivMonotone(FILL.budget - 2 * FILL.record, FILL.budget - FILL.record, 2 * ch);
      (FILL.budget - 2 * FILL.record) / (2 * ch)
  }

  /** One run alone fills a datagram from the threshold on, with up to a block. */
  lemma OneRunPlan(n: nat, ch: nat)
    requires 0 < ch < 256 && n > 0
    ensures var p := PlanFrom([n], FILL.budget, 2 * ch, FILL);
            && (Full(p, 2 * ch, FILL) <==> n >= FillThreshold(ch))
            && (n >= FillThreshold(ch) ==> Sum(p.takes) == Min(n, FillBlock(ch)))
  {
    hide PlanFrom, TakeSize;
    if ch == 1 {
      OneRunMono(n);
    } else {
      OneRunWide(n, ch);
    }
  }

  lemma OneRunMono(n: nat)
    requires n > 0
    ensures var p := PlanFrom([n], FILL.budget, 2, FILL);
            && (Full(p, 2, FILL) <==> n >= 535)
            && (n >= 535 ==> Sum(p.takes) == Min(n, 548))
  {
    hide PlanFrom;
    var first, left := Min(n, 512), FILL.budget - FILL.record - Min(n, 512) * 2;
    RunStep(n, FILL.budget, 2, FILL);
    var rest := PlanFrom([n - first], left, 2, FILL);
    SumFront(first, rest.takes);
    if n <= 512 {
      NothingLeft(left, 2, FILL);
    } else {
      var second := Min(n - 512, 36);
      RunStep(n - 512, left, 2, FILL);
      var last := PlanFrom([n - 512 - second], left - 26 - second * 2, 2, FILL);
      SumFront(second, last.takes);
      if second == n - 512 {
        NothingLeft(left - 26 - second * 2, 2, FILL);
      } else {
        RunOver(n - 512 - second, left - 26 - second * 2, 2, FILL);
      }
    }
  }

  lemma OneRunWide(n: nat, ch: nat)
    requires 1 < ch < 256 && n > 0
    ensures var p := PlanFrom([n], FILL.budget, 2 * ch, FILL);
            && (Full(p, 2 * ch, FILL) <==> n >= FillThreshold(ch))
            && (n >= FillThreshold(ch) ==> Sum(p.takes) == Min(n, FillBlock(ch)))
  {
    hide PlanFrom, TakeSize;
    var k, fb := FillBlock(ch), 2 * ch;
    var take := Min(n, k);
    var left := FILL.budget - FILL.record - take * fb;
    WideTake(n, ch);
    RunStep(n, FILL.budget, fb, FILL);
    var rest := PlanFrom([n - take], left, fb, FILL);
    SumFront(take, rest.takes);
    if n <= k {
      NothingLeft(left, fb, FILL);
      WideThreshold(n, ch);
    } else {
      DivBounds(FILL.budget - FILL.record, fb);
      RunOver(n - take, left, fb, FILL);
    }
  }

  lemma WideTake(n: nat, ch: nat)
    requires 1 < ch < 256
    ensures TakeSize(n, FILL.budget, 2 * ch, FILL) == Min(n, FillBlock(ch))
  {
    DivBounds(FILL.budget - FILL.record, 2 * ch);
    MulMono(4, 2 * ch, 512);
    MultipleOrder(FillBlock(ch), 512, 2 * ch);
  }

  lemma WideThreshold(n: nat, ch: nat)
    requires 1 < ch < 256
    ensures n * (2 * ch) > FILL.budget - 2 * FILL.record - 2 * ch <==> n >= FillThreshold(ch)
  {
    var room, fb := FILL.budget - 2 * FILL.record, 2 * ch;
    DivBounds(room, fb);
    Distribute(n, 1, fb);
    if n >= FillThreshold(ch) {
      MulMono(FillThreshold(ch), n, fb);
    } else {
      MulMono(n + 1, FillThreshold(ch), fb);
    }
  }

  function OneRun(n: nat): (c: seq<nat>)
    ensures Sum(c) == n
  {
    SumOne(n);
    if n == 0 then [] else [n]
  }

  /** The frames past the last block reach the threshold. */
  predicate Early(frames: nat, ch: nat)
    requires 0 < ch < 256
  {
    frames % FillBlock(ch) >= FillThreshold(ch)
  }

  ghost predicate AllBlocks(sizes: seq<nat>, k: nat) {
    forall i :: 0 <= i < |sizes| ==> sizes[i] == k
  }

  /** One run drains to blocks, unless what is past the last block goes out early. */
  lemma {:induction false} OneRunEmits(n: nat, ch: nat)
    requires 0 < ch < 256
    ensures var e := Emit(OneRun(n), 2 * ch, FILL);
            && (AllBlocks(e.sizes, FillBlock(ch)) <==> !Early(n, ch))
            && (!Early(n, ch) ==> e.rest == OneRun(n % FillBlock(ch)))
  {
    hide PlanFrom, Emit, FillBlock, FillThreshold, AllBlocks, Drop;
    var k := FillBlock(ch);
    PastBlock(n, k);
    NoBlocks(k);
    if n == 0 {
      EmitNothing(2 * ch, FILL);
    } else {
      OneRunPlan(n, ch);
      DropOne(n, Min(n, k));
      if n < FillThreshold(ch) {
        EmitPartial([n], 2 * ch, FILL);
      } else {
        EmitFull([n], 2 * ch, FILL);
        if n < k {
          EmitNothing(2 * ch, FILL);
          ShortBlock(n, k);
        } else {
          OneRunEmits(n - k, ch);
          BlockFirst(k, Emit(OneRun(n - k), 2 * ch, FILL).sizes);
        }
      }
    }
  }

  lemma PastBlock(n: nat, k: nat)
    requires k > 0
    ensures n % k == if n < k then n else (n - k) % k
  {
    if n < k {
      ModUnique(n, k, 0, n);
    } else {
      DivBounds(n - k, k);
      ModUnique(n, k, (n - k) / k + 1, (n - k) % k);
    }
  }

  lemma NoBlocks(k: nat)
    ensures AllBlocks([], k)
  {
  }

  lemma ShortBlock(n: nat, k: nat)
    requires n < k
    ensures !AllBlocks([n] + [], k)
  {
    assert ([n] + [])[0] == n;
  }

  lemma DropOne(n: nat, k: nat)
    requires k <= n
    ensures n > 0 ==> Drop([n], k) == OneRun(n - k)
  {
    var one: seq<nat> := [n];
    assert one[1..] == [];
  }

  lemma BlockFirst(k: nat, sizes: seq<nat>)
    ensures AllBlocks([k] + sizes, k) <==> AllBlocks(sizes, k)
  {
    var all := [k] + sizes;
    assert forall i :: 0 <= i < |sizes| ==> sizes[i] == all[i + 1];
  }

  /** Every write joins what is pending, if anything is. */
  ghost predicate Continuous(segs: seq<Segment>, nextSeq: nat, ws: seq<Write>, ch: nat, rate: int, z: Sizing)
    requires ch > 0 && ValidSizing(z) && rate > 0 && Timed(segs) && ValidWrites(ws, ch)
    decreases |ws|
  {
    ws == []
    || (&& (Runs(segs, ch) == [] || Joins(segs, ws[0], ch, rate))
        && var d := Drain(Enqueue(segs, ws[0].begin, ws[0].tempo, ws[0].samples, rate, ch), nextSeq, ch, rate, z);
           Continuous(d.segs, d.nextSeq, ws[1..], ch, rate, z))
  }

  /** After no write would material go out early, `n` frames being written before. */
  ghost predicate NeverEarly(n: nat, ws: seq<Write>, ch: nat)
    requires 0 < ch < 256
  {
    forall i :: 0 < i <= |ws| ==> !Early(n + StartOf(ws, i, ch), ch)
  }

  ghost predicate AllData(out: seq<Material>, size: nat) {
    forall i :: 0 <= i < |out| ==> |out[i].data| == size
  }

  lemma BlocksAreSized(out: seq<Material>, sizes: seq<nat>, k: nat, ch: nat)
    requires ch > 0 && Sized(out, sizes, ch)
    ensures AllData(out, k * ch) <==> AllBlocks(sizes, k)
  {
    forall i | 0 <= i < |out| ensures |out[i].data| == k * ch <==> sizes[i] == k {
      if |out[i].data| == k * ch {
        SizeDetermined(sizes[i], k, ch);
      }
    }
  }

  lemma AllDataAppend(a: seq<Material>, b: seq<Material>, size: nat)
    ensures AllData(a + b, size) <==> AllData(a, size) && AllData(b, size)
  {
    assert forall i :: 0 <= i < |a| ==> a[i] == (a + b)[i];
    assert forall i :: 0 <= i < |b| ==> b[i] == (a + b)[|a| + i];
  }

  lemma SameRemainder(a: nat, b: nat, k: nat)
    requires k > 0
    ensures (a % k + b) % k == (a + b) % k
  {
    DivBounds(a % k + b, k);
    DivBounds(a, k);
    Distribute(a / k, (a % k + b) / k, k);
    ModUnique(a + b, k, a / k + (a % k + b) / k, (a % k + b) % k);
  }

  lemma NeverEarlyStep(n: nat, ws: seq<Write>, ch: nat)
    requires 0 < ch < 256 && ValidWrites(ws, ch) && ws != []
    ensures var m := |ws[0].samples| / ch;
            NeverEarly(n, ws, ch)
            <==> !Early(n + m, ch) && NeverEarly(PastLast(n + m, ch), ws[1..], ch)
  {
    hide StartOf, FillBlock, FillThreshold;
    var m, k := |ws[0].samples| / ch, FillBlock(ch);
    forall i | 0 < i <= |ws|
      ensures StartOf(ws, i, ch) == m + StartOf(ws[1..], i - 1, ch)
      ensures Early(n + StartOf(ws, i, ch), ch) == Early((n + m) % k + StartOf(ws[1..], i - 1, ch), ch)
    {
      StartAfterFirst(ws, i, ch);
      SameRemainder(n + m, StartOf(ws[1..], i - 1, ch), k);
    }
    StartOfNone(ws[1..], ch);
    assert StartOf(ws, 1, ch) == m;
    assert forall i :: 0 < i <= |ws[1..]| ==>
      Early((n + m) % k + StartOf(ws[1..], i, ch), ch) == Early(n + StartOf(ws, i + 1, ch), ch);
  }

  lemma StartOfNone(ws: seq<Write>, ch: nat)
    requires ch > 0
    ensures StartOf(ws, 0, ch) == 0
  {
    assert ws[..0] == [];
    ModUnique(0, ch, 0, 0);
  }

  /** Frames past the last block. */
  function PastLast(frames: nat, ch: nat): (n: nat)
    requires 0 < ch < 256
    ensures n == frames % FillBlock(ch)
  {
    DivBounds(frames, FillBlock(ch));
    frames % FillBlock(ch)
  }

  /** What one write of a continuous run emits and leaves, `all` frames having been
      written since the last block. */
  ghost predicate OneMoreWrite(d: Drained, all: nat, ch: nat)
    requires 0 < ch < 256
  {
    && Aligned(d.segs, ch)
    && (AllData(d.out, FillBlock(ch) * ch) <==> !Early(all, ch))
    && (!Early(all, ch) ==> Runs(d.segs, ch) == OneRun(PastLast(all, ch)))
  }

  lemma OneWriteBlocks(segs: seq<Segment>, nextSeq: nat, w: Write, n: nat, ch: nat, rate: int)
    requires 0 < ch < 256 && rate > 0 && Timed(segs) && Aligned(segs, ch) && w.tempo > 0 && |w.samples| % ch == 0
    requires Runs(segs, ch) == OneRun(n) && (Runs(segs, ch) == [] || Joins(segs, w, ch, rate))
    ensures OneMoreWrite(Drain(Enqueue(segs, w.begin, w.tempo, w.samples, rate, ch), nextSeq, ch, rate, FILL),
                         n + |w.samples| / ch, ch)
  {
    hide Drain, Enqueue, Runs, Emit, AllData, AllBlocks, Sized, Aligned, FillBlock, FillThreshold, Joins, Early;
    var q, all := Enqueue(segs, w.begin, w.tempo, w.samples, rate, ch), n + |w.samples| / ch;
    EnqueueAppends(segs, w.begin, w.tempo, w.samples, rate, ch);
    RunsAfterEnqueue(segs, w, ch, rate);
    assert Runs(q, ch) == OneRun(all);
    DrainEmits(q, nextSeq, ch, rate, FILL);
    DrainAligned(q, nextSeq, ch, rate, FILL);
    OneRunEmits(all, ch);
    BlocksAreSized(Drain(q, nextSeq, ch, rate, FILL).out, EmissionOf(q, ch, FILL).sizes, FillBlock(ch), ch);
  }

  lemma {:induction false} RunBlocks(segs: seq<Segment>, nextSeq: nat, ws: seq<Write>, n: nat, ch: nat, rate: int)
    requires 0 < ch < 256 && rate > 0 && Timed(segs) && Aligned(segs, ch) && ValidWrites(ws, ch)
    requires Runs(segs, ch) == OneRun(n) && n < FillThreshold(ch) && Continuous(segs, nextSeq, ws, ch, rate, FILL)
    ensures var d := RunWrites(segs, nextSeq, ws, ch, rate, FILL);
            && (AllData(d.out, FillBlock(ch) * ch) <==> NeverEarly(n, ws, ch))
            && (NeverEarly(n, ws, ch) ==> Sum(Runs(d.segs, ch)) < FillBlock(ch))
    decreases |ws|
  {
    hide Drain, Enqueue, Runs, NeverEarly, AllData, Aligned, FillBlock, FillThreshold, Joins, PastLast;
    if ws == [] {
      NothingWritten(n, ch);
    } else {
      var w, all := ws[0], n + |ws[0].samples| / ch;
      var d := Drain(Enqueue(segs, w.begin, w.tempo, w.samples, rate, ch), nextSeq, ch, rate, FILL);
      OneWriteBlocks(segs, nextSeq, w, n, ch, rate);
      NeverEarlyStep(n, ws, ch);
      AllDataAppend(d.out, RunWrites(d.segs, d.nextSeq, ws[1..], ch, rate, FILL).out, FillBlock(ch) * ch);
      if !Early(all, ch) {
        RunBlocks(d.segs, d.nextSeq, ws[1..], PastLast(all, ch), ch, rate);
      }
    }
  }

  lemma NothingWritten(n: nat, ch: nat)
    requires 0 < ch < 256
    ensures NeverEarly(n, [], ch) && AllData([], FillBlock(ch) * ch)
  {
  }

  /** Continuous material in fill sizing: the datagrams are the full blocks of the stream
      if and only if after no write the frames past the last block reach the threshold. */
  lemma FillBlocksIff(nextSeq: nat, ws: seq<Write>, ch: nat, rate: int)
    requires 0 < ch < 256 && rate > 0 && ValidWrites(ws, ch) && Continuous([], nextSeq, ws, ch, rate, FILL)
    ensures IsBlocksOf(RunWrites([], nextSeq, ws, ch, rate, FILL).out, Stream(ws), FillBlock(ch) * ch)
       <==> forall i :: 0 < i <= |ws| ==> StartOf(ws, i, ch) % FillBlock(ch) < FillThreshold(ch)
  {
    hide RunWrites, Continuous, StartOf, FillBlock, FillThreshold;
    var d, k := RunWrites([], nextSeq, ws, ch, rate, FILL), FillBlock(ch);
    RunBlocks([], nextSeq, ws, 0, ch, rate);
    FromStart(ws, ch);
    RunConserves([], nextSeq, ws, ch, rate, FILL);
    assert Whole([], ch) + Stream(ws) == Stream(ws);
    if NeverEarly(0, ws, ch) {
      FewPending(d.segs, k, ch);
      BlocksOfStream(d.out, Whole(d.segs, ch), k * ch);
    }
    if IsBlocksOf(d.out, Stream(ws), k * ch) {
      assert AllData(d.out, k * ch);
    }
  }

  /** Of two continuous runs that write the same stream, one of them without early
      material, the datagrams are the same if and only if the other is without it too. */
  lemma FillSplitIff(n1: nat, ws1: seq<Write>, n2: nat, ws2: seq<Write>, ch: nat, rate: int)
    requires 0 < ch < 256 && rate > 0 && ValidWrites(ws1, ch) && ValidWrites(ws2, ch) && Stream(ws1) == Stream(ws2)
    requires Continuous([], n1, ws1, ch, rate, FILL) && Continuous([], n2, ws2, ch, rate, FILL)
    requires NeverEarly(0, ws1, ch)
    ensures SameSamples(RunWrites([], n1, ws1, ch, rate, FILL).out, RunWrites([], n2, ws2, ch, rate, FILL).out)
       <==> NeverEarly(0, ws2, ch)
  {
    hide RunWrites, Continuous, StartOf, FillBlock, FillThreshold;
    FillBlocksIff(n1, ws1, ch, rate);
    FillBlocksIff(n2, ws2, ch, rate);
    FromStart(ws1, ch);
    FromStart(ws2, ch);
  }

  lemma FromStart(ws: seq<Write>, ch: nat)
    requires 0 < ch < 256
    ensures NeverEarly(0, ws, ch)
       <==> forall i :: 0 < i <= |ws| ==> StartOf(ws, i, ch) % FillBlock(ch) < FillThreshold(ch)
  {
    hide StartOf, FillBlock, FillThreshold;
    assert forall i :: 0 < i <= |ws| ==> Early(0 + StartOf(ws, i, ch), ch) == Early(StartOf(ws, i, ch), ch);
  }

  lemma FewPending(segs: seq<Segment>, k: nat, ch: nat)
    requires ch > 0 && Sum(Runs(segs, ch)) < k
    ensures |Whole(segs, ch)| < k * ch
  {
    WholeLength(segs, ch);
    SumNonZero(Counts(segs, ch));
    MulMono(Sum(Counts(segs, ch)) + 1, k, ch);
    Distribute(Sum(Counts(segs, ch)), 1, ch);
  }

  // ------------------------------------------------------------- an instance

  /** Silence of this many frames, as one write. */
  function Silence(frames: nat): Write {
    Write(0, 500_000, seq(frames, i => 0))
  }

  /** 535 mono frames and then 13 more go out as a datagram of 535, the same 548 written
      at once as a datagram of 548. */
  lemma FillDependsOnSplits()
    ensures var two, one := [Silence(535), Silence(13)], [Silence(548)];
            && Stream(two) == Stream(one)
            && RunWrites([], 1, two, 1, 48_000, FILL).out != [] && RunWrites([], 1, one, 1, 48_000, FILL).out != []
            && |RunWrites([], 1, two, 1, 48_000, FILL).out[0].data| == 535
            && |RunWrites([], 1, one, 1, 48_000, FILL).out[0].data| == 548
  {
    hide RunWrites;
    var two, one := [Silence(535), Silence(13)], [Silence(548)];
    assert two[1..] == [Silence(13)] && [Silence(13)][1..] == [] && one[1..] == [];
    FirstDatagram(535, two);
    FirstDatagram(548, one);
  }

  lemma FirstDatagram(n: nat, ws: seq<Write>)
    requires 535 <= n <= 548 && ws != [] && ws[0] == Silence(n) && ValidWrites(ws, 1)
    ensures var out := RunWrites([], 1, ws, 1, 48_000, FILL).out;
            out != [] && |out[0].data| == n
  {
    hide Drain, Emit, PlanFrom;
    var w := Silence(n);
    var q := Enqueue([], w.begin, w.tempo, w.samples, 48_000, 1);
    RunsAfterEnqueue([], w, 1, 48_000);
    DrainEmits(q, 1, 1, 48_000, FILL);
    OneRunPlan(n, 1);
    EmitFull([n], 2, FILL);
    var d := Drain(q, 1, 1, 48_000, FILL);
    assert Runs(q, 1) == [n] && |d.out[0].data| == n;
    var rest := RunWrites(d.segs, d.nextSeq, ws[1..], 1, 48_000, FILL);
    assert (d.out + rest.out)[0] == d.out[0];
  }
}
