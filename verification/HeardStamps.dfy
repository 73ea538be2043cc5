/**
 What a subscriber hears of each chunk: its own frames of the written stream, stamped
 with the beat the subscriber's grid has where the application put them.
 */
module HeardStamps {
  import opened Types
  import opened Wrappers
  import opened BeatGrid
  import opened AudioWire
  import opened AudioSink
  import opened AudioSender
  import opened AudioSource
  import opened AudioStream
  import opened StampDrift
  import opened EmittedStamps

  // -------------------------------------------------------------- chunk by chunk

  /** The chunk as heard: its stamp moved by the session offset, the rest as sent. */
  predicate HeardAs(r: ReceivedChunk, c: Chunk, delta: int, rate: nat, channels: nat) {
    r.beginAppBeat == c.beginBeats + delta && r.tempo == c.tempo && r.num == c.num
    && r.sampleRate == rate && r.channels == channels
  }

  /** The chunk as heard holds its frames, which start at frame `p` of the data. */
  ghost predicate Holds(r: ReceivedChunk, c: Chunk, data: seq<i16>, p: nat, delta: int, rate: nat, ch: nat) {
    var from: nat, len: nat := p * ch, c.numFrames * ch;
    HeardAs(r, c, delta, rate, ch) && from + len <= |data| && r.samples == data[from..from + len]
  }

  lemma SliceWithin(front: seq<i16>, data: seq<i16>, behind: seq<i16>, from: nat, len: nat)
    requires from + len <= |data|
    ensures (front + data + behind)[|front| + from..|front| + from + len] == data[from..from + len]
  {
  }

  /** More data in front, more behind. */
  lemma HoldsWithin(r: ReceivedChunk, c: Chunk, front: seq<i16>, data: seq<i16>, behind: seq<i16>, f: nat, p: nat,
                    delta: int, rate: nat, ch: nat)
    requires Holds(r, c, data, p, delta, rate, ch) && |front| == f * ch
    ensures Holds(r, c, front + data + behind, f + p, delta, rate, ch)
  {
    hide HeardAs;
    var from: nat, len: nat := p * ch, c.numFrames * ch;
    SliceWithin(front, data, behind, from, len);
    assert (f + p) * ch == |front| + from by { Distribute(f, p, ch); }
  }

  lemma {:induction false} CutsLength(chunks: seq<Chunk>, samples: seq<i16>, ch: nat, delta: int, rate: nat,
                                      channels: nat)
    ensures |Cuts(chunks, samples, ch, delta, rate, channels)| == |chunks|
  {
    if chunks != [] {
      CutsLength(chunks[1..], samples[Min(chunks[0].numFrames * ch, |samples|)..], ch, delta, rate, channels);
    }
  }

  lemma CutsStep(chunks: seq<Chunk>, samples: seq<i16>, ch: nat, delta: int, rate: nat)
    requires chunks != [] && TotalFrames(chunks) * ch == |samples|
    ensures chunks[0].numFrames * ch + TotalFrames(chunks[1..]) * ch == |samples|
    ensures var n: nat := chunks[0].numFrames * ch;
            var cuts := Cuts(chunks, samples, ch, delta, rate, ch);
            n <= |samples| && cuts != [] && Holds(cuts[0], chunks[0], samples, 0, delta, rate, ch)
            && cuts[1..] == Cuts(chunks[1..], samples[n..], ch, delta, rate, ch)
  {
    Distribute(chunks[0].numFrames, TotalFrames(chunks[1..]), ch);
    MulMono(0, TotalFrames(chunks[1..]), ch);
    assert 0 * ch == 0;
  }

  lemma {:induction false} CutsAre(chunks: seq<Chunk>, samples: seq<i16>, ch: nat, delta: int, rate: nat, k: nat)
    requires k < |chunks| && TotalFrames(chunks) * ch == |samples|
    ensures var cuts := Cuts(chunks, samples, ch, delta, rate, ch);
            |cuts| == |chunks| && Holds(cuts[k], chunks[k], samples, TotalFrames(chunks[..k]), delta, rate, ch)
    decreases k
  {
    hide Cuts, Holds;
    CutsStep(chunks, samples, ch, delta, rate);
    CutsLength(chunks, samples, ch, delta, rate, ch);
    if k == 0 {
      assert chunks[..0] == [];
    } else {
      var tail, n: nat := chunks[1..], chunks[0].numFrames * ch;
      var rest := samples[n..];
      CutsAre(tail, rest, ch, delta, rate, k - 1);
      assert chunks[..k][1..] == tail[..k - 1];
      HoldsWithin(Cuts(tail, rest, ch, delta, rate, ch)[k - 1], tail[k - 1], samples[..n], rest, [],
                  chunks[0].numFrames, TotalFrames(tail[..k - 1]), delta, rate, ch);
      assert samples[..n] + rest + [] == samples;
    }
  }

  lemma {:induction false} ReceivedLength(out: seq<Material>, delta: int, rate: nat, ch: nat)
    ensures |Received(out, delta, rate, ch)| == |ChunksOf(out)|
  {
    if out != [] {
      CutsLength(out[0].chunks, out[0].data, ch, delta, rate, ch);
      ReceivedLength(out[1..], delta, rate, ch);
    }
  }

  /** Of well-packed datagrams the `k`-th chunk heard is the `k`-th sent, with exactly the
      samples of its frames. */
  lemma {:induction false} ReceivedAre(out: seq<Material>, delta: int, rate: nat, ch: nat, z: Sizing, k: nat)
    requires AllPacked(out, ch, z) && k < |ChunksOf(out)|
    ensures var heard, chunks := Received(out, delta, rate, ch), ChunksOf(out);
            |heard| == |chunks| && Holds(heard[k], chunks[k], DataOf(out), TotalFrames(chunks[..k]), delta, rate, ch)
    decreases |out|
  {
    hide Holds, WellPacked, Cuts;
    ReceivedLength(out, delta, rate, ch);
    var m, tail := out[0], out[1..];
    assert WellPacked(m, ch, z) && AllPacked(tail, ch, z);
    var all, cuts := ChunksOf(out), Cuts(m.chunks, m.data, ch, delta, rate, ch);
    CutsLength(m.chunks, m.data, ch, delta, rate, ch);
    if k < |m.chunks| {
      DataIsFrames(m, ch, z);
      CutsAre(m.chunks, m.data, ch, delta, rate, k);
      assert all[..k] == m.chunks[..k];
      HoldsWithin(cuts[k], all[k], [], m.data, DataOf(tail), 0, TotalFrames(m.chunks[..k]), delta, rate, ch);
      assert [] + m.data + DataOf(tail) == DataOf(out);
    } else {
      var j := k - |m.chunks|;
      ReceivedAre(tail, delta, rate, ch, z, j);
      assert all[..k] == m.chunks + ChunksOf(tail)[..j];
      TotalAppend(m.chunks, ChunksOf(tail)[..j]);
      DataIsFrames(m, ch, z);
      HoldsWithin(Received(tail, delta, rate, ch)[j], all[k], m.data, DataOf(tail), [], TotalFrames(m.chunks),
                  TotalFrames(ChunksOf(tail)[..j]), delta, rate, ch);
      assert m.data + DataOf(tail) + [] == DataOf(out);
    }
  }

  lemma DataIsFrames(m: Material, ch: nat, z: Sizing)
    requires WellPacked(m, ch, z)
    ensures |m.data| == TotalFrames(m.chunks) * ch
  {
  }

  // ------------------------------------------------------------- over a run

  /** The `k`-th chunk heard holds exactly its frames of the written stream. */
  lemma HeardFrames(nextSeq: nat, ws: seq<AudioSink.Write>, ch: nat, rate: nat, z: Sizing, delta: int, k: nat)
    requires ch > 0 && ValidSizing(z) && rate > 0 && ValidWrites(ws, ch)
    requires k < |ChunksOf(RunWrites([], nextSeq, ws, ch, rate, z).out)|
    ensures var out := RunWrites([], nextSeq, ws, ch, rate, z).out;
            var heard, chunks := Received(out, delta, rate, ch), ChunksOf(out);
            |heard| == |chunks| && Holds(heard[k], chunks[k], Stream(ws), TotalFrames(chunks[..k]), delta, rate, ch)
  {
    hide RunWrites, Received, Holds;
    var d := RunWrites([], nextSeq, ws, ch, rate, z);
    RunConserves([], nextSeq, ws, ch, rate, z);
    assert Whole([], ch) + Stream(ws) == Stream(ws);
    NothingPlanned(ch, z);
    RunPacked([], nextSeq, ws, ch, rate, z);
    ReceivedAre(d.out, delta, rate, ch, z, k);
    HoldsWithin(Received(d.out, delta, rate, ch)[k], ChunksOf(d.out)[k], [], DataOf(d.out), Whole(d.segs, ch), 0,
                TotalFrames(ChunksOf(d.out)[..k]), delta, rate, ch);
    assert [] + DataOf(d.out) + Whole(d.segs, ch) == Stream(ws);
  }

  lemma NothingPlanned(ch: nat, z: Sizing)
    requires ch > 0 && ValidSizing(z)
    ensures !Full(NextPlan([], ch, z), 2 * ch, z)
  {
  }

  lemma {:induction false} WriteAt(calls: seq<Call>, ch: nat, i: nat)
    requires ch > 0 && ValidCalls(calls, ch) && i < |calls|
    ensures WritesOf(calls, ch)[i]
         == AudioSink.Write(calls[i].beginAppBeat - SessionOffset(calls[i].timeline, calls[i].quantum),
                            calls[i].timeline.tempo, calls[i].samples)
    decreases i
  {
    if i > 0 {
      WriteAt(calls[1..], ch, i - 1);
    }
  }

  /** Both stamps moved alike stay as near. */
  lemma NearShifted(begin: int, stamp: int, offset: int, halves: int, rate: int, tempo: int, move: int)
    requires Near(begin, stamp, offset, halves, rate, tempo)
    ensures Near(begin + move, stamp + move, offset, halves, rate, tempo)
  {
    assert begin + move - (stamp + move) == begin - stamp;
  }

  /** In time. The application writes material stamped with its beat of the instant `g`, at
      its own quantum; a subscriber of the same session, at any quantum, hears a chunk
      whose first frame is of that material within (m+3)/2 micro-beats of the line
      through its own beat of that instant, m being the chunks cut since the write. */
  lemma HeardInTime(nextSeq: nat, calls: seq<Call>, ch: nat, rate: nat, z: Sizing, tl: Timeline, g: int, quantum: int,
                    k: nat, i: nat)
    requires ch > 0 && ValidSizing(z) && rate > 0 && ValidCalls(calls, ch) && i < |calls|
    requires k < |ChunksOf(RunWrites([], nextSeq, WritesOf(calls, ch), ch, rate, z).out)|
    requires calls[i].timeline == tl && calls[i].beginAppBeat == AppBeatAtGhost(tl, g, calls[i].quantum)
    ensures var ws := WritesOf(calls, ch);
            var out := RunWrites([], nextSeq, ws, ch, rate, z).out;
            var heard, p := Received(out, SessionOffset(tl, quantum), rate, ch), TotalFrames(ChunksOf(out)[..k]);
            var sent := RunWrites([], nextSeq, ws[..i], ch, rate, z).nextSeq;
            && k < |heard|
            && (StartOf(ws, i, ch) <= p < StartOf(ws, i, ch) + |ws[i].samples| / ch ==>
                  && heard[k].tempo == tl.tempo && sent <= heard[k].num
                  && Near(heard[k].beginAppBeat, AppBeatAtGhost(tl, g, quantum), StartOf(ws, i, ch) - p,
                          heard[k].num - sent + 3, rate, tl.tempo))
  {
    hide RunWrites, Received, StartOf, Near, AppBeatAtGhost, SessionOffset;
    var ws, delta := WritesOf(calls, ch), SessionOffset(tl, quantum);
    var out := RunWrites([], nextSeq, ws, ch, rate, z).out;
    var p, sent := TotalFrames(ChunksOf(out)[..k]), RunWrites([], nextSeq, ws[..i], ch, rate, z).nextSeq;
    WriteAt(calls, ch, i);
    NothingPlanned(ch, z);
    RunPacked([], nextSeq, ws, ch, rate, z);
    ReceivedAre(out, delta, rate, ch, z, k);
    EmittedDrift(nextSeq, ws, ch, rate, z, k, i);
    BeatAlignment(tl, g, calls[i].quantum, quantum);
    if StartOf(ws, i, ch) <= p < StartOf(ws, i, ch) + |ws[i].samples| / ch {
      NearShifted(ChunksOf(out)[k].beginBeats, ws[i].begin, StartOf(ws, i, ch) - p, ChunksOf(out)[k].num - sent + 3,
                  rate, tl.tempo, delta);
    }
  }
}
