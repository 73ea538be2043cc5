/**
 What an announcement round, and the byes that undo it, leave in the directory of a peer
 that hears them message by message.
 */
module Directory {
  import opened Types
  import opened Wrappers
  import opened EngineState
  import opened Dispatch
  import A = Announcement
  import W = AudioWire

  /** Messages heard one after the other through a gateway: when, and what was known before
      the first and after each. */
  ghost predicate Heard(fs: seq<W.Frame>, gw: nat, src: Endpoint, ats: seq<int>, nets: seq<Net>) {
    |ats| == |fs| && |nets| == |fs| + 1
    && forall i :: 0 <= i < |fs| ==> DirectoryAfter(fs[i], gw, src, ats[i], nets[i], nets[i + 1])
  }

  /** The messages of a round begun at `now`. */
  function Messages(s: A.Sender, gs: seq<seq<W.ChannelInfo>>, now: int): seq<W.Frame> {
    seq(|gs|, i requires 0 <= i < |gs| => A.Message(s, gs[i], A.PingOf(now, i)))
  }

  /** Only the first message of a round is answered, with the time it was begun. */
  lemma FirstAnswered(node: Id, s: A.Sender, gs: seq<seq<W.ChannelInfo>>, now: int, i: nat)
    requires i < |gs|
    ensures AnswerTo(node, Messages(s, gs, now)[i])
         == if i == 0 then Some(W.NewFrame(node, W.Pong(now))) else None
    ensures var f := Messages(s, gs, now)[i];
            f.node == s.node && f.message.session == s.session && f.message.peerName == s.peerName
  {
  }

  // ------------------------------------------------------------------- learning

  /** One of the first `n` messages names the channel. */
  predicate Announced(gs: seq<seq<W.ChannelInfo>>, n: nat, id: Id)
    requires n <= |gs|
  {
    exists i, j :: 0 <= i < n && 0 <= j < |gs[i]| && gs[i][j].id == id
  }

  /** The channel's publisher, and a deadline of five seconds after one of these instants. */
  predicate Refreshed(c: KnownChannel, node: Id, ats: seq<int>, n: nat)
    requires n <= |ats|
  {
    c.peer == node && exists i :: 0 <= i < n && c.deadline == ats[i] + 5_000_000
  }

  /** What `n` messages left: the announced channels, refreshed, and the others as before. */
  ghost predicate Learned(s: A.Sender, gs: seq<seq<W.ChannelInfo>>, gw: nat, ats: seq<int>, n: nat, b: Net, a: Net)
    requires n <= |gs| && n <= |ats|
  {
    && a == b.(known := a.known)
    && (forall k :: k in a.known <==> k in b.known || (k.1 == gw && Announced(gs, n, k.0)))
    && (forall k :: k in a.known ==>
          if k.1 == gw && Announced(gs, n, k.0) then Refreshed(a.known[k], s.node, ats, n)
          else a.known[k] == b.known[k])
  }

  lemma AnnouncedStep(gs: seq<seq<W.ChannelInfo>>, n: nat, id: Id)
    requires n < |gs|
    ensures Announced(gs, n + 1, id) <==> Announced(gs, n, id) || id in IdsOf(gs[n])
  {
    if id in IdsOf(gs[n]) {
      var j :| 0 <= j < |gs[n]| && IdsOf(gs[n])[j] == id;
      assert gs[n][j].id == id;
    }
    if Announced(gs, n + 1, id) && !Announced(gs, n, id) {
      var i, j :| 0 <= i < n + 1 && 0 <= j < |gs[i]| && gs[i][j].id == id;
      assert IdsOf(gs[n])[j] == id;
    }
  }

  lemma {:induction false} MessagesLearned(s: A.Sender, gs: seq<seq<W.ChannelInfo>>, now: int, gw: nat, src: Endpoint,
                                           ats: seq<int>, nets: seq<Net>, n: nat)
    requires Heard(Messages(s, gs, now), gw, src, ats, nets) && n <= |gs|
    requires (s.node, gw) in nets[0].peers && nets[0].peers[(s.node, gw)].state.audioEndpoint == Some(src)
    ensures Learned(s, gs, gw, ats, n, nets[0], nets[n])
    decreases n
  {
    if n > 0 {
      MessagesLearned(s, gs, now, gw, src, ats, nets, n - 1);
      var f := Messages(s, gs, now)[n - 1];
      assert DirectoryAfter(f, gw, src, ats[n - 1], nets[n - 1], nets[n]);
      OneMoreLearned(s, gs, gw, ats, n - 1, nets[0], nets[n - 1], nets[n]);
    }
  }

  lemma OneMoreLearned(s: A.Sender, gs: seq<seq<W.ChannelInfo>>, gw: nat, ats: seq<int>, n: nat, b: Net, m: Net, a: Net)
    requires n < |gs| && n < |ats| && Learned(s, gs, gw, ats, n, b, m)
    requires a == m.(known := Listed(m.known, gw, IdsOf(gs[n]), KnownChannel(s.node, ats[n] + 5_000_000)))
    ensures Learned(s, gs, gw, ats, n + 1, b, a)
  {
    hide IdsOf, Announced;
    var entry := KnownChannel(s.node, ats[n] + 5_000_000);
    ListedExactly(m.known, gw, IdsOf(gs[n]), entry);
    forall id ensures Announced(gs, n + 1, id) <==> Announced(gs, n, id) || id in IdsOf(gs[n]) {
      AnnouncedStep(gs, n, id);
    }
  }

  lemma {:induction false} FlatNames(gs: seq<seq<W.ChannelInfo>>, id: Id)
    ensures Announced(gs, |gs|, id) <==> id in IdsOf(A.Flat(gs))
  {
    if gs != [] {
      var tail := gs[1..];
      FlatNames(tail, id);
      assert IdsOf(A.Flat(gs)) == IdsOf(gs[0]) + IdsOf(A.Flat(tail));
      AnnouncedFront(gs, id);
    }
  }

  lemma AnnouncedFront(gs: seq<seq<W.ChannelInfo>>, id: Id)
    requires gs != []
    ensures Announced(gs, |gs|, id) <==> id in IdsOf(gs[0]) || Announced(gs[1..], |gs| - 1, id)
  {
    var tail := gs[1..];
    if id in IdsOf(gs[0]) {
      var j :| 0 <= j < |gs[0]| && IdsOf(gs[0])[j] == id;
      assert gs[0][j].id == id;
    }
    if Announced(tail, |tail|, id) {
      var i, j :| 0 <= i < |tail| && 0 <= j < |tail[i]| && tail[i][j].id == id;
      assert gs[i + 1][j].id == id;
    }
    if Announced(gs, |gs|, id) {
      var i, j :| 0 <= i < |gs| && 0 <= j < |gs[i]| && gs[i][j].id == id;
      if i > 0 {
        assert tail[i - 1][j].id == id;
      } else {
        assert IdsOf(gs[0])[j] == id;
      }
    }
  }

  /** A peer that knows the publisher's audio endpoint knows, after a whole round from it,
      exactly the channels of the round besides those it knew; each stands for five
      seconds from when its message came, and no other channel is touched. */
  lemma RoundHeard(s: A.Sender, cs: seq<W.ChannelInfo>, now: int, gw: nat, src: Endpoint, ats: seq<int>,
                   nets: seq<Net>)
    requires A.ShortNames(s, cs) && Heard(Messages(s, A.Groups(s, cs, true), now), gw, src, ats, nets)
    requires (s.node, gw) in nets[0].peers && nets[0].peers[(s.node, gw)].state.audioEndpoint == Some(src)
    ensures var b, a := nets[0], nets[|nets| - 1];
            && a == b.(known := a.known)
            && (forall k :: k in a.known <==> k in b.known || (k.1 == gw && k.0 in IdsOf(cs)))
            && (forall k :: k in a.known ==>
                  if k.1 == gw && k.0 in IdsOf(cs) then Refreshed(a.known[k], s.node, ats, |ats|)
                  else a.known[k] == b.known[k])
  {
    hide Announced, IdsOf, Refreshed;
    var gs := A.Groups(s, cs, true);
    A.RoundCorrect(s, cs, true);
    MessagesLearned(s, gs, now, gw, src, ats, nets, |gs|);
    forall id ensures Announced(gs, |gs|, id) <==> id in IdsOf(cs) {
      FlatNames(gs, id);
    }
  }

  /** From anyone whose audio endpoint is not known nothing is learned. */
  lemma {:induction false} StrangerIgnored(s: A.Sender, gs: seq<seq<W.ChannelInfo>>, now: int, gw: nat, src: Endpoint,
                                           ats: seq<int>, nets: seq<Net>, n: nat)
    requires Heard(Messages(s, gs, now), gw, src, ats, nets) && n <= |gs|
    requires (s.node, gw) in nets[0].peers ==> nets[0].peers[(s.node, gw)].state.audioEndpoint != Some(src)
    ensures nets[n] == nets[0]
    decreases n
  {
    if n > 0 {
      StrangerIgnored(s, gs, now, gw, src, ats, nets, n - 1);
      var f := Messages(s, gs, now)[n - 1];
      assert DirectoryAfter(f, gw, src, ats[n - 1], nets[n - 1], nets[n]);
    }
  }

  // ------------------------------------------------------------------ withdrawing

  /** The messages that withdraw these channels. */
  function Byes(node: Id, gs: seq<seq<Id>>): seq<W.Frame> {
    seq(|gs|, i requires 0 <= i < |gs| => W.NewFrame(node, W.ChannelByes(gs[i])))
  }

  /** One of the first `n` messages withdraws the channel. */
  predicate Withdrawn(gs: seq<seq<Id>>, n: nat, id: Id)
    requires n <= |gs|
  {
    exists i :: 0 <= i < n && id in gs[i]
  }

  lemma {:induction false} ByesHeard(node: Id, gs: seq<seq<Id>>, gw: nat, src: Endpoint, ats: seq<int>, nets: seq<Net>,
                                     n: nat)
    requires Heard(Byes(node, gs), gw, src, ats, nets) && n <= |gs|
    ensures var b, a := nets[0], nets[n];
            && a == b.(known := a.known) && (forall k :: k in a.known ==> k in b.known && a.known[k] == b.known[k])
            && (forall k :: k in b.known ==>
                  (k in a.known <==> !(k.1 == gw && b.known[k].peer == node && Withdrawn(gs, n, k.0))))
    decreases n
  {
    if n > 0 {
      ByesHeard(node, gs, gw, src, ats, nets, n - 1);
      var f := Byes(node, gs)[n - 1];
      assert DirectoryAfter(f, gw, src, ats[n - 1], nets[n - 1], nets[n]);
      forall id ensures Withdrawn(gs, n, id) <==> Withdrawn(gs, n - 1, id) || id in gs[n - 1] {
      }
    }
  }

  lemma {:induction false} FlatIdsNames(gs: seq<seq<Id>>, id: Id)
    ensures Withdrawn(gs, |gs|, id) <==> id in A.FlatIds(gs)
  {
    if gs != [] {
      var tail := gs[1..];
      FlatIdsNames(tail, id);
      if Withdrawn(gs, |gs|, id) {
        var i :| 0 <= i < |gs| && id in gs[i];
        assert i > 0 ==> id in tail[i - 1];
      }
      if Withdrawn(tail, |tail|, id) {
        var i :| 0 <= i < |tail| && id in tail[i];
        assert id in gs[i + 1];
      }
    }
  }

  /** Withdrawing channels undoes announcing them: after both, the publisher has none of
      them left on that gateway, and every other channel is as it was. */
  lemma RoundUndone(s: A.Sender, cs: seq<W.ChannelInfo>, now: int, gw: nat, src: Endpoint, ats: seq<int>,
                    nets: seq<Net>, ats2: seq<int>, nets2: seq<Net>)
    requires A.ShortNames(s, cs) && Heard(Messages(s, A.Groups(s, cs, true), now), gw, src, ats, nets)
    requires (s.node, gw) in nets[0].peers && nets[0].peers[(s.node, gw)].state.audioEndpoint == Some(src)
    requires Heard(Byes(s.node, A.ByeGroups(IdsOf(cs))), gw, src, ats2, nets2) && nets2[0] == nets[|nets| - 1]
    ensures var b, a := nets[0], nets2[|nets2| - 1];
            && a == b.(known := a.known)
            && (forall k :: k in a.known <==> k in b.known && !(k.1 == gw && k.0 in IdsOf(cs)))
            && (forall k :: k in a.known ==> a.known[k] == b.known[k])
  {
    hide Withdrawn, IdsOf;
    var gs := A.ByeGroups(IdsOf(cs));
    RoundHeard(s, cs, now, gw, src, ats, nets);
    A.ByesCorrect(IdsOf(cs));
    ByesHeard(s.node, gs, gw, src, ats2, nets2, |gs|);
    forall id ensures Withdrawn(gs, |gs|, id) <==> id in IdsOf(cs) {
      FlatIdsNames(gs, id);
    }
  }
}
