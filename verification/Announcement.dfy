/**
 Announcement rounds and channel byes: lists split across messages within the
 sender's payload budget.
 */
module Announcement {
  import opened Types
  import opened Wrappers
  import opened Codec
  import W = AudioWire

  /** The most bytes a sender puts in one message. */
  const LIMIT := 20 + W.MAX_PAYLOAD

  /** What every announcement of a round shares. */
  datatype Sender = Sender(node: Id, session: Id, peerName: seq<byte>)

  predicate ShortNames(s: Sender, cs: seq<W.ChannelInfo>) {
    |s.peerName| <= W.MAX_NAME && forall i :: 0 <= i < |cs| ==> |cs[i].name| <= W.MAX_NAME
  }

  function ChannelsSize(cs: seq<W.ChannelInfo>): nat {
    if cs == [] then 0 else ChannelsSize(cs[..|cs| - 1]) + 12 + |cs[|cs| - 1].name|
  }

  /** Encoded size of an announcement. */
  function Size(s: Sender, cs: seq<W.ChannelInfo>, ping: bool): nat {
    60 + |s.peerName| + ChannelsSize(cs) + (if ping then 16 else 0)
  }

  function Message(s: Sender, cs: seq<W.ChannelInfo>, ping: Option<int>): W.Frame {
    W.NewFrame(s.node, W.PeerAnnouncement(s.session, s.peerName, cs, ping))
  }

  predicate Sendable(s: Sender, cs: seq<W.ChannelInfo>, ping: Option<int>) {
    ShortNames(s, cs) && |cs| < 0x80_0000 && (ping.Some? ==> IsI64(ping.value))
  }

  lemma SendableInRange(s: Sender, cs: seq<W.ChannelInfo>, ping: Option<int>)
    requires Sendable(s, cs, ping)
    ensures W.FrameInRange(Message(s, cs, ping))
  {
  }

  lemma {:induction false} ChannelsSizeIs(cs: seq<W.ChannelInfo>)
    ensures |W.ChannelsBytes(cs)| == ChannelsSize(cs) && ChannelsSize(cs) >= 12 * |cs|
  {
    if cs != [] {
      ChannelsSizeIs(cs[..|cs| - 1]);
    }
  }

  lemma ContainerOfThree(a: Entry, b: Entry, c: Entry)
    ensures |ContainerBytes([a, b, c])| == 24 + |a.value| + |b.value| + |c.value|
  {
    ContainerAppend([a, b], c);
    ContainerAppend([a], b);
    ContainerAppend([], a);
    assert [a, b] + [c] == [a, b, c] && [a] + [b] == [a, b] && [] + [a] == [a];
  }

  lemma AnnouncementSize(s: Sender, cs: seq<W.ChannelInfo>, ping: Option<int>)
    requires Sendable(s, cs, ping)
    ensures W.FrameInRange(Message(s, cs, ping))
    ensures |W.EncodeFrame(Message(s, cs, ping))| == Size(s, cs, ping.Some?)
  {
    SendableInRange(s, cs, ping);
    ChannelsSizeIs(cs);
    var a, b := Entry(W.KEY_SESS, s.session), Entry(W.KEY_PI, Str(s.peerName));
    var c := Entry(W.KEY_AUCA, U32(|cs|) + W.ChannelsBytes(cs));
    ContainerOfThree(a, b, c);
    if ping.Some? {
      ContainerAppend([a, b, c], Entry(W.KEY_HT, I64(ping.value)));
    } else {
      assert [a, b, c] + [] == [a, b, c];
    }
  }

  // ------------------------------------------------------------- one round

  /** How many leading channels one message takes, `k` already taken: one more as
      long as the message stays within the limit, and at least one. */
  function Taken(s: Sender, cs: seq<W.ChannelInfo>, ping: bool, k: nat): (r: nat)
    requires k <= |cs|
    ensures k <= r <= |cs|
    decreases |cs| - k
  {
    if k == |cs| then k
    else if Size(s, cs[..k + 1], ping) > LIMIT && k + 1 > 1 then k
    else Taken(s, cs, ping, k + 1)
  }

  /** The round's channel lists; only the first message carries the ping. */
  function Groups(s: Sender, cs: seq<W.ChannelInfo>, ping: bool): seq<seq<W.ChannelInfo>>
    decreases |cs|
  {
    var k := Taken(s, cs, ping, 0);
    if k == |cs| then [cs] else
    assert k >= 1 by { assert Taken(s, cs, ping, 0) == Taken(s, cs, ping, 1); }
    [cs[..k]] + Groups(s, cs[k..], false)
  }

  function Flat(gs: seq<seq<W.ChannelInfo>>): seq<W.ChannelInfo> {
    if gs == [] then [] else gs[0] + Flat(gs[1..])
  }

  /** A greedy take fits the limit and could not have taken one more. */
  lemma {:induction false} TakenFits(s: Sender, cs: seq<W.ChannelInfo>, ping: bool, k: nat)
    requires k <= |cs| && ShortNames(s, cs) && Size(s, cs[..k], ping) <= LIMIT
    ensures var r := Taken(s, cs, ping, k);
            Size(s, cs[..r], ping) <= LIMIT && (r < |cs| ==> Size(s, cs[..r + 1], ping) > LIMIT)
    decreases |cs| - k
  {
    if k < |cs| && !(Size(s, cs[..k + 1], ping) > LIMIT && k + 1 > 1) {
      if k == 0 {
        assert cs[..1] == [cs[0]];
        assert ChannelsSize([cs[0]]) <= 268 by { assert [cs[0]][..0] == []; }
      }
      TakenFits(s, cs, ping, k + 1);
    }
  }

  /** The first group of a round, its rest, and what that means. */
  lemma FirstGroup(s: Sender, cs: seq<W.ChannelInfo>, ping: bool)
    requires ShortNames(s, cs)
    ensures var k := Taken(s, cs, ping, 0);
            && Groups(s, cs, ping)[0] == cs[..k] && Size(s, cs[..k], ping) <= LIMIT
            && (cs != [] ==> k >= 1)
            && (k < |cs| ==> Groups(s, cs, ping)[1..] == Groups(s, cs[k..], false)
                             && Size(s, cs[..k + 1], ping) > LIMIT)
            && (k == |cs| ==> Groups(s, cs, ping) == [cs])
  {
    assert cs[..0] == [];
    TakenFits(s, cs, ping, 0);
    var k := Taken(s, cs, ping, 0);
    if cs != [] {
      assert k == Taken(s, cs, ping, 1);
    }
    if k == |cs| {
      assert cs[..k] == cs;
    }
  }

  /** A round announces every channel once, in order, in at least one message; each
      message is within the limit, and only a round without channels has an empty
      one. */
  lemma {:induction false} RoundCorrect(s: Sender, cs: seq<W.ChannelInfo>, ping: bool)
    requires ShortNames(s, cs)
    ensures var gs := Groups(s, cs, ping);
            && |gs| >= 1 && Flat(gs) == cs
            && (forall i :: 0 <= i < |gs| ==> Size(s, gs[i], ping && i == 0) <= LIMIT)
            && (cs != [] ==> forall i :: 0 <= i < |gs| ==> gs[i] != [])
    decreases |cs|
  {
    FirstGroup(s, cs, ping);
    var gs, k := Groups(s, cs, ping), Taken(s, cs, ping, 0);
    if k < |cs| {
      RoundCorrect(s, cs[k..], false);
      assert cs == cs[..k] + cs[k..];
      forall i | 0 <= i < |gs| ensures Size(s, gs[i], ping && i == 0) <= LIMIT && gs[i] != [] {
        if i > 0 {
          assert gs[i] == gs[1..][i - 1];
        }
      }
    } else {
      assert gs[1..] == [];
    }
  }

  /** The split is greedy: no message but the last could have taken the next
      channel. */
  lemma {:induction false} RoundGreedy(s: Sender, cs: seq<W.ChannelInfo>, ping: bool, i: nat)
    requires ShortNames(s, cs) && i + 1 < |Groups(s, cs, ping)|
    ensures var gs := Groups(s, cs, ping);
            gs[i + 1] != [] && Size(s, gs[i] + [gs[i + 1][0]], ping && i == 0) > LIMIT
    decreases |cs|
  {
    FirstGroup(s, cs, ping);
    var gs, k := Groups(s, cs, ping), Taken(s, cs, ping, 0);
    assert k < |cs|;
    if i == 0 {
      FirstGroup(s, cs[k..], false);
      assert cs[..k] + [gs[1][0]] == cs[..k + 1];
    } else {
      RoundGreedy(s, cs[k..], false, i - 1);
      assert gs[i] == gs[1..][i - 1] && gs[i + 1] == gs[1..][i];
    }
  }

  /** The ping goes with the first message only. */
  function PingOf(now: int, i: nat): Option<int> {
    if i == 0 then Some(now) else None
  }

  lemma GroupSendable(s: Sender, g: seq<W.ChannelInfo>, ping: Option<int>, extra: nat)
    requires ShortNames(s, g) && (ping.Some? ==> IsI64(ping.value))
    requires Size(s, g, ping.Some?) <= LIMIT + extra && extra <= 268
    ensures Sendable(s, g, ping) && W.FrameInRange(Message(s, g, ping))
    ensures |W.EncodeFrame(Message(s, g, ping))| == Size(s, g, ping.Some?)
  {
    ChannelsSizeIs(g);
    AnnouncementSize(s, g, ping);
  }

  /** Builds the messages of one round; each decodes to its share of the channels. */
  method BuildRound(s: Sender, cs: seq<W.ChannelInfo>, now: int) returns (round: seq<seq<byte>>)
    requires ShortNames(s, cs) && IsI64(now)
    ensures var gs := Groups(s, cs, true);
            |round| == |gs| >= 1
            && forall i :: 0 <= i < |round| ==>
                 |round[i]| <= LIMIT && W.DecodeFrame(round[i]) == Ok(Message(s, gs[i], PingOf(now, i)))
  {
    round := [];
    var remaining := cs;
    ghost var gs := Groups(s, cs, true);
    while true
      invariant ShortNames(s, remaining)
      invariant |round| < |gs| && gs[|round|..] == Groups(s, remaining, |round| == 0)
      invariant forall i :: 0 <= i < |round| ==>
                  |round[i]| <= LIMIT && W.DecodeFrame(round[i]) == Ok(Message(s, gs[i], PingOf(now, i)))
      decreases |remaining|
    {
      var ping := PingOf(now, |round|);
      FirstGroup(s, remaining, ping.Some?);
      ghost var whole := remaining;
      var taken: seq<W.ChannelInfo>;
      taken, remaining := TakeGroup(s, remaining, ping);
      assert gs[|round|] == taken;
      var bytes := EncodeGroup(s, taken, ping);
      round := round + [bytes];
      if remaining == [] {
        assert taken == whole;
        return;
      }
      assert gs[|round|..] == gs[|round| - 1..][1..];
    }
  }

  /** The encoded size of a trial message, which may be one channel too long. */
  method EncodedSize(s: Sender, g: seq<W.ChannelInfo>, ping: Option<int>) returns (n: nat)
    requires ShortNames(s, g) && (ping.Some? ==> IsI64(ping.value)) && Size(s, g, ping.Some?) <= LIMIT + 268
    ensures n == Size(s, g, ping.Some?)
  {
    GroupSendable(s, g, ping, 268);
    var bytes := W.Encode(Message(s, g, ping));
    n := |bytes|;
  }

  method EncodeGroup(s: Sender, g: seq<W.ChannelInfo>, ping: Option<int>) returns (bytes: seq<byte>)
    requires ShortNames(s, g) && (ping.Some? ==> IsI64(ping.value)) && Size(s, g, ping.Some?) <= LIMIT
    ensures |bytes| <= LIMIT && W.DecodeFrame(bytes) == Ok(Message(s, g, ping))
  {
    GroupSendable(s, g, ping, 0);
    bytes := W.Encode(Message(s, g, ping));
    W.FrameRoundTrip(Message(s, g, ping));
  }

  /** Move channels from the front of the list while the message stays within the
      limit; one that overflows it goes back, unless it is the only one. */
  method TakeGroup(s: Sender, cs: seq<W.ChannelInfo>, ping: Option<int>)
    returns (taken: seq<W.ChannelInfo>, remaining: seq<W.ChannelInfo>)
    requires ShortNames(s, cs) && (ping.Some? ==> IsI64(ping.value))
    ensures var k := Taken(s, cs, ping.Some?, 0);
            taken == cs[..k] && remaining == cs[k..]
  {
    taken, remaining := [], cs;
    ghost var k, n := Taken(s, cs, ping.Some?, 0), 0;
    assert cs[..0] == [];
    while remaining != []
      invariant n <= |cs| && taken == cs[..n] && remaining == cs[n..]
      invariant Taken(s, cs, ping.Some?, n) == k && Size(s, taken, ping.Some?) <= LIMIT
      decreases |remaining|
    {
      Moved(cs, n);
      OneMore(s, taken, remaining[0], ping.Some?);
      taken := taken + [remaining[0]];
      remaining := remaining[1..];
      var trial := EncodedSize(s, taken, ping);
      if trial > LIMIT && |taken| > 1 {
        remaining := [taken[|taken| - 1]] + remaining;
        taken := taken[..|taken| - 1];
        return;
      }
      n := n + 1;
    }
  }

  lemma Moved(cs: seq<W.ChannelInfo>, n: nat)
    requires n < |cs|
    ensures cs[..n] + [cs[n..][0]] == cs[..n + 1] && cs[n..][1..] == cs[n + 1..]
    ensures [cs[..n + 1][n]] + cs[n + 1..] == cs[n..] && cs[..n + 1][..n] == cs[..n]
  {
  }

  lemma OneMore(s: Sender, g: seq<W.ChannelInfo>, c: W.ChannelInfo, ping: bool)
    requires |s.peerName| <= W.MAX_NAME && |c.name| <= W.MAX_NAME
    ensures Size(s, g + [c], ping) <= Size(s, g, ping) + 268
    ensures g == [] ==> Size(s, g + [c], ping) <= LIMIT
  {
    assert (g + [c])[..|g|] == g;
  }

  // ------------------------------------------------------------------ byes

  const BYES_PER_MESSAGE := (W.MAX_PAYLOAD - 12) / 8

  function ByeGroups(ids: seq<Id>): seq<seq<Id>> {
    if |ids| <= BYES_PER_MESSAGE then (if ids == [] then [] else [ids])
    else [ids[..BYES_PER_MESSAGE]] + ByeGroups(ids[BYES_PER_MESSAGE..])
  }

  function FlatIds(gs: seq<seq<Id>>): seq<Id> {
    if gs == [] then [] else gs[0] + FlatIds(gs[1..])
  }

  /** Withdrawing any list of channels: every id once, in order, in messages of at
      least one and at most 145 ids; no message for no channels. */
  lemma {:induction false} ByesCorrect(ids: seq<Id>)
    ensures var gs := ByeGroups(ids);
            && FlatIds(gs) == ids && (gs == [] <==> ids == [])
            && forall i :: 0 <= i < |gs| ==> 0 < |gs[i]| <= BYES_PER_MESSAGE
  {
    if |ids| > BYES_PER_MESSAGE {
      var head, tail := ids[..BYES_PER_MESSAGE], ids[BYES_PER_MESSAGE..];
      ByesCorrect(tail);
      assert ids == head + tail && ByeGroups(ids)[1..] == ByeGroups(tail);
    } else if ids != [] {
      assert ByeGroups(ids)[1..] == [];
    }
  }

  /** Such a message is at most 1192 bytes and decodes to its ids. */
  lemma ByeMessageFits(node: Id, g: seq<Id>)
    requires 0 < |g| <= BYES_PER_MESSAGE
    ensures var f := W.NewFrame(node, W.ChannelByes(g));
            W.FrameInRange(f) && |W.EncodeFrame(f)| <= 1192 && W.DecodeFrame(W.EncodeFrame(f)) == Ok(f)
  {
    W.FrameRoundTrip(W.NewFrame(node, W.ChannelByes(g)));
    W.IdsSize(g);
    ContainerOfOne(Entry(W.KEY_AUCB, U32(|g|) + W.IdsBytes(g)));
  }

  lemma ContainerOfOne(e: Entry)
    ensures |ContainerBytes([e])| == 8 + |e.value|
  {
    ContainerAppend([], e);
    assert [] + [e] == [e];
  }
}
