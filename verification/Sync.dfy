/**
 Clock-measurement pings and pongs. A pong is the responder's own two entries and
 then the ping's payload, echoed verbatim.
 */
module Sync {
  import opened Types
  import opened Wrappers
  import opened Codec

  /** ASCII `_link_v`, then the version. */
  const MAGIC: seq<byte> := [0x5f, 0x6c, 0x69, 0x6e, 0x6b, 0x5f, 0x76, 0x01]
  const MAX_PING_PAYLOAD := 32
  const SAMPLES_REQUIRED := 100

  const KEY_HT := 0x5f5f6874
  const KEY_GT := 0x5f5f6774
  const KEY_PGT := 0x5f706774
  const KEY_SESS := 0x73657373

  datatype Message =
    | Ping(hostTime: Option<int>, prevGhostTime: Option<int>, payload: seq<byte>)
    | Pong(session: Id, ghostTime: int, echo: seq<byte>)

  // ------------------------------------------------------------- encoding

  function PingEntries(ht: int, pgt: Option<int>): seq<Entry>
    requires IsI64(ht) && (pgt.Some? ==> IsI64(pgt.value))
  {
    [Entry(KEY_HT, I64(ht))] + (if pgt.Some? then [Entry(KEY_PGT, I64(pgt.value))] else [])
  }

  function PingBytes(ht: int, pgt: Option<int>): seq<byte>
    requires IsI64(ht) && (pgt.Some? ==> IsI64(pgt.value))
  {
    MAGIC + U8(1) + ContainerBytes(PingEntries(ht, pgt))
  }

  function PongEntries(session: Id, ghostTime: int): seq<Entry>
    requires IsI64(ghostTime)
  {
    [Entry(KEY_SESS, session), Entry(KEY_GT, I64(ghostTime))]
  }

  function PongBytes(session: Id, ghostTime: int, echo: seq<byte>): seq<byte>
    requires IsI64(ghostTime)
  {
    MAGIC + U8(2) + ContainerBytes(PongEntries(session, ghostTime)) + echo
  }

  // ------------------------------------------------------------- decoding

  datatype Times = Times(ht: Option<int>, pgt: Option<int>)

  function ApplyTimes(t: Times, e: Entry): Result<Times> {
    if e.key == KEY_HT then
      var v :- Exactly(ReadI64(e.value));
      Ok(t.(ht := Some(v)))
    else if e.key == KEY_PGT then
      var v :- Exactly(ReadI64(e.value));
      Ok(t.(pgt := Some(v)))
    else Ok(t)
  }

  /** The host time and previous ghost time carried by a payload. */
  function ParsedEcho(echo: seq<byte>): Result<Times> {
    Scan(ApplyTimes, Times(None, None), echo)
  }

  datatype Own = Own(session: Option<Id>, ghostTime: Option<int>)

  /** The responder's own entries, in either order; anything else is an error. */
  function ApplyOwn(o: Own, e: Entry): Result<Own> {
    if e.key == KEY_SESS then
      var v :- Exactly(ReadId(e.value));
      Ok(o.(session := Some(v)))
    else if e.key == KEY_GT then
      var v :- Exactly(ReadI64(e.value));
      Ok(o.(ghostTime := Some(v)))
    else Err(Malformed)
  }

  /** Up to `n` leading entries, and the rest untouched. */
  function ReadOwn(o: Own, buf: seq<byte>, n: nat): Read<Own>
    decreases n
  {
    if n == 0 || buf == [] then Ok((o, buf)) else
    var (e, rest) :- NextEntry(buf);
    var o' :- ApplyOwn(o, e);
    ReadOwn(o', rest, n - 1)
  }

  function DecodePong(payload: seq<byte>): Result<Message> {
    var (o, echo) :- ReadOwn(Own(None, None), payload, 2);
    if o.session.Some? && o.ghostTime.Some? then Ok(Pong(o.session.value, o.ghostTime.value, echo))
    else Err(Malformed)
  }

  function DecodeMessage(d: seq<byte>): Result<Message> {
    if |d| < 9 then Err(Truncated)
    else if d[..8] != MAGIC then Err(BadMagic)
    else if FromBE(d[8..9]) == 1 then
      var t :- ParsedEcho(d[9..]);
      Ok(Ping(t.ht, t.pgt, d[9..]))
    else if FromBE(d[8..9]) == 2 then DecodePong(d[9..])
    else Err(UnknownMessageType(FromBE(d[8..9])))
  }

  // ----------------------------------------------------------- round trips

  lemma Prefix(t: nat, payload: seq<byte>)
    requires IsU8(t)
    ensures var d := MAGIC + U8(t) + payload;
            d[..8] == MAGIC && FromBE(d[8..9]) == t && d[9..] == payload
  {
    var d := MAGIC + U8(t) + payload;
    Pow256Values();
    FromBEOfBE(t, 1);
    assert d[8..9] == U8(t);
  }

  /** The payload of any ping gives back its times. */
  lemma EchoRecovers(ht: int, pgt: Option<int>)
    requires IsI64(ht) && (pgt.Some? ==> IsI64(pgt.value))
    ensures ParsedEcho(ContainerBytes(PingEntries(ht, pgt))) == Ok(Times(Some(ht), pgt))
  {
    var es, t0, t1 := PingEntries(ht, pgt), Times(None, None), Times(Some(ht), None);
    assert forall e :: e in es ==> ValidEntry(e);
    ScanContainer(ApplyTimes, t0, es);
    assert ApplyTimes(t0, es[0]) == Ok(t1) by { I64Value(ht); }
    RunStep(ApplyTimes, t0, es, t1);
    if pgt.Some? {
      assert es[1..] == [Entry(KEY_PGT, I64(pgt.value))];
      assert ApplyTimes(t1, Entry(KEY_PGT, I64(pgt.value))) == Ok(t1.(pgt := pgt)) by { I64Value(pgt.value); }
      RunOne(ApplyTimes, t1, Entry(KEY_PGT, I64(pgt.value)));
    } else {
      assert es[1..] == [];
    }
  }

  lemma PingRoundTrip(ht: int, pgt: Option<int>)
    requires IsI64(ht) && (pgt.Some? ==> IsI64(pgt.value))
    ensures DecodeMessage(PingBytes(ht, pgt)) == Ok(Ping(Some(ht), pgt, ContainerBytes(PingEntries(ht, pgt))))
  {
    Prefix(1, ContainerBytes(PingEntries(ht, pgt)));
    EchoRecovers(ht, pgt);
  }

  /** A ping is short enough for every responder to answer. */
  lemma PingAnswerable(ht: int, pgt: Option<int>)
    requires IsI64(ht) && (pgt.Some? ==> IsI64(pgt.value))
    ensures |ContainerBytes(PingEntries(ht, pgt))| == (if pgt.Some? then 32 else 16)
    ensures |ContainerBytes(PingEntries(ht, pgt))| <= MAX_PING_PAYLOAD
  {
    ContainerAppend([], Entry(KEY_HT, I64(ht)));
    assert [] + [Entry(KEY_HT, I64(ht))] == [Entry(KEY_HT, I64(ht))];
    if pgt.Some? {
      ContainerAppend([Entry(KEY_HT, I64(ht))], Entry(KEY_PGT, I64(pgt.value)));
    } else {
      assert [Entry(KEY_HT, I64(ht))] + [] == [Entry(KEY_HT, I64(ht))];
    }
  }

  lemma ReadOwnOf(session: Id, ghostTime: int, echo: seq<byte>)
    requires IsI64(ghostTime)
    ensures ReadOwn(Own(None, None), ContainerBytes(PongEntries(session, ghostTime)) + echo, 2)
         == Ok((Own(Some(session), Some(ghostTime)), echo))
  {
    var e1, e2 := Entry(KEY_SESS, session), Entry(KEY_GT, I64(ghostTime));
    var o1 := Own(Some(session), None);
    var o2 := Own(Some(session), Some(ghostTime));
    assert ContainerBytes(PongEntries(session, ghostTime)) + echo == EntryBytes(e1) + (EntryBytes(e2) + echo) by {
      ContainerAppend([e1], e2);
      ContainerAppend([], e1);
      assert [e1] + [e2] == [e1, e2] && [] + [e1] == [e1];
      Assoc(EntryBytes(e1), EntryBytes(e2), echo);
    }
    NextEntryOf(e1, EntryBytes(e2) + echo);
    NextEntryOf(e2, echo);
    assert ApplyOwn(Own(None, None), e1) == Ok(o1) by { IdValue(session); }
    assert ApplyOwn(o1, e2) == Ok(o2) by { I64Value(ghostTime); }
    ReadOwnStep(Own(None, None), EntryBytes(e1) + (EntryBytes(e2) + echo), 2, e1, EntryBytes(e2) + echo, o1);
    ReadOwnStep(o1, EntryBytes(e2) + echo, 1, e2, echo, o2);
  }

  lemma ReadOwnStep(o: Own, buf: seq<byte>, n: nat, e: Entry, rest: seq<byte>, o': Own)
    requires n > 0 && NextEntry(buf) == Ok((e, rest)) && ApplyOwn(o, e) == Ok(o')
    ensures ReadOwn(o, buf, n) == ReadOwn(o', rest, n - 1)
  {
    assert buf != [];
  }

  /** A pong returns the echo verbatim, for every byte string whatever - even one
      that looks like entries of its own. */
  lemma PongRoundTrip(session: Id, ghostTime: int, echo: seq<byte>)
    requires IsI64(ghostTime)
    ensures DecodeMessage(PongBytes(session, ghostTime, echo)) == Ok(Pong(session, ghostTime, echo))
  {
    var own := ContainerBytes(PongEntries(session, ghostTime));
    Assoc(MAGIC + U8(2), own, echo);
    Prefix(2, own + echo);
    ReadOwnOf(session, ghostTime, echo);
  }

  /** A whole exchange: the initiator gets back from the pong the host time and
      previous ghost time of its own ping. */
  lemma ExchangeRecovers(ht: int, pgt: Option<int>, session: Id, ghostTime: int)
    requires IsI64(ht) && (pgt.Some? ==> IsI64(pgt.value)) && IsI64(ghostTime)
    ensures DecodeMessage(PingBytes(ht, pgt)).Ok? && DecodeMessage(PingBytes(ht, pgt)).value.Ping?
    ensures var echo := DecodeMessage(PingBytes(ht, pgt)).value.payload;
            && |echo| <= MAX_PING_PAYLOAD
            && DecodeMessage(PongBytes(session, ghostTime, echo)) == Ok(Pong(session, ghostTime, echo))
            && ParsedEcho(echo) == Ok(Times(Some(ht), pgt))
  {
    PingRoundTrip(ht, pgt);
    PingAnswerable(ht, pgt);
    var echo := ContainerBytes(PingEntries(ht, pgt));
    PongRoundTrip(session, ghostTime, echo);
    EchoRecovers(ht, pgt);
  }

  // --------------------------------------------- step-by-step encode, decode

  method EncodePing(ht: int, pgt: Option<int>) returns (bytes: seq<byte>)
    requires IsI64(ht) && (pgt.Some? ==> IsI64(pgt.value))
    ensures bytes == PingBytes(ht, pgt)
  {
    var w := new Writer();
    w.PutBytes(MAGIC);
    w.PutUint(1, 1);
    ghost var start := w.buf;
    assert start == MAGIC + U8(1) && start == start + ContainerBytes([]);
    WriteI64Entry(w, KEY_HT, ht, start, []);
    assert [] + [Entry(KEY_HT, I64(ht))] == [Entry(KEY_HT, I64(ht))];
    if pgt.Some? {
      WriteI64Entry(w, KEY_PGT, pgt.value, start, [Entry(KEY_HT, I64(ht))]);
    } else {
      assert [Entry(KEY_HT, I64(ht))] + [] == [Entry(KEY_HT, I64(ht))];
    }
    bytes := w.buf;
  }

  method EncodePong(session: Id, ghostTime: int, echo: seq<byte>) returns (bytes: seq<byte>)
    requires IsI64(ghostTime)
    ensures bytes == PongBytes(session, ghostTime, echo)
  {
    var w := new Writer();
    w.PutBytes(MAGIC);
    w.PutUint(2, 1);
    ghost var start := w.buf;
    assert start == MAGIC + U8(2) && start == start + ContainerBytes([]);
    WriteBytesEntry(w, KEY_SESS, session, start, []);
    assert [] + [Entry(KEY_SESS, session)] == [Entry(KEY_SESS, session)];
    WriteI64Entry(w, KEY_GT, ghostTime, start, [Entry(KEY_SESS, session)]);
    assert [Entry(KEY_SESS, session)] + [Entry(KEY_GT, I64(ghostTime))] == PongEntries(session, ghostTime);
    w.PutBytes(echo);
    bytes := w.buf;
  }

  method ParseEcho(echo: seq<byte>) returns (r: Result<Times>)
    ensures r == ParsedEcho(echo)
  {
    var ht: Option<int>, pgt: Option<int> := None, None;
    var it := new Entries(echo);
    while true
      invariant fresh(it) && fresh(it.r)
      invariant Scan(ApplyTimes, Times(ht, pgt), it.r.buf) == ParsedEcho(echo)
      decreases |it.r.buf|
    {
      var next := it.Next();
      if next.None? {
        break;
      }
      var e :- next.value;
      if e.key == KEY_HT {
        var v :- ParseI64(e.value);
        ht := Some(v);
      } else if e.key == KEY_PGT {
        var v :- ParseI64(e.value);
        pgt := Some(v);
      }
    }
    return Ok(Times(ht, pgt));
  }

  /** The leading pair in either order; everything after it is the echo. */
  method ParsePong(payload: seq<byte>) returns (r: Result<Message>)
    ensures r == DecodePong(payload)
  {
    var session: Option<Id>, ghostTime: Option<int> := None, None;
    var it := new Entries(payload);
    var i := 0;
    while i < 2
      invariant 0 <= i <= 2 && fresh(it) && fresh(it.r)
      invariant ReadOwn(Own(session, ghostTime), it.r.buf, 2 - i) == ReadOwn(Own(None, None), payload, 2)
    {
      var next := it.Next();
      if next.None? {
        break;
      }
      var e :- next.value;
      if e.key == KEY_SESS {
        var v :- ParseId(e.value);
        session := Some(v);
      } else if e.key == KEY_GT {
        var v :- ParseI64(e.value);
        ghostTime := Some(v);
      } else {
        return Err(Malformed);
      }
      i := i + 1;
    }
    if session.None? || ghostTime.None? {
      return Err(Malformed);
    }
    return Ok(Pong(session.value, ghostTime.value, it.r.buf));
  }

  method Decode(datagram: seq<byte>) returns (r: Result<Message>)
    ensures r == DecodeMessage(datagram)
  {
    var rd := new Reader(datagram);
    if |rd.buf| < 9 {
      return Err(Truncated);
    }
    var magic := rd.GetBytes(8);
    if magic.value != MAGIC {
      return Err(BadMagic);
    }
    assert rd.buf == datagram[8..];
    var t := rd.GetUint(1);
    assert rd.buf == datagram[9..] && datagram[8..][..1] == datagram[8..9];
    if t.value == 1 {
      var times :- ParseEcho(rd.buf);
      return Ok(Ping(times.ht, times.pgt, rd.buf));
    } else if t.value == 2 {
      r := ParsePong(rd.buf);
    } else {
      return Err(UnknownMessageType(t.value));
    }
  }
}
