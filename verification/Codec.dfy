/**
 Common serialization rules: big-endian primitives written back to back,
 length-prefixed strings, and the tagged key-value payload container.

 The functions say what is read and written as values; the classes `Writer`,
 `Reader` and `Entries` do it by updating a buffer.
 */
module Codec {
  import opened Types
  import opened Wrappers

  // -------------------------------------------------------- concatenation

  lemma Assoc(a: seq<byte>, b: seq<byte>, c: seq<byte>)
    ensures a + b + c == a + (b + c)
  {
  }

  lemma Assoc4(a: seq<byte>, b: seq<byte>, c: seq<byte>, d: seq<byte>, t: seq<byte>)
    ensures a + (b + (c + d)) + t == a + (b + (c + (d + t)))
  {
    Assoc(a, b + (c + d), t);
    Assoc(b, c + d, t);
    Assoc(c, d, t);
  }

  lemma Appended(start: seq<byte>, c: seq<byte>, a: seq<byte>, b: seq<byte>)
    ensures start + c + a + b == start + (c + (a + b))
  {
    Assoc(start + c, a, b);
    Assoc(start, c, a + b);
  }

  lemma AppendedThree(start: seq<byte>, a: seq<byte>, b: seq<byte>, c: seq<byte>)
    ensures start + a + b + c == start + (a + (b + c))
  {
    Assoc(start + a, b, c);
    Assoc(start, a, b + c);
  }

  lemma AppendedFour(start: seq<byte>, a: seq<byte>, b: seq<byte>, c: seq<byte>, d: seq<byte>)
    ensures start + a + b + c + d == start + (a + (b + (c + d)))
  {
    Assoc(start + a + b, c, d);
    Appended(start, a, b, c + d);
  }

  lemma AppendedFive(start: seq<byte>, a: seq<byte>, b: seq<byte>, c: seq<byte>, d: seq<byte>, e: seq<byte>)
    ensures start + a + b + c + d + e == start + (a + (b + (c + (d + e))))
  {
    Assoc(start + a + b + c, d, e);
    AppendedFour(start, a, b, c, d + e);
  }

  // ----------------------------------------------------------- primitives

  function Pow256(n: nat): (p: nat)
    ensures p > 0
  {
    if n == 0 then 1 else 256 * Pow256(n - 1)
  }

  /** The low `n` bytes of `v`, most significant first. */
  function BE(v: nat, n: nat): (s: seq<byte>)
    ensures |s| == n
  {
    if n == 0 then [] else BE(v / 256, n - 1) + [v % 256]
  }

  function FromBE(s: seq<byte>): (v: nat)
    ensures v < Pow256(|s|)
  {
    if s == [] then 0 else FromBE(s[..|s| - 1]) * 256 + s[|s| - 1]
  }

  lemma {:induction false} FromBEOfBE(v: nat, n: nat)
    requires v < Pow256(n)
    ensures FromBE(BE(v, n)) == v
  {
    if n > 0 {
      FromBEOfBE(v / 256, n - 1);
      assert BE(v, n)[..n - 1] == BE(v / 256, n - 1);
    }
  }

  lemma {:induction false} BEOfFromBE(s: seq<byte>)
    ensures BE(FromBE(s), |s|) == s
  {
    if s != [] {
      BEOfFromBE(s[..|s| - 1]);
      assert s == s[..|s| - 1] + [s[|s| - 1]];
    }
  }

  lemma Pow256Values()
    ensures Pow256(1) == 0x100 && Pow256(2) == 0x1_0000
    ensures Pow256(4) == 0x1_0000_0000 && Pow256(8) == 0x1_0000_0000_0000_0000
  {
    assert Pow256(1) == 256 * Pow256(0);
    assert Pow256(2) == 256 * Pow256(1);
    assert Pow256(3) == 256 * Pow256(2);
    assert Pow256(4) == 256 * Pow256(3);
    assert Pow256(5) == 256 * Pow256(4);
    assert Pow256(6) == 256 * Pow256(5);
    assert Pow256(7) == 256 * Pow256(6);
    assert Pow256(8) == 256 * Pow256(7);
  }

  /** Two's complement. */
  function ToU64(v: int): nat
    requires IsI64(v)
  {
    if v < 0 then v + 0x1_0000_0000_0000_0000 else v
  }

  function FromU64(u: nat): int {
    if u >= 0x8000_0000_0000_0000 then u - 0x1_0000_0000_0000_0000 else u
  }

  function U8(v: nat): seq<byte> { BE(v, 1) }
  function U16(v: nat): seq<byte> { BE(v, 2) }
  function U32(v: nat): seq<byte> { BE(v, 4) }
  function U64(v: nat): seq<byte> { BE(v, 8) }
  function I64(v: int): seq<byte> requires IsI64(v) { U64(ToU64(v)) }
  function Bool(v: bool): seq<byte> { U8(if v then 1 else 0) }

  /** A string: its length truncated to 32 bits, then its bytes. */
  function Str(s: seq<byte>): seq<byte> {
    U32(|s|) + s
  }

  // -------------------------------------------------------------- reading

  /** A read returns the value and the unread rest. */
  type Read<T> = Result<(T, seq<byte>)>

  function Take(buf: seq<byte>, n: nat): (r: Read<seq<byte>>)
    ensures r.Ok? ==> |r.value.0| == n
  {
    if n > |buf| then Err(Truncated) else Ok((buf[..n], buf[n..]))
  }

  function ReadUint(buf: seq<byte>, n: nat): Read<nat> {
    var (h, t) :- Take(buf, n);
    Ok((FromBE(h), t))
  }

  function ReadI64(buf: seq<byte>): Read<int> {
    var (u, t) :- ReadUint(buf, 8);
    Ok((FromU64(u), t))
  }

  function ReadBool(buf: seq<byte>): Read<bool> {
    var (u, t) :- ReadUint(buf, 1);
    Ok((u != 0, t))
  }

  function ReadId(buf: seq<byte>): Read<Id> {
    var (h, t) :- Take(buf, 8);
    Ok((h, t))
  }

  function ReadStr(buf: seq<byte>): Read<seq<byte>> {
    var (n, t) :- ReadUint(buf, 4);
    Take(t, n)
  }

  lemma TakeOf(h: seq<byte>, t: seq<byte>)
    ensures Take(h + t, |h|) == Ok((h, t))
  {
    assert (h + t)[..|h|] == h && (h + t)[|h|..] == t;
  }

  lemma ReadUintOf(v: nat, n: nat, t: seq<byte>)
    requires v < Pow256(n)
    ensures ReadUint(BE(v, n) + t, n) == Ok((v, t))
  {
    TakeOf(BE(v, n), t);
    FromBEOfBE(v, n);
  }

  lemma ReadU8Of(v: nat, t: seq<byte>)
    requires IsU8(v)
    ensures ReadUint(U8(v) + t, 1) == Ok((v, t))
  {
    Pow256Values();
    ReadUintOf(v, 1, t);
  }

  lemma ReadU16Of(v: nat, t: seq<byte>)
    requires IsU16(v)
    ensures ReadUint(U16(v) + t, 2) == Ok((v, t))
  {
    Pow256Values();
    ReadUintOf(v, 2, t);
  }

  lemma ReadU32Of(v: nat, t: seq<byte>)
    requires IsU32(v)
    ensures ReadUint(U32(v) + t, 4) == Ok((v, t))
  {
    Pow256Values();
    ReadUintOf(v, 4, t);
  }

  lemma ReadU64Of(v: nat, t: seq<byte>)
    requires IsU64(v)
    ensures ReadUint(U64(v) + t, 8) == Ok((v, t))
  {
    Pow256Values();
    ReadUintOf(v, 8, t);
  }

  lemma ReadI64Of(v: int, t: seq<byte>)
    requires IsI64(v)
    ensures ReadI64(I64(v) + t) == Ok((v, t))
  {
    ReadU64Of(ToU64(v), t);
  }

  lemma ReadStrOf(s: seq<byte>, t: seq<byte>)
    requires IsU32(|s|)
    ensures ReadStr(Str(s) + t) == Ok((s, t))
  {
    assert Str(s) + t == U32(|s|) + (s + t);
    ReadU32Of(|s|, s + t);
    TakeOf(s, t);
  }

  /** Whatever is read is what writing the value would have produced. */
  lemma ReadUintInverse(buf: seq<byte>, n: nat)
    ensures ReadUint(buf, n).Ok? ==>
              var (v, t) := ReadUint(buf, n).value;
              v < Pow256(n) && buf == BE(v, n) + t
  {
    if n <= |buf| {
      BEOfFromBE(buf[..n]);
      assert buf == buf[..n] + buf[n..];
    }
  }

  lemma ReadI64Inverse(buf: seq<byte>)
    ensures ReadI64(buf).Ok? ==>
              var (v, t) := ReadI64(buf).value;
              IsI64(v) && buf == I64(v) + t
  {
    Pow256Values();
    ReadUintInverse(buf, 8);
  }

  // ------------------------------------------------------------ container

  datatype Entry = Entry(key: nat, value: seq<byte>)

  /** Keys and sizes are 32-bit on the wire. */
  predicate ValidEntry(e: Entry) {
    IsU32(e.key) && IsU32(|e.value|)
  }

  function EntryBytes(e: Entry): seq<byte> {
    U32(e.key) + (U32(|e.value|) + e.value)
  }

  function ContainerBytes(es: seq<Entry>): seq<byte> {
    if es == [] then [] else EntryBytes(es[0]) + ContainerBytes(es[1..])
  }

  function NextEntry(buf: seq<byte>): (r: Read<Entry>)
    ensures r.Ok? ==> |r.value.1| < |buf|
  {
    var (key, b1) :- ReadUint(buf, 4);
    var (size, b2) :- ReadUint(b1, 4);
    var (value, b3) :- Take(b2, size);
    Ok((Entry(key, value), b3))
  }

  lemma NextEntryOf(e: Entry, t: seq<byte>)
    requires ValidEntry(e)
    ensures NextEntry(EntryBytes(e) + t) == Ok((e, t))
  {
    Assoc(U32(e.key), U32(|e.value|) + e.value, t);
    Assoc(U32(|e.value|), e.value, t);
    ReadU32Of(e.key, U32(|e.value|) + (e.value + t));
    ReadU32Of(|e.value|, e.value + t);
    TakeOf(e.value, t);
    NextEntryStep(EntryBytes(e) + t, e, U32(|e.value|) + (e.value + t), e.value + t, t);
  }

  lemma NextEntryStep(buf: seq<byte>, e: Entry, b1: seq<byte>, b2: seq<byte>, b3: seq<byte>)
    requires ReadUint(buf, 4) == Ok((e.key, b1)) && ReadUint(b1, 4) == Ok((|e.value|, b2))
    requires Take(b2, |e.value|) == Ok((e.value, b3))
    ensures NextEntry(buf) == Ok((e, b3))
  {
  }

  lemma NextEntryInverse(buf: seq<byte>)
    ensures NextEntry(buf).Ok? ==>
              var (e, t) := NextEntry(buf).value;
              ValidEntry(e) && buf == EntryBytes(e) + t
  {
    if NextEntry(buf).Ok? {
      Pow256Values();
      ReadUintInverse(buf, 4);
      var (key, b1) := ReadUint(buf, 4).value;
      ReadUintInverse(b1, 4);
      var (size, b2) := ReadUint(b1, 4).value;
      var (value, b3) := Take(b2, size).value;
      assert b2 == value + b3;
      Assoc(U32(key), U32(size) + value, b3);
      Assoc(U32(size), value, b3);
    }
  }

  lemma {:induction false} ContainerAppend(es: seq<Entry>, e: Entry)
    ensures ContainerBytes(es + [e]) == ContainerBytes(es) + EntryBytes(e)
  {
    if es == [] {
      var one := [e];
      assert es + [e] == one && one[1..] == [];
      assert EntryBytes(e) + [] == EntryBytes(e);
    } else {
      assert (es + [e])[0] == es[0] && (es + [e])[1..] == es[1..] + [e];
      ContainerAppend(es[1..], e);
      assert EntryBytes(es[0]) + (ContainerBytes(es[1..]) + EntryBytes(e))
          == EntryBytes(es[0]) + ContainerBytes(es[1..]) + EntryBytes(e);
    }
  }

  /** Read a value that must be consumed exactly. */
  function Exactly<T>(r: Read<T>): Result<T> {
    var (v, t) :- r;
    if t != [] then Err(Malformed) else Ok(v)
  }

  /** A container reader: fold `apply` over the entries as they are parsed; the
      first failure, of the parse or of `apply`, discards the payload. */
  function Scan<S>(apply: (S, Entry) -> Result<S>, s: S, buf: seq<byte>): Result<S>
    decreases |buf|
  {
    if buf == [] then Ok(s) else
    var (e, t) :- NextEntry(buf);
    var s' :- apply(s, e);
    Scan(apply, s', t)
  }

  /** The same fold over a list of entries. */
  function Run<S>(apply: (S, Entry) -> Result<S>, s: S, es: seq<Entry>): Result<S> {
    if es == [] then Ok(s) else
    var s' :- apply(s, es[0]);
    Run(apply, s', es[1..])
  }

  lemma {:induction false} ScanContainer<S>(apply: (S, Entry) -> Result<S>, s: S, es: seq<Entry>)
    requires forall e :: e in es ==> ValidEntry(e)
    ensures Scan(apply, s, ContainerBytes(es)) == Run(apply, s, es)
  {
    if es != [] {
      NextEntryOf(es[0], ContainerBytes(es[1..]));
      if apply(s, es[0]).Ok? {
        ScanContainer(apply, apply(s, es[0]).value, es[1..]);
      }
    }
  }

  /** Every payload that scans is the encoding of a list of entries. */
  lemma {:induction false} ScannedIsContainer<S>(apply: (S, Entry) -> Result<S>, s: S, buf: seq<byte>)
    returns (es: seq<Entry>)
    requires Scan(apply, s, buf).Ok?
    ensures forall e :: e in es ==> ValidEntry(e)
    ensures buf == ContainerBytes(es)
    decreases |buf|
  {
    if buf == [] {
      es := [];
    } else {
      NextEntryInverse(buf);
      var (e, t) := NextEntry(buf).value;
      var rest := ScannedIsContainer(apply, apply(s, e).value, t);
      es := [e] + rest;
      assert es[1..] == rest;
    }
  }

  lemma RunOne<S>(apply: (S, Entry) -> Result<S>, s: S, e: Entry)
    ensures Run(apply, s, [e]) == apply(s, e)
  {
    var one := [e];
    assert one[1..] == [];
    if apply(s, e).Ok? {
      assert Run(apply, apply(s, e).value, []) == Ok(apply(s, e).value);
    }
  }

  lemma ScanOne<S>(apply: (S, Entry) -> Result<S>, s: S, e: Entry)
    requires ValidEntry(e)
    ensures Scan(apply, s, ContainerBytes([e])) == apply(s, e)
  {
    ScanContainer(apply, s, [e]);
    RunOne(apply, s, e);
  }

  lemma I64Value(v: int)
    requires IsI64(v)
    ensures Exactly(ReadI64(I64(v))) == Ok(v)
  {
    ReadI64Of(v, []);
    assert I64(v) + [] == I64(v);
  }

  lemma IdValue(id: Id)
    ensures Exactly(ReadId(id)) == Ok(id)
  {
    TakeOf(id, []);
    assert id + [] == id;
  }

  lemma StrValue(s: seq<byte>)
    requires IsU32(|s|)
    ensures Exactly(ReadStr(Str(s))) == Ok(s)
  {
    ReadStrOf(s, []);
    assert Str(s) + [] == Str(s);
  }

  lemma RunStep<S>(apply: (S, Entry) -> Result<S>, s: S, es: seq<Entry>, s': S)
    requires es != [] && apply(s, es[0]) == Ok(s')
    ensures Run(apply, s, es) == Run(apply, s', es[1..])
  {
  }

  // ---------------------------------------------------- order independence

  /** What the fold must satisfy: unknown keys are skipped, whether an entry
      decodes does not depend on what came before, and entries of different
      fields commute. */
  ghost predicate FieldWise<S(!new)>(apply: (S, Entry) -> Result<S>, field: Entry -> Option<nat>) {
    && (forall s, e :: field(e).None? ==> apply(s, e) == Ok(s))
    && (forall s, s', e :: apply(s, e).Ok? ==> apply(s', e).Ok?)
    && (forall s, a, b :: field(a) != field(b) && apply(s, a).Ok? && apply(s, b).Ok? ==>
                            apply(apply(s, a).value, b) == apply(apply(s, b).value, a))
  }

  /** The entries of one field, in order. */
  function Project(es: seq<Entry>, field: Entry -> Option<nat>, f: nat): seq<Entry> {
    if es == [] then []
    else (if field(es[0]) == Some(f) then [es[0]] else []) + Project(es[1..], field, f)
  }

  /** Both succeed with the same value, or both are discarded. */
  predicate SameOutcome<S(==)>(a: Result<S>, b: Result<S>) {
    (a.Err? && b.Err?) || a == b
  }

  lemma {:induction false} RunAppend<S>(apply: (S, Entry) -> Result<S>, s: S, a: seq<Entry>, b: seq<Entry>)
    ensures Run(apply, s, a + b) == (match Run(apply, s, a) case Err(e) => Err(e) case Ok(t) => Run(apply, t, b))
  {
    if a == [] {
      assert a + b == b;
    } else {
      assert (a + b)[1..] == a[1..] + b;
      if apply(s, a[0]).Ok? {
        RunAppend(apply, apply(s, a[0]).value, a[1..], b);
      }
    }
  }

  lemma {:induction false} ProjectAppend(a: seq<Entry>, b: seq<Entry>, field: Entry -> Option<nat>, f: nat)
    ensures Project(a + b, field, f) == Project(a, field, f) + Project(b, field, f)
  {
    if a == [] {
      assert a + b == b;
    } else {
      assert (a + b)[0] == a[0] && (a + b)[1..] == a[1..] + b;
      ProjectAppend(a[1..], b, field, f);
      var own := if field(a[0]) == Some(f) then [a[0]] else [];
      assert own + (Project(a[1..], field, f) + Project(b, field, f))
             == own + Project(a[1..], field, f) + Project(b, field, f);
    }
  }

  /** An entry moves left past entries of other fields. */
  lemma {:induction false} Bubble<S(!new)>(apply: (S, Entry) -> Result<S>, field: Entry -> Option<nat>,
                                           s: S, pre: seq<Entry>, e: Entry)
    requires FieldWise(apply, field)
    requires forall a :: a in pre ==> field(a) != field(e)
    ensures SameOutcome(Run(apply, s, pre + [e]), Run(apply, s, [e] + pre))
  {
    if pre == [] {
      assert pre + [e] == [e] + pre;
    } else {
      var a := pre[0];
      assert (pre + [e])[0] == a && (pre + [e])[1..] == pre[1..] + [e];
      assert ([e] + pre)[1..] == pre && ([e] + pre[1..])[1..] == pre[1..];
      if apply(s, a).Ok? {
        Bubble(apply, field, apply(s, a).value, pre[1..], e);
        assert apply(s, e).Ok? <==> apply(apply(s, a).value, e).Ok?;
      } else if apply(s, e).Ok? {
        assert apply(apply(s, e).value, a).Err?;
      }
    }
  }

  lemma {:induction false} FirstOfField(es: seq<Entry>, field: Entry -> Option<nat>, f: nat)
    returns (pre: seq<Entry>, post: seq<Entry>)
    requires Project(es, field, f) != []
    ensures es == pre + [Project(es, field, f)[0]] + post
    ensures forall a :: a in pre ==> field(a) != Some(f)
    ensures field(Project(es, field, f)[0]) == Some(f)
  {
    if field(es[0]) == Some(f) {
      pre, post := [], es[1..];
    } else {
      pre, post := FirstOfField(es[1..], field, f);
      pre := [es[0]] + pre;
      assert es == [es[0]] + es[1..];
    }
  }

  lemma {:induction false} NoneOfField(es: seq<Entry>, field: Entry -> Option<nat>, f: nat)
    requires forall a :: a in es ==> field(a) != Some(f)
    ensures Project(es, field, f) == []
  {
    if es != [] {
      NoneOfField(es[1..], field, f);
    }
  }

  /** Reading a container depends only on the sequence of entries of each field:
      entries of different fields may be permuted, and unknown entries inserted
      anywhere. */
  lemma {:induction false} OrderIndependent<S(!new)>(apply: (S, Entry) -> Result<S>, field: Entry -> Option<nat>,
                                                     s: S, es1: seq<Entry>, es2: seq<Entry>)
    requires FieldWise(apply, field)
    requires forall f :: Project(es1, field, f) == Project(es2, field, f)
    ensures SameOutcome(Run(apply, s, es1), Run(apply, s, es2))
    decreases |es1| + |es2|
  {
    if es1 == [] && es2 == [] {
    } else if es1 == [] {
      if field(es2[0]).Some? {
        assert Project(es1, field, field(es2[0]).value) == [];
        assert false;
      }
      forall f ensures Project(es1, field, f) == Project(es2[1..], field, f) {
        assert Project(es1, field, f) == Project(es2, field, f);
      }
      OrderIndependent(apply, field, s, es1, es2[1..]);
    } else if field(es1[0]).None? {
      forall f ensures Project(es1[1..], field, f) == Project(es2, field, f) {
        assert Project(es1, field, f) == Project(es2, field, f);
      }
      OrderIndependent(apply, field, s, es1[1..], es2);
    } else {
      MatchFirst(apply, field, s, es1, es2);
    }
  }

  /** Removing the matched entry from both lists keeps their projections equal. */
  lemma ProjectRemoved(es: seq<Entry>, pre: seq<Entry>, post: seq<Entry>, field: Entry -> Option<nat>, f: nat)
    requires es != [] && field(es[0]).Some?
    requires forall a :: a in pre ==> field(a) != field(es[0])
    requires Project(es, field, f) == Project(pre + [es[0]] + post, field, f)
    ensures Project(es[1..], field, f) == Project(pre + post, field, f)
  {
    var e := es[0];
    ProjectAppend(pre + [e], post, field, f);
    ProjectAppend(pre, [e], field, f);
    ProjectAppend(pre, post, field, f);
    var one := [e];
    assert one[1..] == [];
    if field(e) == Some(f) {
      NoneOfField(pre, field, f);
      assert Project(es, field, f) == [e] + Project(es[1..], field, f);
      assert Project(pre + [e] + post, field, f) == [e] + Project(post, field, f);
      assert Project(es[1..], field, f) == Project(es, field, f)[1..];
    } else {
      assert Project(es, field, f) == Project(es[1..], field, f);
    }
  }

  /** The step for a recognised first entry: find it in the other list, move it
      to the front, and continue with both tails. */
  lemma {:induction false} MatchFirst<S(!new)>(apply: (S, Entry) -> Result<S>, field: Entry -> Option<nat>,
                                               s: S, es1: seq<Entry>, es2: seq<Entry>)
    requires FieldWise(apply, field)
    requires forall f :: Project(es1, field, f) == Project(es2, field, f)
    requires es1 != [] && field(es1[0]).Some?
    ensures SameOutcome(Run(apply, s, es1), Run(apply, s, es2))
    decreases |es1| + |es2|, 0
  {
    var e, g := es1[0], field(es1[0]).value;
    assert Project(es1, field, g)[0] == e && Project(es1, field, g) == Project(es2, field, g);
    var pre, post := FirstOfField(es2, field, g);
    Bubble(apply, field, s, pre, e);
    RunAppend(apply, s, pre + [e], post);
    RunAppend(apply, s, [e] + pre, post);
    assert ([e] + pre + post)[1..] == pre + post;
    forall f ensures Project(es1[1..], field, f) == Project(pre + post, field, f) {
      assert Project(es1, field, f) == Project(es2, field, f);
      ProjectRemoved(es1, pre, post, field, f);
    }
    if apply(s, e).Ok? {
      OrderIndependent(apply, field, apply(s, e).value, es1[1..], pre + post);
    }
  }

  // -------------------------------------------------- the stateful classes

  /** `rest` and `r` are what the read `spec` returns. */
  ghost predicate Reads<T(!new)>(spec: Read<T>, r: Result<T>, rest: seq<byte>) {
    match spec
    case Ok((v, t)) => r == Ok(v) && rest == t
    case Err(e) => r == Err(e)
  }

  class Reader {
    var buf: seq<byte>

    constructor (b: seq<byte>)
      ensures buf == b
    {
      buf := b;
    }

    method GetBytes(n: nat) returns (r: Result<seq<byte>>)
      modifies this
      ensures Reads(Take(old(buf), n), r, buf)
      ensures r.Err? ==> buf == old(buf)
    {
      if n > |buf| {
        return Err(Truncated);
      }
      r, buf := Ok(buf[..n]), buf[n..];
    }

    method GetUint(n: nat) returns (r: Result<nat>)
      modifies this
      ensures Reads(ReadUint(old(buf), n), r, buf)
      ensures r.Err? ==> buf == old(buf)
    {
      var h :- GetBytes(n);
      return Ok(FromBE(h));
    }

    method GetI64() returns (r: Result<int>)
      modifies this
      ensures Reads(ReadI64(old(buf)), r, buf)
      ensures r.Err? ==> buf == old(buf)
    {
      var u :- GetUint(8);
      return Ok(FromU64(u));
    }

    method GetId() returns (r: Result<Id>)
      modifies this
      ensures Reads(ReadId(old(buf)), r, buf)
      ensures r.Err? ==> buf == old(buf)
    {
      var h :- GetBytes(8);
      return Ok(h);
    }

    /** A declared length beyond the remaining bytes is an error. */
    method GetStr() returns (r: Result<seq<byte>>)
      modifies this
      ensures Reads(ReadStr(old(buf)), r, buf)
    {
      var n :- GetUint(4);
      r := GetBytes(n);
    }
  }

  class Writer {
    var buf: seq<byte>

    constructor ()
      ensures buf == []
    {
      buf := [];
    }

    method PutBytes(b: seq<byte>)
      modifies this
      ensures buf == old(buf) + b
    {
      buf := buf + b;
    }

    /** The big-endian unsigned writes of one, two, four and eight bytes; a wider
        value is truncated, as by a cast. */
    method PutUint(v: nat, n: nat)
      modifies this
      ensures buf == old(buf) + BE(v, n)
      ensures v < Pow256(n) ==> FromBE(buf[|old(buf)|..]) == v
    {
      PutBytes(BE(v, n));
      assert buf[|old(buf)|..] == BE(v, n);
      if v < Pow256(n) {
        FromBEOfBE(v, n);
      }
    }

    method PutI64(v: int)
      requires IsI64(v)
      modifies this
      ensures buf == old(buf) + I64(v)
    {
      Pow256Values();
      PutUint(ToU64(v), 8);
    }

    method PutStr(s: seq<byte>)
      modifies this
      ensures buf == old(buf) + Str(s)
    {
      Pow256Values();
      PutUint(|s|, 4);
      PutBytes(s);
    }

    /** Start an entry: the key and a size still to be filled in. */
    method OpenEntry(key: nat) returns (sizeAt: nat)
      requires IsU32(key)
      modifies this
      ensures buf == old(buf) + U32(key) + U32(0)
      ensures sizeAt == |old(buf)| + 4
    {
      Pow256Values();
      PutUint(key, 4);
      sizeAt := |buf|;
      PutUint(0, 4);
    }

    /** Finish the entry whose value is everything written since: patch its size
        in place. */
    method CloseEntry(sizeAt: nat)
      requires sizeAt + 4 <= |buf|
      modifies this
      ensures buf == old(buf)[..sizeAt] + U32(|old(buf)| - sizeAt - 4) + old(buf)[sizeAt + 4..]
    {
      var size := |buf| - sizeAt - 4;
      buf := buf[..sizeAt] + U32(size) + buf[sizeAt + 4..];
    }
  }

  /** Back-patching yields exactly the entry, and leaves what precedes it alone. */
  lemma BackPatched(pre: seq<byte>, key: nat, value: seq<byte>, begun: seq<byte>, at: nat)
    requires at == |pre| + 4 && begun == pre + U32(key) + U32(0) + value
    ensures begun[..at] + U32(|begun| - at - 4) + begun[at + 4..]
         == pre + EntryBytes(Entry(key, value))
  {
    assert begun[..at] == pre + U32(key);
    assert begun[at + 4..] == value;
    Appended(pre, U32(key), U32(|value|), value);
  }

  /** After back-patching, one more entry follows the ones already written. */
  lemma EntryWritten(start: seq<byte>, es: seq<Entry>, key: nat, value: seq<byte>, at: nat, begun: seq<byte>)
    requires at == |start + ContainerBytes(es)| + 4
    requires begun == start + ContainerBytes(es) + U32(key) + U32(0) + value
    ensures begun[..at] + U32(|begun| - at - 4) + begun[at + 4..]
         == start + ContainerBytes(es + [Entry(key, value)])
  {
    BackPatched(start + ContainerBytes(es), key, value, begun, at);
    ContainerAppend(es, Entry(key, value));
    Assoc(start, ContainerBytes(es), EntryBytes(Entry(key, value)));
  }

  /** The iterator over the entries of a payload. */
  class Entries {
    var r: Reader
    ghost const payload: seq<byte>

    constructor (p: seq<byte>)
      ensures fresh(r) && r.buf == p && payload == p
    {
      r := new Reader(p);
      payload := p;
    }

    method Next() returns (e: Option<Result<Entry>>)
      modifies r
      ensures e.None? <==> old(r.buf) == []
      ensures e.Some? ==> Reads(NextEntry(old(r.buf)), e.value, r.buf)
      ensures e.None? ==> r.buf == old(r.buf)
    {
      if r.buf == [] {
        return None;
      }
      var x := Parse();
      return Some(x);
    }

    method Parse() returns (e: Result<Entry>)
      modifies r
      ensures Reads(NextEntry(old(r.buf)), e, r.buf)
    {
      var key :- r.GetUint(4);
      var size :- r.GetUint(4);
      var value :- r.GetBytes(size);
      return Ok(Entry(key, value));
    }
  }

  // ---------------------------------------------- entries of common values

  method WriteBytesEntry(w: Writer, key: nat, value: seq<byte>, ghost start: seq<byte>, ghost es: seq<Entry>)
    requires IsU32(key) && w.buf == start + ContainerBytes(es)
    modifies w
    ensures w.buf == start + ContainerBytes(es + [Entry(key, value)])
  {
    var at := w.OpenEntry(key);
    w.PutBytes(value);
    w.CloseEntry(at);
    EntryWritten(start, es, key, value, at, start + ContainerBytes(es) + U32(key) + U32(0) + value);
  }

  method WriteI64Entry(w: Writer, key: nat, v: int, ghost start: seq<byte>, ghost es: seq<Entry>)
    requires IsU32(key) && IsI64(v) && w.buf == start + ContainerBytes(es)
    modifies w
    ensures w.buf == start + ContainerBytes(es + [Entry(key, I64(v))])
  {
    var at := w.OpenEntry(key);
    w.PutI64(v);
    w.CloseEntry(at);
    EntryWritten(start, es, key, I64(v), at, start + ContainerBytes(es) + U32(key) + U32(0) + I64(v));
  }

  method WriteStrEntry(w: Writer, key: nat, v: seq<byte>, ghost start: seq<byte>, ghost es: seq<Entry>)
    requires IsU32(key) && w.buf == start + ContainerBytes(es)
    modifies w
    ensures w.buf == start + ContainerBytes(es + [Entry(key, Str(v))])
  {
    var at := w.OpenEntry(key);
    w.PutStr(v);
    w.CloseEntry(at);
    EntryWritten(start, es, key, Str(v), at, start + ContainerBytes(es) + U32(key) + U32(0) + Str(v));
  }

  method ParseId(value: seq<byte>) returns (r: Result<Id>)
    ensures r == Exactly(ReadId(value))
  {
    var rd := new Reader(value);
    var v :- rd.GetId();
    if rd.buf != [] {
      return Err(Malformed);
    }
    return Ok(v);
  }

  method ParseI64(value: seq<byte>) returns (r: Result<int>)
    ensures r == Exactly(ReadI64(value))
  {
    var rd := new Reader(value);
    var v :- rd.GetI64();
    if rd.buf != [] {
      return Err(Malformed);
    }
    return Ok(v);
  }

  method ParseStr(value: seq<byte>) returns (r: Result<seq<byte>>)
    ensures r == Exactly(ReadStr(value))
  {
    var rd := new Reader(value);
    var v :- rd.GetStr();
    if rd.buf != [] {
      return Err(Malformed);
    }
    return Ok(v);
  }
}
