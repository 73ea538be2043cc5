/** Shared protocol value types and integer widths. */
module Types {

  type byte = b: int | 0 <= b < 0x100

  /** An interleaved PCM sample. */
  type i16 = s: int | -0x8000 <= s < 0x8000

  predicate IsU8(n: int) { 0 <= n < 0x100 }
  predicate IsU16(n: int) { 0 <= n < 0x1_0000 }
  predicate IsU32(n: int) { 0 <= n < 0x1_0000_0000 }
  predicate IsU64(n: int) { 0 <= n < 0x1_0000_0000_0000_0000 }
  predicate IsI64(n: int) { -0x8000_0000_0000_0000 <= n < 0x8000_0000_0000_0000 }

  /** An 8-byte identifier: node, session or channel. */
  type Id = s: seq<byte> | |s| == 8 witness [0, 0, 0, 0, 0, 0, 0, 0]

  /** Byte-wise order of identifiers of the same length. */
  predicate LexLess(a: seq<byte>, b: seq<byte>)
    requires |a| == |b|
  {
    a != [] && (a[0] < b[0] || (a[0] == b[0] && LexLess(a[1..], b[1..])))
  }

  lemma {:induction false} LexIrreflexive(a: seq<byte>)
    ensures !LexLess(a, a)
  {
    if a != [] {
      LexIrreflexive(a[1..]);
    }
  }

  lemma {:induction false} LexTransitive(a: seq<byte>, b: seq<byte>, c: seq<byte>)
    requires |a| == |b| == |c|
    requires LexLess(a, b) && LexLess(b, c)
    ensures LexLess(a, c)
  {
    if a[0] == b[0] == c[0] {
      LexTransitive(a[1..], b[1..], c[1..]);
    }
  }

  lemma {:induction false} LexTotal(a: seq<byte>, b: seq<byte>)
    requires |a| == |b|
    ensures a == b || LexLess(a, b) || LexLess(b, a)
  {
    if a != [] && a[0] == b[0] {
      LexTotal(a[1..], b[1..]);
      assert a == [a[0]] + a[1..] && b == [b[0]] + b[1..];
    }
  }

  /** The session timeline: tempo in microseconds per beat, beat origin in
      micro-beats, time origin in ghost microseconds. */
  datatype Timeline = Timeline(tempo: int, beatOrigin: int, timeOrigin: int)

  /** Transport start/stop state. */
  datatype StartStopState = StartStopState(isPlaying: bool, beats: int, timestamp: int)

  const DEFAULT_START_STOP := StartStopState(false, 0, 0)

  /** A socket address. IPv6 scope and flow information never travel on the
      wire and decode as zero, so they are not fields here. */
  datatype Endpoint = V4(addr: int, port: int) | V6(octets: seq<byte>, port: int)

  function Min(a: nat, b: nat): nat {
    if a < b then a else b
  }
}
