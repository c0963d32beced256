/**
 * The length-prefixed frame format of the operator's Unix socket: every
 * message travels as a 4-byte little-endian unsigned length followed by the
 * payload.  The C++ writer copies a `uint32_t` with `memcpy`, so the header
 * is in host byte order; x86 is little-endian, which is what the TypeScript
 * side writes and reads explicitly.
 *
 * This module holds the pure specification shared by both connections:
 * encoding a frame, cutting complete frames off the front of a buffer, and
 * the round-trip and chunking theorems.
 */
module Framing {
  import opened Text

  const HEADER_LEN: nat := 4
  const U32: nat := 0x1_0000_0000

  /** The four header bytes for a payload of `n` bytes (`static_cast<uint32_t>` / `setUint32` wrap modulo 2^32). */
  function EncodeLength(n: nat): (r: seq<byte>)
    ensures |r| == HEADER_LEN
  {
    var m := n % U32;
    var m1 := m / 256;
    var m2 := m1 / 256;
    [m % 256, m1 % 256, m2 % 256, m2 / 256]
  }

  /** The little-endian unsigned value of the first four bytes. */
  function DecodeLength(b: seq<byte>): (n: nat)
    requires |b| >= HEADER_LEN
    ensures n < U32
  {
    var b0, b1, b2, b3 := b[0] as int, b[1] as int, b[2] as int, b[3] as int;
    b0 + 256 * (b1 + 256 * (b2 + 256 * b3))
  }

  lemma LengthRoundTrip(n: nat)
    ensures DecodeLength(EncodeLength(n)) == n % U32
  {
    var m := n % U32;
    var m1 := m / 256;
    var m2 := m1 / 256;
    assert m == m % 256 + 256 * m1;
    assert m1 == m1 % 256 + 256 * m2;
    assert m2 == m2 % 256 + 256 * (m2 / 256);
    assert m2 / 256 < 256;
  }

  lemma {:induction false} HeaderRoundTrip(b: seq<byte>)
    requires |b| >= HEADER_LEN
    ensures EncodeLength(DecodeLength(b)) == b[..HEADER_LEN]
  {
    var q2: int := b[2] as int + 256 * b[3] as int;
    var q1: int := b[1] as int + 256 * q2;
    var m: int := b[0] as int + 256 * q1;
    assert m == DecodeLength(b) && m % U32 == m;
    assert m % 256 == b[0] && m / 256 == q1;
    assert q1 % 256 == b[1] && q1 / 256 == q2;
    assert q2 % 256 == b[2] && q2 / 256 == b[3];
  }

  /** One frame as `Connection::write` builds it: the length header, then the payload unchanged. */
  function Frame(payload: seq<byte>): (r: seq<byte>)
    ensures |r| == HEADER_LEN + |payload|
  {
    EncodeLength(|payload|) + payload
  }

  /** A frame announces its payload's length modulo 2^32 and carries the payload unchanged after the header. */
  lemma FrameParts(payload: seq<byte>)
    ensures Frame(payload)[HEADER_LEN..] == payload
    ensures DecodeLength(Frame(payload)) == |payload| % U32
  {
    LengthRoundTrip(|payload|);
    assert Frame(payload)[..HEADER_LEN] == EncodeLength(|payload|);
  }

  /** The bytes of several frames written one after another. */
  function Frames(ps: seq<seq<byte>>): seq<byte>
  {
    if |ps| == 0 then [] else Frame(ps[0]) + Frames(ps[1..])
  }

  /** The payloads cut off the front of a buffer and what stays buffered. */
  datatype Cut = Cut(msgs: seq<seq<byte>>, rest: seq<byte>)

  /** A buffer that holds no complete frame at its front. */
  predicate Incomplete(s: seq<byte>)
  {
    |s| < HEADER_LEN || |s| < HEADER_LEN + DecodeLength(s)
  }

  /** Every payload could have been framed without wrapping its length. */
  predicate Framable(ps: seq<seq<byte>>)
  {
    forall m :: m in ps ==> |m| < U32
  }

  /**
   * The reassembly loop of `onData`: while at least four bytes are buffered
   * and the frame they announce is complete, hand its payload over and erase
   * header and payload from the front.
   */
  function Deframe(s: seq<byte>): (r: Cut)
    ensures Incomplete(r.rest)
    decreases |s|
  {
    if |s| < HEADER_LEN then Cut([], s)
    else
      var len := DecodeLength(s);
      if |s| < HEADER_LEN + len then Cut([], s)
      else
        var tail := Deframe(s[HEADER_LEN + len..]);
        Cut([s[HEADER_LEN..HEADER_LEN + len]] + tail.msgs, tail.rest)
  }

  /** Nothing is lost or invented: the delivered payloads, framed again, followed by what stays buffered, are the buffer. */
  lemma {:induction false} DeframeSound(s: seq<byte>)
    ensures Frames(Deframe(s).msgs) + Deframe(s).rest == s
    decreases |s|
  {
    if |s| >= HEADER_LEN {
      var len := DecodeLength(s);
      if |s| >= HEADER_LEN + len {
        var s' := s[HEADER_LEN + len..];
        var tail := Deframe(s');
        var m := s[HEADER_LEN..HEADER_LEN + len];
        DeframeSound(s');
        assert Deframe(s) == Cut([m] + tail.msgs, tail.rest);
        HeaderRoundTrip(s);
        assert Frame(m) == s[..HEADER_LEN + len];
        FramesCons(m, tail.msgs);
        JoinAt(s, HEADER_LEN + len, Frame(m), Frames(tail.msgs), tail.rest);
      }
    }
  }

  lemma JoinAt(s: seq<byte>, k: nat, a: seq<byte>, b: seq<byte>, c: seq<byte>)
    requires k <= |s| && a == s[..k] && b + c == s[k..]
    ensures (a + b) + c == s
  {
    assert s == s[..k] + s[k..];
  }

  /** Every delivered payload is shorter than 2^32 bytes, since its length was read from a 32-bit header. */
  lemma {:induction false} DeframeFramable(s: seq<byte>)
    ensures Framable(Deframe(s).msgs)
    decreases |s|
  {
    if |s| >= HEADER_LEN {
      var len := DecodeLength(s);
      if |s| >= HEADER_LEN + len {
        DeframeFramable(s[HEADER_LEN + len..]);
      }
    }
  }

  lemma FramesCons(m: seq<byte>, ms: seq<seq<byte>>)
    ensures Frames([m] + ms) == Frame(m) + Frames(ms)
  {
    assert ([m] + ms)[1..] == ms;
  }

  /** Bytes appended after a buffer are cut only after the buffer's own complete frames. */
  lemma {:induction false} DeframeAppend(s: seq<byte>, t: seq<byte>)
    ensures Deframe(s + t).msgs == Deframe(s).msgs + Deframe(Deframe(s).rest + t).msgs
    ensures Deframe(s + t).rest == Deframe(Deframe(s).rest + t).rest
    decreases |s|
  {
    if |s| >= HEADER_LEN {
      var len := DecodeLength(s);
      assert DecodeLength(s + t) == len;
      if |s| >= HEADER_LEN + len {
        var s' := s[HEADER_LEN + len..];
        assert (s + t)[HEADER_LEN + len..] == s' + t;
        assert (s + t)[HEADER_LEN..HEADER_LEN + len] == s[HEADER_LEN..HEADER_LEN + len];
        DeframeAppend(s', t);
      }
    }
  }

  /** A complete frame at the front of the buffer is delivered first, then the rest is processed. */
  lemma DeframeStep(p: seq<byte>, rest: seq<byte>)
    requires |p| < U32
    ensures Deframe(Frame(p) + rest) == Cut([p] + Deframe(rest).msgs, Deframe(rest).rest)
  {
    var s := Frame(p) + rest;
    FrameParts(p);
    assert s[..HEADER_LEN] == Frame(p)[..HEADER_LEN];
    assert DecodeLength(s) == |p|;
    assert s[HEADER_LEN..HEADER_LEN + |p|] == p;
    assert s[HEADER_LEN + |p|..] == rest;
  }

  /** Frames written one after another are cut back into the same payloads, in order. */
  lemma {:induction false} DeframeFrames(ps: seq<seq<byte>>, t: seq<byte>)
    requires Framable(ps)
    ensures Deframe(Frames(ps) + t) == Cut(ps + Deframe(t).msgs, Deframe(t).rest)
    decreases |ps|
  {
    if |ps| == 0 {
      assert Frames(ps) + t == t;
      assert ps + Deframe(t).msgs == Deframe(t).msgs;
    } else {
      var p := ps[0];
      var rest := Frames(ps[1..]) + t;
      FramesThen(ps, t);
      DeframeStep(p, rest);
      DeframeFrames(ps[1..], t);
      ConsAppend(ps, Deframe(t).msgs);
    }
  }

  lemma FramesThen(ps: seq<seq<byte>>, t: seq<byte>)
    requires |ps| > 0
    ensures Frames(ps) + t == Frame(ps[0]) + (Frames(ps[1..]) + t)
  {
  }

  lemma ConsAppend<T>(ps: seq<T>, x: seq<T>)
    requires |ps| > 0
    ensures [ps[0]] + (ps[1..] + x) == ps + x
  {
    assert ps == [ps[0]] + ps[1..];
  }

  /** Round trip: the bytes of written frames deframe to exactly the written payloads, leaving nothing buffered. */
  lemma RoundTrip(ps: seq<seq<byte>>)
    requires Framable(ps)
    ensures Deframe(Frames(ps)) == Cut(ps, [])
  {
    DeframeFrames(ps, []);
    assert Frames(ps) + [] == Frames(ps);
    assert ps + [] == ps;
  }

  /** A zero-length payload is a frame of four zero bytes and is delivered as an empty message. */
  lemma EmptyPayload()
    ensures Frame([]) == [0, 0, 0, 0]
    ensures Deframe(Frame([])) == Cut([[]], [])
  {
    RoundTrip([[]]);
    assert Frames([[]]) == Frame([]);
  }

  /** The bytes of several reads, in arrival order. */
  function Concat(chunks: seq<seq<byte>>): seq<byte>
  {
    if |chunks| == 0 then [] else chunks[0] + Concat(chunks[1..])
  }

  /**
   * What a connection delivers when its buffer holds `buf` and the reads
   * `chunks` arrive one by one, each appended and then processed.
   */
  function Feed(buf: seq<byte>, chunks: seq<seq<byte>>): Cut
    decreases |chunks|
  {
    if |chunks| == 0 then Cut([], buf)
    else
      var d := Deframe(buf + chunks[0]);
      var f := Feed(d.rest, chunks[1..]);
      Cut(d.msgs + f.msgs, f.rest)
  }

  /**
   * How the stream is cut into reads does not matter: starting from a buffer
   * that holds no complete frame, reading chunk by chunk delivers what one
   * big read would.
   */
  lemma {:induction false} FeedIsDeframe(buf: seq<byte>, chunks: seq<seq<byte>>)
    requires Incomplete(buf)
    ensures Feed(buf, chunks) == Deframe(buf + Concat(chunks))
    decreases |chunks|
  {
    if |chunks| == 0 {
      assert buf + Concat(chunks) == buf;
    } else {
      var d := Deframe(buf + chunks[0]);
      FeedIsDeframe(d.rest, chunks[1..]);
      ConcatCons(buf, chunks);
      DeframeAppend(buf + chunks[0], Concat(chunks[1..]));
    }
  }

  lemma ConcatCons(buf: seq<byte>, chunks: seq<seq<byte>>)
    requires |chunks| > 0
    ensures buf + Concat(chunks) == (buf + chunks[0]) + Concat(chunks[1..])
  {
  }

  /** Round trip through any chunking: the reads together carry written frames, so exactly those payloads are delivered in order and nothing stays buffered. */
  lemma ChunkedRoundTrip(ps: seq<seq<byte>>, chunks: seq<seq<byte>>)
    requires Framable(ps)
    requires Concat(chunks) == Frames(ps)
    ensures Feed([], chunks) == Cut(ps, [])
  {
    FeedIsDeframe([], chunks);
    assert [] + Concat(chunks) == Frames(ps);
    RoundTrip(ps);
  }
}
