/**
  Stream framing: a length prefix, the frame type, the counter, in v2 sessions the key epoch, and the
  body. The transport is a pair of byte queues; it may stop accepting bytes at any point.
*/
module Framing {
  import opened Options
  import opened Bytes

  const MAX_FRAME_BYTES: nat := 16 * 1024 * 1024

  datatype RawFrame = RawFrame(ty: byte, counter: nat, epoch: byte, body: seq<byte>)

  function HeaderLength(withEpoch: bool): nat {
    if withEpoch then 10 else 9
  }

  function Header(f: RawFrame, withEpoch: bool): (h: seq<byte>)
    ensures |h| == HeaderLength(withEpoch)
  {
    [f.ty] + Be(f.counter, 8) + if withEpoch then [f.epoch] else []
  }

  // The length field is the low 32 bits of the length.
  function FrameBytes(f: RawFrame, withEpoch: bool): (s: seq<byte>)
    ensures |s| == 4 + HeaderLength(withEpoch) + |f.body|
  {
    Be((HeaderLength(withEpoch) + |f.body|) % TWO32, 4) + Header(f, withEpoch) + f.body
  }

  /** The offsets of a frame: four bytes of length, which counts all that follows, type, counter, in v2 the epoch, body. */
  lemma FrameOffsets(f: RawFrame, withEpoch: bool)
    ensures var b, h := FrameBytes(f, withEpoch), if withEpoch then 14 else 13;
            && |b| == h + |f.body| && b[..4] == Be((|b| - 4) % TWO32, 4)
            && b[4] == f.ty && b[5..13] == Be(f.counter, 8) && (withEpoch ==> b[13] == f.epoch) && b[h..] == f.body
  {
    hide Be;
  }

  datatype Read = End | Frame(f: RawFrame, rest: seq<byte>)

  // One `read_frame` on a stream that ends after `s`.
  function ReadFrame(s: seq<byte>, withEpoch: bool): (r: Read)
    ensures r.Frame? ==> |r.rest| < |s|
  {
    if |s| < 4 then End else
    var total := ValueOf(s[..4]);
    var h := HeaderLength(withEpoch);
    if total < h || total > MAX_FRAME_BYTES || |s| - 4 < total then End else
    var rest := s[4..4 + total];
    Frame(RawFrame(rest[0], ValueOf(rest[1..9]), if withEpoch then rest[9] else 0, rest[h..]), s[4 + total..])
  }

  function ReadAll(s: seq<byte>, withEpoch: bool): seq<RawFrame>
    decreases |s|
  {
    match ReadFrame(s, withEpoch)
    case End => []
    case Frame(f, rest) => [f] + ReadAll(rest, withEpoch)
  }

  function StreamBytes(fs: seq<RawFrame>, withEpoch: bool): seq<byte> {
    if fs == [] then [] else FrameBytes(fs[0], withEpoch) + StreamBytes(fs[1..], withEpoch)
  }

  // What a frame must be for its header to carry it: the epoch byte exists only in v2 sessions.
  predicate Representable(f: RawFrame, withEpoch: bool) {
    f.counter < TWO64 && (!withEpoch ==> f.epoch == 0)
  }

  predicate WithinCap(f: RawFrame, withEpoch: bool) {
    HeaderLength(withEpoch) + |f.body| <= MAX_FRAME_BYTES
  }

  // ---- one frame -------------------------------------------------------------

  lemma HeaderReads(f: RawFrame, withEpoch: bool)
    requires Representable(f, withEpoch)
    ensures var rest := Header(f, withEpoch) + f.body;
            && rest[0] == f.ty && ValueOf(rest[1..9]) == f.counter
            && (withEpoch ==> rest[9] == f.epoch) && rest[HeaderLength(withEpoch)..] == f.body
  {
    var rest := Header(f, withEpoch) + f.body;
    assert rest[1..9] == Be(f.counter, 8);
    RoundTrip64(f.counter);
  }

  lemma FrameReads(f: RawFrame, withEpoch: bool, tail: seq<byte>)
    requires Representable(f, withEpoch) && WithinCap(f, withEpoch)
    ensures ReadFrame(FrameBytes(f, withEpoch) + tail, withEpoch) == Frame(f, tail)
  {
    hide FrameBytes, Header, Be, ValueOf;
    var total := HeaderLength(withEpoch) + |f.body|;
    var b := FrameBytes(f, withEpoch);
    var s := b + tail;
    FrameParts(f, withEpoch);
    RoundTrip32(total);
    assert s[..4] == b[..4] && s[4..4 + total] == b[4..] && s[4 + total..] == tail;
    HeaderReads(f, withEpoch);
  }

  lemma FrameParts(f: RawFrame, withEpoch: bool)
    ensures var b := FrameBytes(f, withEpoch);
            b[..4] == Be((HeaderLength(withEpoch) + |f.body|) % TWO32, 4) && b[4..] == Header(f, withEpoch) + f.body
  {
    hide Be, Header;
  }

  /**
    The reader enforces a cap that the writer does not check: a written frame is read back exactly
    when it is within the cap.
  */
  lemma FrameExact(f: RawFrame, withEpoch: bool, tail: seq<byte>)
    requires Representable(f, withEpoch)
    ensures ReadFrame(FrameBytes(f, withEpoch) + tail, withEpoch) == Frame(f, tail) <==> WithinCap(f, withEpoch)
  {
    if WithinCap(f, withEpoch) {
      FrameReads(f, withEpoch, tail);
    } else {
      var total := (HeaderLength(withEpoch) + |f.body|) % TWO32;
      var s := FrameBytes(f, withEpoch) + tail;
      RoundTrip32(total);
      assert s[..4] == Be(total, 4);
    }
  }

  // Part of a frame is no frame.
  lemma FrameTruncated(f: RawFrame, withEpoch: bool, n: nat)
    requires WithinCap(f, withEpoch) && n < |FrameBytes(f, withEpoch)|
    ensures ReadFrame(FrameBytes(f, withEpoch)[..n], withEpoch) == End
  {
    hide FrameBytes, Be, ValueOf, Header;
    var total := HeaderLength(withEpoch) + |f.body|;
    var b := FrameBytes(f, withEpoch);
    FrameOffsets(f, withEpoch);
    if n >= 4 {
      RoundTrip32(total);
      assert b[..n][..4] == b[..4];
    }
  }

  // ---- whole streams ---------------------------------------------------------

  ghost predicate Sendable(fs: seq<RawFrame>, withEpoch: bool) {
    forall i :: 0 <= i < |fs| ==> Representable(fs[i], withEpoch) && WithinCap(fs[i], withEpoch)
  }

  lemma ReadAllNext(f: RawFrame, withEpoch: bool, tail: seq<byte>)
    requires Representable(f, withEpoch) && WithinCap(f, withEpoch)
    ensures ReadAll(FrameBytes(f, withEpoch) + tail, withEpoch) == [f] + ReadAll(tail, withEpoch)
  {
    FrameReads(f, withEpoch, tail);
    hide FrameBytes, ReadFrame;
  }

  lemma ReadAllCut(f: RawFrame, withEpoch: bool, n: nat)
    requires WithinCap(f, withEpoch) && n < |FrameBytes(f, withEpoch)|
    ensures ReadAll(FrameBytes(f, withEpoch)[..n], withEpoch) == []
  {
    FrameTruncated(f, withEpoch, n);
    hide FrameBytes, ReadFrame;
  }

  lemma CutInFirst(fs: seq<RawFrame>, withEpoch: bool, n: nat)
    requires fs != [] && Sendable(fs, withEpoch) && n < |FrameBytes(fs[0], withEpoch)|
    requires n <= |StreamBytes(fs, withEpoch)|
    ensures ReadAll(StreamBytes(fs, withEpoch)[..n], withEpoch) == []
  {
    hide FrameBytes, ReadAll, Representable, WithinCap;
    FirstOf(fs, withEpoch);
    var b, r := FrameBytes(fs[0], withEpoch), StreamBytes(fs[1..], withEpoch);
    assert (b + r)[..n] == b[..n];
    ReadAllCut(fs[0], withEpoch, n);
  }

  // A cut behind the first frame is a cut of the rest.
  lemma CutLater(fs: seq<RawFrame>, withEpoch: bool, n: nat)
    requires fs != [] && Sendable(fs, withEpoch) && |FrameBytes(fs[0], withEpoch)| <= n <= |StreamBytes(fs, withEpoch)|
    ensures var b := |FrameBytes(fs[0], withEpoch)|;
            && |StreamBytes(fs, withEpoch)| == b + |StreamBytes(fs[1..], withEpoch)|
            && ReadAll(StreamBytes(fs, withEpoch)[..n], withEpoch)
               == [fs[0]] + ReadAll(StreamBytes(fs[1..], withEpoch)[..n - b], withEpoch)
  {
    hide FrameBytes, ReadAll, Representable, WithinCap;
    FirstOf(fs, withEpoch);
    var b, r := FrameBytes(fs[0], withEpoch), StreamBytes(fs[1..], withEpoch);
    assert (b + r)[..n] == b + r[..n - |b|];
    ReadAllNext(fs[0], withEpoch, r[..n - |b|]);
  }

  lemma FirstFrames(fs: seq<RawFrame>, withEpoch: bool, k: nat)
    requires k < |fs|
    ensures fs[..k + 1] == [fs[0]] + fs[1..][..k]
    ensures |StreamBytes(fs[..k + 1], withEpoch)| == |FrameBytes(fs[0], withEpoch)| + |StreamBytes(fs[1..][..k], withEpoch)|
  {
    hide FrameBytes;
    FirstOf(fs[..k + 1], withEpoch);
    assert fs[..k + 1][1..] == fs[1..][..k];
  }

  /**
    A stream of frames cut anywhere reads back to exactly the frames that are complete: k frames,
    with frame k + 1, if there is one, not all there.
  */
  lemma {:induction false} CutStream(fs: seq<RawFrame>, withEpoch: bool, n: nat) returns (k: nat)
    requires Sendable(fs, withEpoch) && n <= |StreamBytes(fs, withEpoch)|
    ensures k <= |fs| && ReadAll(StreamBytes(fs, withEpoch)[..n], withEpoch) == fs[..k]
    ensures |StreamBytes(fs[..k], withEpoch)| <= n
    ensures k < |fs| ==> n < |StreamBytes(fs[..k + 1], withEpoch)|
    ensures n == |StreamBytes(fs, withEpoch)| ==> k == |fs|
  {
    hide FrameBytes, StreamBytes, ReadAll, Representable, WithinCap;
    FirstOfNone(withEpoch);
    if fs == [] {
      k := 0;
    } else if n < |FrameBytes(fs[0], withEpoch)| {
      CutInFirst(fs, withEpoch, n);
      FirstOf(fs, withEpoch);
      k := 0;
    } else {
      CutLater(fs, withEpoch, n);
      var j := CutStream(fs[1..], withEpoch, n - |FrameBytes(fs[0], withEpoch)|);
      FirstFrames(fs, withEpoch, j);
      if j + 1 < |fs| { FirstFrames(fs, withEpoch, j + 1); }
      k := j + 1;
    }
  }

  lemma FirstOf(fs: seq<RawFrame>, withEpoch: bool)
    requires fs != []
    ensures StreamBytes(fs, withEpoch) == FrameBytes(fs[0], withEpoch) + StreamBytes(fs[1..], withEpoch)
    ensures StreamBytes(fs[..1], withEpoch) == FrameBytes(fs[0], withEpoch) && StreamBytes(fs[..0], withEpoch) == []
  {
    assert fs[..1][1..] == [];
  }

  lemma FirstOfNone(withEpoch: bool)
    ensures StreamBytes([], withEpoch) == [] && ReadAll([], withEpoch) == []
  {
  }

  // One direction of a connection: a handshake frame without epoch byte, then session frames.
  function ReadConnection(s: seq<byte>, v2: bool): seq<RawFrame> {
    match ReadFrame(s, false)
    case End => []
    case Frame(f, rest) => [f] + ReadAll(rest, v2)
  }

  /** A whole connection reads back to the handshake frame and every session frame, in either layout. */
  lemma ConnectionReads(hello: RawFrame, fs: seq<RawFrame>, v2: bool)
    requires Sendable([hello], false) && Sendable(fs, v2)
    ensures ReadConnection(FrameBytes(hello, false) + StreamBytes(fs, v2), v2) == [hello] + fs
  {
    assert Representable([hello][0], false) && WithinCap([hello][0], false);
    FrameReads(hello, false, StreamBytes(fs, v2));
    var k := CutStream(fs, v2, |StreamBytes(fs, v2)|);
    assert StreamBytes(fs, v2)[..|StreamBytes(fs, v2)|] == StreamBytes(fs, v2);
  }

  /** Cut short, it reads back to the handshake frame and exactly the complete session frames. */
  lemma CutConnection(hello: RawFrame, fs: seq<RawFrame>, v2: bool, n: nat) returns (k: nat)
    requires Sendable([hello], false) && Sendable(fs, v2)
    requires n <= |FrameBytes(hello, false) + StreamBytes(fs, v2)|
    ensures var s := (FrameBytes(hello, false) + StreamBytes(fs, v2))[..n];
            if n < |FrameBytes(hello, false)| then ReadConnection(s, v2) == []
            else
              && k <= |fs| && ReadConnection(s, v2) == [hello] + fs[..k]
              && |FrameBytes(hello, false)| + |StreamBytes(fs[..k], v2)| <= n
              && (k < |fs| ==> n < |FrameBytes(hello, false)| + |StreamBytes(fs[..k + 1], v2)|)
  {
    var b, r := FrameBytes(hello, false), StreamBytes(fs, v2);
    assert Representable([hello][0], false) && WithinCap([hello][0], false);
    k := 0;
    if n < |b| {
      assert (b + r)[..n] == b[..n];
      FrameTruncated(hello, false, n);
    } else {
      k := CutStream(fs, v2, n - |b|);
      assert (b + r)[..n] == b + r[..n - |b|];
      FrameReads(hello, false, r[..n - |b|]);
    }
  }

  // ---- the code --------------------------------------------------------------

  lemma CutOfThree(a: seq<byte>, b: seq<byte>, c: seq<byte>, n: nat)
    requires n <= |a| + |b| + |c|
    ensures (a + b + c)[..n] == if n <= |a| then a[..n]
                                else if n <= |a| + |b| then a + b[..n - |a|]
                                else a + b + c[..n - |a| - |b|]
  {
  }

  // One end of a transport. It accepts `budget` more bytes before a send fails.
  class Transport {
    var incoming: seq<byte>
    var outgoing: seq<byte>
    var budget: nat

    constructor (incoming: seq<byte>, budget: nat)
      ensures this.incoming == incoming && outgoing == [] && this.budget == budget
    {
      this.incoming, this.outgoing, this.budget := incoming, [], budget;
    }

    method SendAll(data: seq<byte>) returns (ok: bool)
      modifies this`outgoing, this`budget
      ensures ok <==> |data| <= old(budget)
      ensures outgoing == old(outgoing) + if ok then data else data[..old(budget)]
      ensures budget == if ok then old(budget) - |data| else 0
    {
      ok := |data| <= budget;
      if ok {
        outgoing, budget := outgoing + data, budget - |data|;
      } else {
        outgoing, budget := outgoing + data[..budget], 0;
      }
    }

    method RecvAll(n: nat) returns (data: Option<seq<byte>>)
      modifies this`incoming
      ensures data == if |old(incoming)| < n then None else Some(old(incoming)[..n])
      ensures data.Some? ==> incoming == old(incoming)[n..]
    {
      if |incoming| < n { incoming := []; return None; }
      data, incoming := Some(incoming[..n]), incoming[n..];
    }

    // Three sends in a row; an empty last part is not sent.
    method SendParts(a: seq<byte>, b: seq<byte>, c: seq<byte>) returns (ok: bool)
      modifies this`outgoing, this`budget
      ensures ok <==> |a + b + c| <= old(budget)
      ensures outgoing == old(outgoing) + if ok then a + b + c else (a + b + c)[..old(budget)]
    {
      if budget < |a + b + c| { CutOfThree(a, b, c, budget); }
      ok := SendAll(a);
      if !ok { return false; }
      ok := SendAll(b);
      if !ok { return false; }
      if c != [] {
        ok := SendAll(c);
        if !ok { return false; }
      }
      return true;
    }

    // Writes the whole frame, or as much of it as the transport still took.
    method WriteFrame(f: RawFrame, withEpoch: bool) returns (ok: bool)
      modifies this`outgoing, this`budget
      ensures ok <==> |FrameBytes(f, withEpoch)| <= old(budget)
      ensures outgoing == old(outgoing) + if ok then FrameBytes(f, withEpoch) else FrameBytes(f, withEpoch)[..old(budget)]
    {
      var header: seq<byte> := [f.ty];
      header := PutU64(header, f.counter);
      if withEpoch { header := header + [f.epoch]; }
      var prefix := PutU32((|header| + |f.body|) % TWO32);
      assert FrameBytes(f, withEpoch) == prefix + header + f.body;
      ok := SendParts(prefix, header, f.body);
    }

    method ReadNext(withEpoch: bool) returns (f: Option<RawFrame>)
      modifies this`incoming
      ensures match ReadFrame(old(incoming), withEpoch)
              case End => f == None
              case Frame(g, rest) => f == Some(g) && incoming == rest
    {
      var len := RecvAll(4);
      if len.None? { return None; }
      var total := GetU32(len.value);
      assert len.value[..4] == old(incoming)[..4];
      var headerLen := HeaderLength(withEpoch);
      if total < headerLen || total > MAX_FRAME_BYTES { return None; }
      var rest := RecvAll(total);
      if rest.None? { return None; }
      var r := rest.value;
      assert r == old(incoming)[4..4 + total] && incoming == old(incoming)[4 + total..];
      var counter := GetU64(r[1..]);
      assert r[1..][..8] == r[1..9];
      return Some(RawFrame(r[0], counter, if withEpoch then r[9] else 0, r[headerLen..]));
    }
  }
}
