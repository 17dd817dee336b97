/**
  The payload codecs. For each payload there is its layout, a reader that consumes it from the front,
  and the encoder and decoder of the code: methods that append to a buffer and move a cursor.
*/
module Wire {
  import opened Options
  import opened Bytes

  datatype Hello = Hello(
    version: byte, identity: Bytes32, ephemeral: Bytes32, nonce: Bytes16, service: seq<byte>, signature: Bytes64,
    maxVersion: byte, signatureV2: Bytes64, hasV2: bool)

  datatype HelloAck = HelloAck(
    version: byte, identity: Bytes32, ephemeral: Bytes32, serverNonce: Bytes16, clientNonce: Bytes16, status: byte,
    signature: Bytes64, maxVersion: byte, signatureV2: Bytes64, hasV2: bool)

  datatype Request = Request(id: nat, oneway: bool, endpoint: seq<byte>, data: seq<byte>)

  datatype Response = Response(id: nat, status: byte, data: seq<byte>)

  datatype StreamChunk = StreamChunk(id: nat, seqNo: nat, last: bool, endpoint: seq<byte>, data: seq<byte>)

  datatype ErrorInfo = ErrorInfo(reason: nat, message: seq<byte>)

  // ---- layouts ---------------------------------------------------------------

  // One length byte, whatever the length is.
  function Str8(s: seq<byte>): seq<byte> {
    [|s| % 256] + s
  }

  function Flag(b: bool): byte {
    if b then 1 else 0
  }

  function Sized(data: seq<byte>): seq<byte> {
    Be(|data|, 4) + data
  }

  function HelloV1Bytes(h: Hello): seq<byte> {
    [h.version] + h.identity + h.ephemeral + h.nonce + Str8(h.service) + h.signature
  }

  function Extension(maxVersion: byte, signature: Bytes64): seq<byte> {
    if maxVersion >= 2 then [maxVersion] + signature else []
  }

  function HelloBytes(h: Hello): seq<byte> {
    HelloV1Bytes(h) + Extension(h.maxVersion, h.signatureV2)
  }

  function HelloAckV1Bytes(h: HelloAck): seq<byte> {
    [h.version] + h.identity + h.ephemeral + h.serverNonce + h.clientNonce + [h.status] + h.signature
  }

  function HelloAckBytes(h: HelloAck): seq<byte> {
    HelloAckV1Bytes(h) + Extension(h.maxVersion, h.signatureV2)
  }

  function RequestBytes(r: Request): seq<byte> {
    Be(r.id, 8) + [Flag(r.oneway)] + Str8(r.endpoint) + Sized(r.data)
  }

  function ResponseBytes(r: Response): seq<byte> {
    Be(r.id, 8) + [r.status] + Sized(r.data)
  }

  function ChunkBytes(c: StreamChunk): seq<byte> {
    Be(c.id, 8) + Be(c.seqNo, 4) + [Flag(c.last)] + Str8(c.endpoint) + Sized(c.data)
  }

  function ErrorBytes(e: ErrorInfo): seq<byte> {
    Be(e.reason, 2) + e.message
  }

  // ---- reading from the front ------------------------------------------------

  // A value and what follows it.
  datatype Parsed<+T> = Fail | Got(value: T, rest: seq<byte>) {
    predicate IsFailure() { Fail? }
    function PropagateFailure<U>(): Parsed<U>
      requires Fail?
    {
      Fail
    }
    function Extract(): (T, seq<byte>)
      requires Got?
    {
      (value, rest)
    }
    function Value(): Option<T> {
      if Got? then Some(value) else None
    }
  }

  function Take(s: seq<byte>, n: nat): Parsed<seq<byte>> {
    if |s| < n then Fail else Got(s[..n], s[n..])
  }

  function TakeStr8(s: seq<byte>): Parsed<seq<byte>> {
    var (len, r) :- Take(s, 1);
    Take(r, len[0])
  }

  function TakeSized(s: seq<byte>): Parsed<seq<byte>> {
    var (len, r) :- Take(s, 4);
    Take(r, ValueOf(len))
  }

  function ParseRequest(s: seq<byte>): Parsed<Request> {
    var (id, s1) :- Take(s, 8);
    var (oneway, s2) :- Take(s1, 1);
    var (endpoint, s3) :- TakeStr8(s2);
    var (data, s4) :- TakeSized(s3);
    Got(Request(ValueOf(id), oneway[0] != 0, endpoint, data), s4)
  }

  function ParseResponse(s: seq<byte>): Parsed<Response> {
    var (id, s1) :- Take(s, 8);
    var (status, s2) :- Take(s1, 1);
    var (data, s3) :- TakeSized(s2);
    Got(Response(ValueOf(id), status[0], data), s3)
  }

  function ParseChunk(s: seq<byte>): Parsed<StreamChunk> {
    var (id, s1) :- Take(s, 8);
    var (seqNo, s2) :- Take(s1, 4);
    var (last, s3) :- Take(s2, 1);
    var (endpoint, s4) :- TakeStr8(s3);
    var (data, s5) :- TakeSized(s4);
    Got(StreamChunk(ValueOf(id), ValueOf(seqNo), last[0] != 0, endpoint, data), s5)
  }

  function ParseError(s: seq<byte>): Parsed<ErrorInfo> {
    var (reason, s1) :- Take(s, 2);
    Got(ErrorInfo(ValueOf(reason), s1), [])
  }

  // The trailing v2 extension, when there are bytes enough for one; a peer without it speaks v1.
  function TakeExtension(s: seq<byte>): Parsed<(byte, Bytes64, bool)> {
    if |s| >= 65 then Got((s[0], s[1..65], true), s[65..]) else Got((1, Zeros(64), false), s)
  }

  // A v1 peer's decoder: it stops at the v1 signature and knows no extension.
  function ParseHelloV1(s: seq<byte>): Parsed<Hello> {
    var (version, s1) :- Take(s, 1);
    var (identity, s2) :- Take(s1, 32);
    var (ephemeral, s3) :- Take(s2, 32);
    var (nonce, s4) :- Take(s3, 16);
    var (service, s5) :- TakeStr8(s4);
    var (signature, s6) :- Take(s5, 64);
    Got(Hello(version[0], identity, ephemeral, nonce, service, signature, 1, Zeros(64), false), s6)
  }

  function ParseHelloAckV1(s: seq<byte>): Parsed<HelloAck> {
    var (version, s1) :- Take(s, 1);
    var (identity, s2) :- Take(s1, 32);
    var (ephemeral, s3) :- Take(s2, 32);
    var (serverNonce, s4) :- Take(s3, 16);
    var (clientNonce, s5) :- Take(s4, 16);
    var (status, s6) :- Take(s5, 1);
    var (signature, s7) :- Take(s6, 64);
    Got(HelloAck(version[0], identity, ephemeral, serverNonce, clientNonce, status[0], signature, 1, Zeros(64), false), s7)
  }

  // The current decoder goes on to look for an extension.
  function ParseHello(s: seq<byte>): Parsed<Hello> {
    var (h, s1) :- ParseHelloV1(s);
    var (ext, s2) :- TakeExtension(s1);
    Got(h.(maxVersion := ext.0, signatureV2 := ext.1, hasV2 := ext.2), s2)
  }

  function ParseHelloAck(s: seq<byte>): Parsed<HelloAck> {
    var (h, s1) :- ParseHelloAckV1(s);
    var (ext, s2) :- TakeExtension(s1);
    Got(h.(maxVersion := ext.0, signatureV2 := ext.1, hasV2 := ext.2), s2)
  }

  // ---- pieces ----------------------------------------------------------------

  lemma TakeFront(a: seq<byte>, b: seq<byte>)
    ensures Take(a + b, |a|) == Got(a, b)
  {
  }

  lemma TakeStr8Front(s: seq<byte>, b: seq<byte>)
    requires |s| < 256
    ensures TakeStr8(Str8(s) + b) == Got(s, b)
  {
    assert Str8(s) + b == [|s| % 256] + (s + b);
    TakeFront([|s| % 256], s + b);
    TakeFront(s, b);
  }

  lemma TakeSizedFront(d: seq<byte>, b: seq<byte>)
    requires |d| < TWO32
    ensures TakeSized(Sized(d) + b) == Got(d, b)
  {
    assert Sized(d) + b == Be(|d|, 4) + (d + b);
    TakeFront(Be(|d|, 4), d + b);
    TakeFront(d, b);
    RoundTrip32(|d|);
  }

  // More input changes nothing about what was already read.
  lemma TakeMore(s: seq<byte>, n: nat, t: seq<byte>)
    requires Take(s, n).Got?
    ensures Take(s + t, n) == Got(Take(s, n).value, Take(s, n).rest + t)
  {
    assert (s + t)[..n] == s[..n] && (s + t)[n..] == s[n..] + t;
  }

  lemma TakeStr8More(s: seq<byte>, t: seq<byte>)
    requires TakeStr8(s).Got?
    ensures TakeStr8(s + t) == Got(TakeStr8(s).value, TakeStr8(s).rest + t)
    ensures |s| == 1 + |TakeStr8(s).value| + |TakeStr8(s).rest| && |TakeStr8(s).value| < 256
  {
    TakeMore(s, 1, t);
    TakeMore(Take(s, 1).rest, s[0], t);
  }

  lemma TakeSizedMore(s: seq<byte>, t: seq<byte>)
    requires TakeSized(s).Got?
    ensures TakeSized(s + t) == Got(TakeSized(s).value, TakeSized(s).rest + t)
    ensures |s| == 4 + |TakeSized(s).value| + |TakeSized(s).rest| && |TakeSized(s).value| < TWO32
  {
    TakeMore(s, 4, t);
    TakeMore(Take(s, 4).rest, ValueOf(s[..4]), t);
    Powers();
    ValueBound(s[..4]);
  }

  // ---- requests --------------------------------------------------------------

  predicate RequestFits(r: Request) {
    r.id < TWO64 && |r.endpoint| < 256 && |r.data| < TWO32
  }

  lemma RequestRoundTrip(r: Request, tail: seq<byte>)
    requires RequestFits(r)
    ensures ParseRequest(RequestBytes(r) + tail) == Got(r, tail)
  {
    var s3 := Sized(r.data) + tail;
    var s2 := Str8(r.endpoint) + s3;
    var s1 := [Flag(r.oneway)] + s2;
    assert RequestBytes(r) + tail == Be(r.id, 8) + s1;
    TakeFront(Be(r.id, 8), s1);
    TakeFront([Flag(r.oneway)], s2);
    TakeStr8Front(r.endpoint, s3);
    TakeSizedFront(r.data, tail);
    RoundTrip64(r.id);
  }

  lemma RequestMore(s: seq<byte>, t: seq<byte>)
    requires ParseRequest(s).Got?
    ensures ParseRequest(s + t) == Got(ParseRequest(s).value, ParseRequest(s).rest + t)
    ensures |s| == |RequestBytes(ParseRequest(s).value)| + |ParseRequest(s).rest|
    ensures RequestFits(ParseRequest(s).value)
  {
    var s1 := Take(s, 8).rest;
    var s2 := Take(s1, 1).rest;
    var s3 := TakeStr8(s2).rest;
    TakeMore(s, 8, t);
    TakeMore(s1, 1, t);
    TakeStr8More(s2, t);
    TakeSizedMore(s3, t);
    Powers();
    ValueBound(s[..8]);
  }

  /** A request survives exactly when its name and its data fit their length fields. */
  lemma RequestExact(r: Request)
    requires r.id < TWO64
    ensures ParseRequest(RequestBytes(r)).Value() == Some(r) <==> |r.endpoint| < 256 && |r.data| < TWO32
  {
    if RequestFits(r) {
      RequestRoundTrip(r, []);
      assert RequestBytes(r) + [] == RequestBytes(r);
    } else if ParseRequest(RequestBytes(r)).Got? {
      RequestMore(RequestBytes(r), []);
    }
  }

  /** Every truncation of a request is refused. */
  lemma RequestTruncated(r: Request, n: nat)
    requires RequestFits(r) && n < |RequestBytes(r)|
    ensures ParseRequest(RequestBytes(r)[..n]).Fail?
  {
    hide RequestBytes, ParseRequest;
    var s, t := RequestBytes(r)[..n], RequestBytes(r)[n..];
    if ParseRequest(s).Got? {
      RequestMore(s, t);
      assert s + t == RequestBytes(r) + [];
      RequestRoundTrip(r, []);
    }
  }

  // ---- responses -------------------------------------------------------------

  predicate ResponseFits(r: Response) {
    r.id < TWO64 && |r.data| < TWO32
  }

  lemma ResponseRoundTrip(r: Response, tail: seq<byte>)
    requires ResponseFits(r)
    ensures ParseResponse(ResponseBytes(r) + tail) == Got(r, tail)
  {
    var s2 := Sized(r.data) + tail;
    var s1 := [r.status] + s2;
    assert ResponseBytes(r) + tail == Be(r.id, 8) + s1;
    TakeFront(Be(r.id, 8), s1);
    TakeFront([r.status], s2);
    TakeSizedFront(r.data, tail);
    RoundTrip64(r.id);
  }

  lemma ResponseMore(s: seq<byte>, t: seq<byte>)
    requires ParseResponse(s).Got?
    ensures ParseResponse(s + t) == Got(ParseResponse(s).value, ParseResponse(s).rest + t)
    ensures |s| == |ResponseBytes(ParseResponse(s).value)| + |ParseResponse(s).rest|
    ensures ResponseFits(ParseResponse(s).value)
  {
    var s1 := Take(s, 8).rest;
    var s2 := Take(s1, 1).rest;
    TakeMore(s, 8, t);
    TakeMore(s1, 1, t);
    TakeSizedMore(s2, t);
    Powers();
    ValueBound(s[..8]);
  }

  lemma ResponseTruncated(r: Response, n: nat)
    requires ResponseFits(r) && n < |ResponseBytes(r)|
    ensures ParseResponse(ResponseBytes(r)[..n]).Fail?
  {
    hide ResponseBytes, ParseResponse;
    var s, t := ResponseBytes(r)[..n], ResponseBytes(r)[n..];
    if ParseResponse(s).Got? {
      ResponseMore(s, t);
      assert s + t == ResponseBytes(r) + [];
      ResponseRoundTrip(r, []);
    }
  }

  // Nothing else decodes to a response than its own encoding.
  lemma SizedCanonical(s: seq<byte>)
    requires TakeSized(s).Got?
    ensures s == Sized(TakeSized(s).value) + TakeSized(s).rest
  {
    TakeSizedMore(s, []);
    BeOfValue(s[..4]);
    assert s == s[..4] + (TakeSized(s).value + TakeSized(s).rest);
  }

  lemma ResponseCanonical(s: seq<byte>)
    requires ParseResponse(s).Got?
    ensures s == ResponseBytes(ParseResponse(s).value) + ParseResponse(s).rest
  {
    var s2 := s[8..][1..];
    SizedCanonical(s2);
    BeOfValue(s[..8]);
    hide TakeSized, Sized, Be, ValueOf;
    assert s == s[..8] + ([s[8]] + s2);
  }

  // The same bound on the data of a response as on that of a request.
  lemma ResponseExact(r: Response)
    requires r.id < TWO64
    ensures ParseResponse(ResponseBytes(r)).Value() == Some(r) <==> |r.data| < TWO32
  {
    if ResponseFits(r) {
      ResponseRoundTrip(r, []);
      assert ResponseBytes(r) + [] == ResponseBytes(r);
    } else if ParseResponse(ResponseBytes(r)).Got? {
      ResponseMore(ResponseBytes(r), []);
    }
  }

  // ---- stream chunks ---------------------------------------------------------

  predicate ChunkFits(c: StreamChunk) {
    c.id < TWO64 && c.seqNo < TWO32 && |c.endpoint| < 256 && |c.data| < TWO32
  }

  lemma ChunkRoundTrip(c: StreamChunk, tail: seq<byte>)
    requires ChunkFits(c)
    ensures ParseChunk(ChunkBytes(c) + tail) == Got(c, tail)
  {
    var s4 := Sized(c.data) + tail;
    var s3 := Str8(c.endpoint) + s4;
    var s2 := [Flag(c.last)] + s3;
    var s1 := Be(c.seqNo, 4) + s2;
    assert ChunkBytes(c) + tail == Be(c.id, 8) + s1;
    TakeFront(Be(c.id, 8), s1);
    TakeFront(Be(c.seqNo, 4), s2);
    TakeFront([Flag(c.last)], s3);
    TakeStr8Front(c.endpoint, s4);
    TakeSizedFront(c.data, tail);
    RoundTrip64(c.id);
    RoundTrip32(c.seqNo);
  }

  lemma ChunkMore(s: seq<byte>, t: seq<byte>)
    requires ParseChunk(s).Got?
    ensures ParseChunk(s + t) == Got(ParseChunk(s).value, ParseChunk(s).rest + t)
    ensures |s| == |ChunkBytes(ParseChunk(s).value)| + |ParseChunk(s).rest|
    ensures |ParseChunk(s).value.endpoint| < 256 && |ParseChunk(s).value.data| < TWO32
  {
    var s1 := Take(s, 8).rest;
    var s2 := Take(s1, 4).rest;
    var s3 := Take(s2, 1).rest;
    var s4 := TakeStr8(s3).rest;
    TakeMore(s, 8, t);
    TakeMore(s1, 4, t);
    TakeMore(s2, 1, t);
    TakeStr8More(s3, t);
    TakeSizedMore(s4, t);
  }

  // A chunk survives exactly when its endpoint and its data fit their length fields.
  lemma ChunkExact(c: StreamChunk)
    requires c.id < TWO64 && c.seqNo < TWO32
    ensures ParseChunk(ChunkBytes(c)).Value() == Some(c) <==> |c.endpoint| < 256 && |c.data| < TWO32
  {
    if ChunkFits(c) {
      ChunkRoundTrip(c, []);
      assert ChunkBytes(c) + [] == ChunkBytes(c);
    } else if ParseChunk(ChunkBytes(c)).Got? {
      ChunkMore(ChunkBytes(c), []);
    }
  }

  lemma ChunkTruncated(c: StreamChunk, n: nat)
    requires ChunkFits(c) && n < |ChunkBytes(c)|
    ensures ParseChunk(ChunkBytes(c)[..n]).Fail?
  {
    hide ChunkBytes, ParseChunk;
    var s, t := ChunkBytes(c)[..n], ChunkBytes(c)[n..];
    if ParseChunk(s).Got? {
      ChunkMore(s, t);
      assert s + t == ChunkBytes(c) + [];
      ChunkRoundTrip(c, []);
    }
  }

  lemma ErrorRoundTrip(e: ErrorInfo)
    requires e.reason < 65536
    ensures ParseError(ErrorBytes(e)) == Got(e, [])
  {
    Powers();
    ValueOfBe(e.reason, 2);
    TakeFront(Be(e.reason, 2), e.message);
  }

  // ---- hellos ----------------------------------------------------------------

  lemma V1Reads(h: Hello, x: seq<byte>)
    requires |h.service| < 256
    ensures ParseHelloV1(HelloV1Bytes(h) + x) == Got(ToldV1(h), x)
  {
    var s5 := h.signature + x;
    var s4 := Str8(h.service) + s5;
    var s3 := h.nonce + s4;
    var s2 := h.ephemeral + s3;
    var s1 := h.identity + s2;
    assert HelloV1Bytes(h) + x == [h.version] + s1;
    TakeFront([h.version], s1);
    TakeFront(h.identity, s2);
    TakeFront(h.ephemeral, s3);
    TakeFront(h.nonce, s4);
    TakeStr8Front(h.service, s5);
    TakeFront(h.signature, x);
    hide Take, TakeStr8, HelloV1Bytes;
  }

  lemma V1AckReads(a: HelloAck, x: seq<byte>)
    ensures ParseHelloAckV1(HelloAckV1Bytes(a) + x) == Got(AckToldV1(a), x)
  {
    var s6 := a.signature + x;
    var s5 := [a.status] + s6;
    var s4 := a.clientNonce + s5;
    var s3 := a.serverNonce + s4;
    var s2 := a.ephemeral + s3;
    var s1 := a.identity + s2;
    assert HelloAckV1Bytes(a) + x == [a.version] + s1;
    TakeFront([a.version], s1);
    TakeFront(a.identity, s2);
    TakeFront(a.ephemeral, s3);
    TakeFront(a.serverNonce, s4);
    TakeFront(a.clientNonce, s5);
    TakeFront([a.status], s6);
    TakeFront(a.signature, x);
    hide Take, HelloAckV1Bytes;
  }
  /**
    The v1 part of a HELLO reads back with whatever follows it deciding the extension: 65 bytes or
    more are taken for one, fewer are ignored.
  */
  lemma HelloReads(h: Hello, tail: seq<byte>)
    requires |h.service| < 256
    ensures var ext := TakeExtension(tail).value;
            ParseHello(HelloV1Bytes(h) + tail) ==
              Got(h.(maxVersion := ext.0, signatureV2 := ext.1, hasV2 := ext.2), TakeExtension(tail).rest)
  {
    V1Reads(h, tail);
    hide ParseHelloV1, HelloV1Bytes;
  }

  lemma ExtensionReads(v: byte, sig: Bytes64, tail: seq<byte>)
    ensures v >= 2 ==> TakeExtension(Extension(v, sig) + tail) == Got((v, sig, true), tail)
    ensures v < 2 && |tail| < 65 ==> TakeExtension(Extension(v, sig) + tail) == Got((1, Zeros(64), false), tail)
    ensures v < 2 && |tail| >= 65 ==> TakeExtension(Extension(v, sig) + tail).value.2
  {
    var e := Extension(v, sig) + tail;
    if v >= 2 {
      assert e[1..65] == sig && e[65..] == tail;
    } else {
      assert e == tail;
    }
  }

  lemma HelloInTwo(h: Hello, tail: seq<byte>)
    ensures HelloBytes(h) + tail == HelloV1Bytes(h) + (Extension(h.maxVersion, h.signatureV2) + tail)
  {
    hide HelloV1Bytes, Extension;
  }

  lemma AckInTwo(a: HelloAck, tail: seq<byte>)
    ensures HelloAckBytes(a) + tail == HelloAckV1Bytes(a) + (Extension(a.maxVersion, a.signatureV2) + tail)
  {
    hide HelloAckV1Bytes, Extension;
  }

  // What a decoder should make of a HELLO: a v1 one has no extension.
  function Told(h: Hello): Hello {
    if h.maxVersion >= 2 then h.(hasV2 := true) else ToldV1(h)
  }

  function ToldV1(h: Hello): Hello {
    h.(maxVersion := 1, signatureV2 := Zeros(64), hasV2 := false)
  }

  function AckTold(h: HelloAck): HelloAck {
    if h.maxVersion >= 2 then h.(hasV2 := true) else AckToldV1(h)
  }

  function AckToldV1(h: HelloAck): HelloAck {
    h.(maxVersion := 1, signatureV2 := Zeros(64), hasV2 := false)
  }

  /**
    A HELLO is read back, and what follows it ignored, if and only if it is a v2 one or what follows
    is too short to pass for an extension.
  */
  lemma HelloRoundTrip(h: Hello, tail: seq<byte>)
    requires |h.service| < 256
    ensures ParseHello(HelloBytes(h) + tail) == Got(Told(h), tail) <==> h.maxVersion >= 2 || |tail| < 65
  {
    HelloReads(h, Extension(h.maxVersion, h.signatureV2) + tail);
    ExtensionReads(h.maxVersion, h.signatureV2, tail);
    HelloInTwo(h, tail);
    hide HelloV1Bytes, HelloBytes, ParseHello, TakeExtension, Extension;
  }

  lemma HelloAckReads(h: HelloAck, tail: seq<byte>)
    ensures var ext := TakeExtension(tail).value;
            ParseHelloAck(HelloAckV1Bytes(h) + tail) ==
              Got(h.(maxVersion := ext.0, signatureV2 := ext.1, hasV2 := ext.2), TakeExtension(tail).rest)
  {
    V1AckReads(h, tail);
    hide ParseHelloAckV1, HelloAckV1Bytes;
  }

  // The same for a HELLO_ACK.
  lemma HelloAckRoundTrip(h: HelloAck, tail: seq<byte>)
    ensures ParseHelloAck(HelloAckBytes(h) + tail) == Got(AckTold(h), tail) <==> h.maxVersion >= 2 || |tail| < 65
  {
    HelloAckReads(h, Extension(h.maxVersion, h.signatureV2) + tail);
    ExtensionReads(h.maxVersion, h.signatureV2, tail);
    AckInTwo(h, tail);
    hide HelloAckV1Bytes, HelloAckBytes, ParseHelloAck, TakeExtension, Extension;
  }

  /**
    A v1 peer recovers every v1 field of a HELLO or HELLO_ACK, v1 or v2, whatever follows, and takes
    the extension for something that follows.
  */
  lemma V1ReaderSeesV1Fields(h: Hello, a: HelloAck, tail: seq<byte>)
    requires |h.service| < 256
    ensures ParseHelloV1(HelloBytes(h) + tail)
            == Got(ToldV1(h), Extension(h.maxVersion, h.signatureV2) + tail)
    ensures ParseHelloAckV1(HelloAckBytes(a) + tail)
            == Got(AckToldV1(a), Extension(a.maxVersion, a.signatureV2) + tail)
  {
    var x, y := Extension(h.maxVersion, h.signatureV2) + tail, Extension(a.maxVersion, a.signatureV2) + tail;
    HelloInTwo(h, tail);
    AckInTwo(a, tail);
    V1Reads(h, x);
    V1AckReads(a, y);
    hide ParseHelloV1, ParseHelloAckV1, HelloBytes, HelloAckBytes, HelloV1Bytes, HelloAckV1Bytes, Extension;
  }

  // ---- where the fields are --------------------------------------------------

  /** The offsets of a request, response, chunk and error. */
  lemma RequestOffsets(r: Request)
    ensures var b, n := RequestBytes(r), |r.endpoint|;
            && |b| == 14 + n + |r.data|
            && b[..8] == Be(r.id, 8) && b[8] == (if r.oneway then 1 else 0) && b[9] == n % 256 && b[10..10 + n] == r.endpoint
            && b[10 + n..14 + n] == Be(|r.data|, 4) && b[14 + n..] == r.data
  {
    hide Be;
  }

  lemma ResponseOffsets(r: Response)
    ensures var b := ResponseBytes(r);
            |b| == 13 + |r.data| && b[..8] == Be(r.id, 8) && b[8] == r.status && b[9..13] == Be(|r.data|, 4) && b[13..] == r.data
  {
    hide Be;
  }

  lemma ChunkOffsets(c: StreamChunk)
    ensures var b, n := ChunkBytes(c), |c.endpoint|;
            && |b| == 18 + n + |c.data|
            && b[..8] == Be(c.id, 8) && b[8..12] == Be(c.seqNo, 4) && b[12] == (if c.last then 1 else 0)
            && b[13] == n % 256 && b[14..14 + n] == c.endpoint && b[14 + n..18 + n] == Be(|c.data|, 4) && b[18 + n..] == c.data
  {
    hide Be;
  }

  /** The offsets of a hello and an ack: all of a v1 payload comes before the extension, which is there from version 2. */
  lemma HelloOffsets(h: Hello)
    ensures var b, n := HelloBytes(h), |h.service|;
            && |b| == 146 + n + (if h.maxVersion >= 2 then 65 else 0)
            && b[0] == h.version && b[1..33] == h.identity && b[33..65] == h.ephemeral && b[65..81] == h.nonce
            && b[81] == n % 256 && b[82..82 + n] == h.service && b[82 + n..146 + n] == h.signature
            && (h.maxVersion >= 2 ==> b[146 + n] == h.maxVersion && b[147 + n..] == h.signatureV2)
  {
    HelloV1Offsets(h);
    hide HelloV1Bytes;
    var a, b, n := HelloV1Bytes(h), HelloBytes(h), |h.service|;
    assert b[1..33] == a[1..33] && b[33..65] == a[33..65] && b[65..81] == a[65..81];
    assert b[82..82 + n] == a[82..82 + n] && b[82 + n..146 + n] == a[82 + n..];
    assert h.maxVersion >= 2 ==> b[147 + n..] == h.signatureV2;
  }

  lemma HelloV1Offsets(h: Hello)
    ensures var a, n := HelloV1Bytes(h), |h.service|;
            && |a| == 146 + n
            && a[0] == h.version && a[1..33] == h.identity && a[33..65] == h.ephemeral && a[65..81] == h.nonce
            && a[81] == n % 256 && a[82..82 + n] == h.service && a[82 + n..] == h.signature
  {
    var a, n := HelloV1Bytes(h), |h.service|;
    var fixed := [h.version] + h.identity + h.ephemeral + h.nonce;
    assert fixed[1..33] == h.identity && fixed[33..65] == h.ephemeral && fixed[65..] == h.nonce;
    var named := fixed + Str8(h.service);
    assert named[..81] == fixed && named[81] == n % 256 && named[82..] == h.service;
    assert a == named + h.signature;
    hide HelloV1Bytes, Str8;
    assert a[..82 + n] == named && a[82 + n..] == h.signature;
    assert a[1..33] == fixed[1..33] && a[33..65] == fixed[33..65] && a[65..81] == fixed[65..];
    assert a[82..82 + n] == named[82..];
  }

  lemma HelloAckOffsets(h: HelloAck)
    ensures var b := HelloAckBytes(h);
            && |b| == 162 + (if h.maxVersion >= 2 then 65 else 0)
            && b[0] == h.version && b[1..33] == h.identity && b[33..65] == h.ephemeral && b[65..81] == h.serverNonce
            && b[81..97] == h.clientNonce && b[97] == h.status && b[98..162] == h.signature
            && (h.maxVersion >= 2 ==> b[162] == h.maxVersion && b[163..] == h.signatureV2)
  {
    HelloAckV1Offsets(h);
    hide HelloAckV1Bytes;
    var a, b := HelloAckV1Bytes(h), HelloAckBytes(h);
    assert b[1..33] == a[1..33] && b[33..65] == a[33..65] && b[65..81] == a[65..81] && b[81..97] == a[81..97];
    assert b[98..162] == a[98..];
    assert h.maxVersion >= 2 ==> b[163..] == h.signatureV2;
  }

  lemma HelloAckV1Offsets(h: HelloAck)
    ensures var a := HelloAckV1Bytes(h);
            && |a| == 162
            && a[0] == h.version && a[1..33] == h.identity && a[33..65] == h.ephemeral && a[65..81] == h.serverNonce
            && a[81..97] == h.clientNonce && a[97] == h.status && a[98..] == h.signature
  {
    var a := HelloAckV1Bytes(h);
    var keys := [h.version] + h.identity + h.ephemeral;
    assert keys[1..33] == h.identity && keys[33..] == h.ephemeral;
    var fixed := keys + h.serverNonce + h.clientNonce;
    assert fixed[..65] == keys && fixed[65..81] == h.serverNonce && fixed[81..] == h.clientNonce;
    assert a == fixed + [h.status] + h.signature;
    hide HelloAckV1Bytes;
    assert a[..97] == fixed && a[98..] == h.signature;
    assert a[1..33] == keys[1..33] && a[33..65] == keys[33..] && a[65..81] == fixed[65..81] && a[81..97] == fixed[81..];
  }
}
