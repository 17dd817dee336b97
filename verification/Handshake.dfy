/**
  The handshake and its version negotiation, over a network that may deliver any bytes at all.
  Signatures are ideal: a signature of an honest identity verifies only over a message that identity
  signed. Session keys are symbolic, made of the two ephemeral public keys.
*/
module Handshake {
  import opened Options
  import opened Bytes
  import opened Wire
  import opened Codec
  import opened Framing
  import opened Transcripts

  const HELLO_TYPE: byte := 0
  const HELLO_ACK_TYPE: byte := 1
  const PROTOCOL_MIN: byte := 1

  datatype Scheme = Scheme(sign: (Bytes32, seq<byte>) -> Bytes64, verify: (Bytes32, seq<byte>, Bytes64) -> bool)

  // A one-way session key.
  datatype Kx = Kx(client: Bytes32, server: Bytes32, toServer: bool)

  datatype Result = Result(peer: Bytes32, version: byte, tx: Kx, rx: Kx)

  function ClientResult(peer: Bytes32, version: byte, own: Bytes32, theirs: Bytes32): Result {
    Result(peer, version, Kx(own, theirs, true), Kx(own, theirs, false))
  }

  function ServerResult(peer: Bytes32, version: byte, own: Bytes32, theirs: Bytes32): Result {
    Result(peer, version, Kx(theirs, own, false), Kx(theirs, own, true))
  }

  // 0 when the ranges do not overlap.
  function Negotiate(ours: byte, theirs: byte): (v: byte)
    ensures v == 0 || (v >= PROTOCOL_MIN && v <= ours && v <= theirs && (v == ours || v == theirs))
    ensures v == 0 <==> ours < PROTOCOL_MIN || theirs < PROTOCOL_MIN
  {
    var v := if ours < theirs then ours else theirs;
    if v >= PROTOCOL_MIN then v else 0
  }

  // ---- the two sides ---------------------------------------------------------

  datatype Offer = Offer(self: Bytes32, max: byte, ephemeral: Bytes32, nonce: Bytes16, service: seq<byte>)

  function OfferV1(o: Offer): seq<byte> {
    Transcripts.HelloV1(o.ephemeral, o.nonce, o.service)
  }

  function OfferV2(o: Offer): seq<byte> {
    Transcripts.HelloV2(o.max, o.self, o.ephemeral, o.nonce, o.service)
  }

  function MakeHello(sch: Scheme, o: Offer): Hello {
    Hello(1, o.self, o.ephemeral, o.nonce, o.service, sch.sign(o.self, OfferV1(o)), o.max,
          if o.max >= 2 then sch.sign(o.self, OfferV2(o)) else Zeros(64), false)
  }

  // What the client makes of the HELLO_ACK it got.
  function ClientAccepts(sch: Scheme, o: Offer, trusted: Bytes32 -> bool, ack: HelloAck): Option<Result> {
    if ack.status != 0 || ack.clientNonce != o.nonce || !trusted(ack.identity) then None else
    if !sch.verify(ack.identity, AckV1(ack.ephemeral, ack.serverNonce, ack.clientNonce), ack.signature) then None else
    var v := Negotiate(o.max, ack.maxVersion);
    if v == 0 then None else
    if v >= 2 && !(ack.hasV2 &&
                   sch.verify(ack.identity,
                              AckV2(ack.maxVersion, v, ack.status, ack.identity, o.self,
                                    ack.ephemeral, ack.serverNonce, ack.clientNonce),
                              ack.signatureV2)) then None else
    Some(ClientResult(ack.identity, v, o.ephemeral, ack.ephemeral))
  }

  // One server run that answered: what it got, what it decided.
  datatype Answer = Answer(self: Bytes32, max: byte, hello: Hello, ephemeral: Bytes32, nonce: Bytes16, status: byte)

  function Agreed(a: Answer): byte {
    Negotiate(a.max, a.hello.maxVersion)
  }

  function AnswerV1(a: Answer): seq<byte> {
    AckV1(a.ephemeral, a.nonce, a.hello.nonce)
  }

  function AnswerV2(a: Answer): seq<byte> {
    AckV2(a.max, Agreed(a), a.status, a.self, a.hello.identity, a.ephemeral, a.nonce, a.hello.nonce)
  }

  function MakeAck(sch: Scheme, a: Answer): HelloAck {
    HelloAck(1, a.self, a.ephemeral, a.nonce, a.hello.nonce, a.status, sch.sign(a.self, AnswerV1(a)), a.max,
             if a.max >= 2 then sch.sign(a.self, AnswerV2(a)) else Zeros(64), false)
  }

  // The transcript a v2 server demands of the client.
  function HelloTranscript(h: Hello): seq<byte> {
    Transcripts.HelloV2(h.maxVersion, h.identity, h.ephemeral, h.nonce, h.service)
  }

  predicate Vouched(sch: Scheme, max: byte, h: Hello) {
    && sch.verify(h.identity, Transcripts.HelloV1(h.ephemeral, h.nonce, h.service), h.signature)
    && (Negotiate(max, h.maxVersion) >= 2 ==> h.hasV2 && sch.verify(h.identity, HelloTranscript(h), h.signatureV2))
  }

  // The answer a server gives, if it gives one: to a HELLO for its own service at a version it speaks.
  function ServerAnswers(sch: Scheme, self: Bytes32, max: byte, service: seq<byte>, trusted: Bytes32 -> bool,
                         ephemeral: Bytes32, nonce: Bytes16, h: Hello): Option<Answer> {
    if h.version != 1 || h.service != service || Negotiate(max, h.maxVersion) == 0 then None else
    Some(Answer(self, max, h, ephemeral, nonce, if Vouched(sch, max, h) && trusted(h.identity) then 0 else 1))
  }

  function ServerAccepts(a: Answer): Option<Result> {
    if a.status != 0 then None
    else Some(ServerResult(a.hello.identity, Agreed(a), a.ephemeral, a.hello.ephemeral))
  }

  // ---- the code --------------------------------------------------------------

  function HelloFrame(sch: Scheme, o: Offer): RawFrame {
    RawFrame(HELLO_TYPE, 0, 0, HelloBytes(MakeHello(sch, o)))
  }

  function AckFrame(sch: Scheme, a: Answer): RawFrame {
    RawFrame(HELLO_ACK_TYPE, 0, 0, HelloAckBytes(MakeAck(sch, a)))
  }

  function ClientOutcome(sch: Scheme, o: Offer, trusted: Bytes32 -> bool, read: Read): Option<Result> {
    if read.End? || read.f.ty != HELLO_ACK_TYPE || ParseHelloAck(read.f.body).Fail? then None
    else ClientAccepts(sch, o, trusted, ParseHelloAck(read.f.body).value)
  }

  function ServerOutcome(sch: Scheme, self: Bytes32, max: byte, service: seq<byte>, trusted: Bytes32 -> bool,
                         ephemeral: Bytes32, nonce: Bytes16, read: Read): Option<Answer> {
    if read.End? || read.f.ty != HELLO_TYPE || ParseHello(read.f.body).Fail? then None
    else ServerAnswers(sch, self, max, service, trusted, ephemeral, nonce, ParseHello(read.f.body).value)
  }

  // What a client completes on: an ack to this very nonce that says yes, from a trusted identity, with
  // the signatures that the version needs.
  predicate Satisfies(sch: Scheme, o: Offer, trusted: Bytes32 -> bool, read: Read) {
    && !read.End? && read.f.ty == HELLO_ACK_TYPE && ParseHelloAck(read.f.body).Got?
    && var k := ParseHelloAck(read.f.body).value;
       && k.status == 0 && k.clientNonce == o.nonce && trusted(k.identity)
       && o.max >= 1 && k.maxVersion >= 1
       && sch.verify(k.identity, AckV1(k.ephemeral, k.serverNonce, o.nonce), k.signature)
       && (o.max >= 2 && k.maxVersion >= 2 ==>
             && k.hasV2
             && sch.verify(k.identity,
                           AckV2(k.maxVersion, if o.max < k.maxVersion then o.max else k.maxVersion, 0, k.identity, o.self,
                                 k.ephemeral, k.serverNonce, o.nonce),
                           k.signatureV2))
  }

  // What a server answers: a hello for its own service at a version it speaks.
  predicate Answerable(max: byte, service: seq<byte>, read: Read) {
    && !read.End? && read.f.ty == HELLO_TYPE && ParseHello(read.f.body).Got?
    && var h := ParseHello(read.f.body).value;
       h.version == 1 && h.service == service && max >= 1 && h.maxVersion >= 1
  }

  // What it accepts: one from a trusted identity, with the signatures that the version needs.
  predicate Welcome(sch: Scheme, max: byte, service: seq<byte>, trusted: Bytes32 -> bool, read: Read) {
    && Answerable(max, service, read)
    && var h := ParseHello(read.f.body).value;
       && trusted(h.identity)
       && sch.verify(h.identity, Transcripts.HelloV1(h.ephemeral, h.nonce, h.service), h.signature)
       && (max >= 2 && h.maxVersion >= 2 ==>
             h.hasV2 && sch.verify(h.identity, Transcripts.HelloV2(h.maxVersion, h.identity, h.ephemeral, h.nonce, h.service), h.signatureV2))
  }

  /** A client completes with exactly the acks it should, and with the peer it trusts. */
  lemma ClientCompletesIff(sch: Scheme, o: Offer, trusted: Bytes32 -> bool, read: Read)
    ensures var r := ClientOutcome(sch, o, trusted, read);
            && (r.Some? <==> Satisfies(sch, o, trusted, read))
            && (r.Some? ==> r.value.peer == ParseHelloAck(read.f.body).value.identity && trusted(r.value.peer))
  {
    hide ParseHelloAck, AckV1, AckV2;
  }

  /**
    A server answers exactly the hellos it should, and accepts exactly those of trusted identities that
    vouch for the version; every other answer says no.
  */
  lemma ServerAcceptsIff(sch: Scheme, self: Bytes32, max: byte, service: seq<byte>, trusted: Bytes32 -> bool,
                         ephemeral: Bytes32, nonce: Bytes16, read: Read)
    ensures var a := ServerOutcome(sch, self, max, service, trusted, ephemeral, nonce, read);
            && (a.Some? <==> Answerable(max, service, read))
            && (a.Some? ==>
                  && a.value.hello == ParseHello(read.f.body).value
                  && MakeAck(sch, a.value).status == (if Welcome(sch, max, service, trusted, read) then 0 else 1)
                  && (ServerAccepts(a.value).Some? <==> Welcome(sch, max, service, trusted, read))
                  && (ServerAccepts(a.value).Some? ==> ServerAccepts(a.value).value.peer == a.value.hello.identity))
  {
    hide ParseHello, Transcripts.HelloV1, Transcripts.HelloV2;
  }

  // Handshake frames are not sealed: counter and epoch are 0, whatever is negotiated.
  lemma HandshakeFramesPlain(sch: Scheme, o: Offer, a: Answer)
    ensures HelloFrame(sch, o) == RawFrame(HELLO_TYPE, 0, 0, HelloFrame(sch, o).body)
    ensures AckFrame(sch, a) == RawFrame(HELLO_ACK_TYPE, 0, 0, AckFrame(sch, a).body)
    ensures MakeHello(sch, o).version == 1 && MakeAck(sch, a).version == 1
  {
  }

  // Sends the HELLO whole, then decides on the first frame that comes back.
  method ClientHandshake(t: Transport, sch: Scheme, o: Offer, trusted: Bytes32 -> bool) returns (r: Option<Result>)
    modifies t
    ensures var size := |FrameBytes(HelloFrame(sch, o), false)|;
            && r == (if old(t.budget) < size then None
                     else ClientOutcome(sch, o, trusted, Framing.ReadFrame(old(t.incoming), false)))
            && (old(t.budget) >= size ==> t.outgoing == old(t.outgoing) + FrameBytes(HelloFrame(sch, o), false))
            && (r.Some? <==> old(t.budget) >= size && Satisfies(sch, o, trusted, Framing.ReadFrame(old(t.incoming), false)))
    ensures r.Some? ==> trusted(r.value.peer)
  {
    hide Satisfies, FrameBytes, Framing.ReadFrame, ParseHelloAck, HelloBytes, AckV1, AckV2, Transcripts.HelloV1, Transcripts.HelloV2;
    ClientCompletesIff(sch, o, trusted, Framing.ReadFrame(t.incoming, false));
    var hello := Hello(1, o.self, o.ephemeral, o.nonce, o.service,
                       sch.sign(o.self, Transcripts.HelloV1(o.ephemeral, o.nonce, o.service)), o.max, Zeros(64), false);
    if o.max >= 2 {
      hello := hello.(signatureV2 := sch.sign(o.self, Transcripts.HelloV2(o.max, o.self, o.ephemeral, o.nonce, o.service)));
    }
    var body := EncodeHello(hello);
    var ok := t.WriteFrame(RawFrame(HELLO_TYPE, 0, 0, body), false);
    if !ok { return None; }
    var frame := t.ReadNext(false);
    if frame.None? || frame.value.ty != HELLO_ACK_TYPE { return None; }
    var dec := DecodeHelloAck(frame.value.body);
    if dec.None? { return None; }
    var ack := dec.value;
    if ack.status != 0 { return None; }
    if ack.clientNonce != o.nonce { return None; }
    if !trusted(ack.identity) { return None; }
    if !sch.verify(ack.identity, AckV1(ack.ephemeral, ack.serverNonce, ack.clientNonce), ack.signature) { return None; }
    var negotiated := Negotiate(o.max, ack.maxVersion);
    if negotiated == 0 { return None; }
    if negotiated >= 2 {
      if !ack.hasV2 { return None; }
      var transcript := AckV2(ack.maxVersion, negotiated, ack.status, ack.identity, o.self,
                              ack.ephemeral, ack.serverNonce, ack.clientNonce);
      if !sch.verify(ack.identity, transcript, ack.signatureV2) { return None; }
    }
    return Some(ClientResult(ack.identity, negotiated, o.ephemeral, ack.ephemeral));
  }

  // Decides on the first frame; an answer, accepting or not, goes out before the result is returned.
  method ServerHandshake(t: Transport, sch: Scheme, self: Bytes32, max: byte, service: seq<byte>,
                         trusted: Bytes32 -> bool, ephemeral: Bytes32, nonce: Bytes16) returns (r: Option<Result>)
    modifies t
    ensures var a := ServerOutcome(sch, self, max, service, trusted, ephemeral, nonce, Framing.ReadFrame(old(t.incoming), false));
            match a
            case None => r == None && t.outgoing == old(t.outgoing)
            case Some(a) =>
              var frame := FrameBytes(AckFrame(sch, a), false);
              && r == (if old(t.budget) < |frame| then None else ServerAccepts(a))
              && (old(t.budget) >= |frame| ==> t.outgoing == old(t.outgoing) + frame)
              && (r.Some? <==> old(t.budget) >= |frame| && Welcome(sch, max, service, trusted, Framing.ReadFrame(old(t.incoming), false)))
    ensures r.Some? ==> trusted(r.value.peer)
  {
    hide Welcome, Answerable, FrameBytes, Framing.ReadFrame, ParseHello, HelloAckBytes, AckV1, AckV2, Transcripts.HelloV1, Transcripts.HelloV2;
    ServerAcceptsIff(sch, self, max, service, trusted, ephemeral, nonce, Framing.ReadFrame(t.incoming, false));
    var frame := t.ReadNext(false);
    if frame.None? || frame.value.ty != HELLO_TYPE { return None; }
    var dec := DecodeHello(frame.value.body);
    if dec.None? { return None; }
    var h := dec.value;
    if h.version != 1 { return None; }
    if h.service != service { return None; }
    var negotiated := Negotiate(max, h.maxVersion);
    if negotiated == 0 { return None; }
    var sigOk := sch.verify(h.identity, Transcripts.HelloV1(h.ephemeral, h.nonce, h.service), h.signature);
    if sigOk && negotiated >= 2 {
      sigOk := h.hasV2 && sch.verify(h.identity, HelloTranscript(h), h.signatureV2);
    }
    var accept := sigOk && trusted(h.identity);
    var status: byte := if accept then 0 else 1;
    var ack := HelloAck(1, self, ephemeral, nonce, h.nonce, status,
                        sch.sign(self, AckV1(ephemeral, nonce, h.nonce)), max, Zeros(64), false);
    if max >= 2 {
      ack := ack.(signatureV2 := sch.sign(self, AckV2(max, negotiated, status, self, h.identity, ephemeral, nonce, h.nonce)));
    }
    var body := EncodeHelloAck(ack);
    var ok := t.WriteFrame(RawFrame(HELLO_ACK_TYPE, 0, 0, body), false);
    if !ok { return None; }
    if !accept { return None; }
    return Some(ServerResult(h.identity, negotiated, ephemeral, h.ephemeral));
  }

  // ---- everything honest parties ever did ------------------------------------

  datatype World = World(offers: seq<Offer>, answers: seq<Answer>, minted: set<Statement>, signed: set<(Bytes32, seq<byte>)>)

  const START := World([], [], {}, {})

  datatype Event =
    | Offered(o: Offer)
    | Answered(a: Answer)
    | Minted(st: Statement)

  function After(w: World, e: Event): World {
    match e
    case Offered(o) =>
      w.(offers := w.offers + [o],
         signed := w.signed + {(o.self, OfferV1(o))} + if o.max >= 2 then {(o.self, OfferV2(o))} else {})
    case Answered(a) =>
      w.(answers := w.answers + [a],
         signed := w.signed + {(a.self, AnswerV1(a))} + if a.max >= 2 then {(a.self, AnswerV2(a))} else {})
    case Minted(st) => w.(minted := w.minted + {st}, signed := w.signed + {(st.issuer, StatementBytes(st))})
  }

  // Signatures of honest identities exist only over what they signed.
  ghost predicate Sound(sch: Scheme, honest: set<Bytes32>, w: World) {
    forall pk, m, s :: pk in honest && sch.verify(pk, m, s) ==> (pk, m) in w.signed
  }

  ghost predicate NonceUnused(w: World, n: Bytes16) {
    forall i :: 0 <= i < |w.offers| ==> w.offers[i].nonce != n
  }

  ghost predicate EphemeralUnused(w: World, e: Bytes32) {
    && (forall i :: 0 <= i < |w.offers| ==> w.offers[i].ephemeral != e)
    && (forall i :: 0 <= i < |w.answers| ==> w.answers[i].ephemeral != e)
  }

  // A server only answers what its code answers, to whatever bytes arrived.
  ghost predicate Legitimate(w: World, a: Answer, honest: set<Bytes32>) {
    && (exists body :: ParseHello(body).Value() == Some(a.hello))
    && exists sch, service, trusted ::
         && Sound(sch, honest, w)
         && ServerAnswers(sch, a.self, a.max, service, trusted, a.ephemeral, a.nonce, a.hello) == Some(a)
  }

  // Nonces and ephemerals are fresh, and random enough not to begin with a tag.
  ghost predicate Legal(w: World, e: Event, honest: set<Bytes32>) {
    match e
    case Offered(o) => NonceUnused(w, o.nonce) && EphemeralUnused(w, o.ephemeral) && !SpellsTag(o.ephemeral)
    case Answered(a) => EphemeralUnused(w, a.ephemeral) && !SpellsTag(a.ephemeral) && Legitimate(w, a, honest)
    case Minted(_) => true
  }

  ghost predicate Run(ws: seq<World>, es: seq<Event>, honest: set<Bytes32>) {
    && |ws| == |es| + 1 && ws[0] == START
    && forall i :: 0 <= i < |es| ==> Legal(ws[i], es[i], honest) && ws[i + 1] == After(ws[i], es[i])
  }

  // Where a signed message comes from.
  ghost predicate Explained(w: World, who: Bytes32, m: seq<byte>) {
    || (exists i :: 0 <= i < |w.offers| && w.offers[i].self == who && m == OfferV1(w.offers[i]))
    || (exists i :: 0 <= i < |w.offers| && w.offers[i].self == who && m == OfferV2(w.offers[i]))
    || (exists i :: 0 <= i < |w.answers| && w.answers[i].self == who && m == AnswerV1(w.answers[i]))
    || (exists i :: 0 <= i < |w.answers| && w.answers[i].self == who && m == AnswerV2(w.answers[i]))
    || (exists st :: st in w.minted && st.issuer == who && m == StatementBytes(st))
  }

  ghost predicate AnswerSound(w: World, a: Answer, honest: set<Bytes32>) {
    && Agreed(a) != 0 && !SpellsTag(a.ephemeral)
    && (!a.hello.hasV2 ==> a.hello.maxVersion == 1)
    && (a.status == 0 && a.hello.identity in honest ==>
          && (a.hello.identity, Transcripts.HelloV1(a.hello.ephemeral, a.hello.nonce, a.hello.service)) in w.signed
          && (Agreed(a) >= 2 ==> (a.hello.identity, HelloTranscript(a.hello)) in w.signed))
  }

  // All ephemerals are different.
  ghost predicate Ephemerals(w: World) {
    && (forall i, j :: 0 <= i < j < |w.offers| ==> w.offers[i].ephemeral != w.offers[j].ephemeral)
    && (forall i, j :: 0 <= i < j < |w.answers| ==> w.answers[i].ephemeral != w.answers[j].ephemeral)
    && (forall i, j :: 0 <= i < |w.offers| && 0 <= j < |w.answers| ==> w.offers[i].ephemeral != w.answers[j].ephemeral)
  }

  ghost predicate Inv(w: World, honest: set<Bytes32>) {
    && (forall who, m :: (who, m) in w.signed ==> Explained(w, who, m))
    && (forall i, j :: 0 <= i < j < |w.offers| ==> w.offers[i].nonce != w.offers[j].nonce)
    && (forall i :: 0 <= i < |w.offers| ==> !SpellsTag(w.offers[i].ephemeral))
    && (forall i :: 0 <= i < |w.answers| ==> AnswerSound(w, w.answers[i], honest))
    && Ephemerals(w)
  }

  lemma StillExplained(w: World, e: Event, who: Bytes32, m: seq<byte>)
    requires Explained(w, who, m)
    ensures Explained(After(w, e), who, m)
  {
    var w' := After(w, e);
    assert forall i :: 0 <= i < |w.offers| ==> w'.offers[i] == w.offers[i];
    assert forall i :: 0 <= i < |w.answers| ==> w'.answers[i] == w.answers[i];
  }

  lemma NewlyExplained(w: World, e: Event, who: Bytes32, m: seq<byte>)
    requires (who, m) in After(w, e).signed && (who, m) !in w.signed
    ensures Explained(After(w, e), who, m)
  {
    var w' := After(w, e);
    match e
    case Offered(o) => assert w'.offers[|w.offers|] == o;
    case Answered(a) => assert w'.answers[|w.answers|] == a;
    case Minted(st) => assert st in w'.minted;
  }

  lemma NewAnswerSound(w: World, a: Answer, honest: set<Bytes32>)
    requires Legal(w, Answered(a), honest)
    ensures AnswerSound(w, a, honest)
  {
    hide SpellsTag, Transcripts.HelloV1, HelloTranscript;
    var body :| ParseHello(body).Value() == Some(a.hello);
    ExtensionOrNot(body);
    hide ParseHello;
  }

  lemma ExtensionOrNot(body: seq<byte>)
    ensures ParseHello(body).Got? && !ParseHello(body).value.hasV2 ==> ParseHello(body).value.maxVersion == 1
    ensures ParseHelloAck(body).Got? && !ParseHelloAck(body).value.hasV2 ==> ParseHelloAck(body).value.maxVersion == 1
  {
    hide ParseHelloV1, ParseHelloAckV1;
  }

  lemma StepInv(w: World, e: Event, honest: set<Bytes32>)
    requires Inv(w, honest) && Legal(w, e, honest)
    ensures Inv(After(w, e), honest)
  {
    hide SpellsTag, Legitimate;
    var w' := After(w, e);
    forall who, m | (who, m) in w'.signed ensures Explained(w', who, m) {
      if (who, m) in w.signed { StillExplained(w, e, who, m); } else { NewlyExplained(w, e, who, m); }
    }
    forall i | 0 <= i < |w'.answers| ensures AnswerSound(w', w'.answers[i], honest) {
      if i < |w.answers| { assert AnswerSound(w, w.answers[i], honest); } else { NewAnswerSound(w, e.a, honest); }
    }
    hide Explained, AnswerSound, Ephemerals;
    FreshStays(w, e, honest);
  }

  lemma FreshStays(w: World, e: Event, honest: set<Bytes32>)
    requires Ephemerals(w) && Legal(w, e, honest)
    ensures Ephemerals(After(w, e))
  {
    hide SpellsTag, Legitimate, OfferV1, OfferV2, AnswerV1, AnswerV2, StatementBytes;
  }

  lemma {:induction false} RunInv(ws: seq<World>, es: seq<Event>, honest: set<Bytes32>)
    requires Run(ws, es, honest)
    ensures Inv(ws[|es|], honest)
  {
    if |es| > 0 {
      var n := |es| - 1;
      RunInv(ws[..n + 1], es[..n], honest);
      StepInv(ws[n], es[n], honest);
    }
  }

  // ---- where signatures come from --------------------------------------------

  lemma OfferTagged(o: Offer)
    ensures TAG_HELLO <= OfferV2(o) && |OfferV2(o)| == 93 + |o.service| && |OfferV1(o)| == 48 + |o.service|
  {
    assert OfferV2(o)[..12] == TAG_HELLO;
  }

  lemma AnswerTagged(a: Answer)
    ensures TAG_ACK <= AnswerV2(a) && |AnswerV2(a)| == 141 && |AnswerV1(a)| == 64
  {
    assert AnswerV2(a)[..10] == TAG_ACK;
  }

  ghost predicate FromOffer(w: World, who: Bytes32, m: seq<byte>) {
    exists i :: 0 <= i < |w.offers| && w.offers[i].self == who && m == OfferV1(w.offers[i])
  }

  ghost predicate FromAnswer(w: World, who: Bytes32, m: seq<byte>) {
    exists i :: 0 <= i < |w.answers| && w.answers[i].self == who && m == AnswerV1(w.answers[i])
  }

  // What an honest identity signed and begins with no tag is a v1 transcript.
  lemma UntaggedIsV1(w: World, honest: set<Bytes32>, who: Bytes32, m: seq<byte>)
    requires Inv(w, honest) && (who, m) in w.signed
    requires !(TAG_HELLO <= m) && !(TAG_ACK <= m) && !(TAG_CREDENTIAL <= m)
    ensures FromOffer(w, who, m) || FromAnswer(w, who, m)
  {
    assert Explained(w, who, m);
    forall i | 0 <= i < |w.offers| ensures m != OfferV2(w.offers[i]) { OfferTagged(w.offers[i]); }
    forall i | 0 <= i < |w.answers| ensures m != AnswerV2(w.answers[i]) { AnswerTagged(w.answers[i]); }
    forall st | st in w.minted ensures m != StatementBytes(st) { StatementTagged(st); }
  }

  // What begins with a tag is no v1 transcript of an honest identity, and of one kind only.
  lemma TaggedIsNoV1(w: World, honest: set<Bytes32>, who: Bytes32, m: seq<byte>)
    requires Inv(w, honest) && (TAG_HELLO <= m || TAG_ACK <= m || TAG_CREDENTIAL <= m)
    ensures forall i :: 0 <= i < |w.offers| ==> m != OfferV1(w.offers[i])
    ensures forall i :: 0 <= i < |w.answers| ==> m != AnswerV1(w.answers[i])
  {
    hide TAG_HELLO, TAG_ACK, TAG_CREDENTIAL;
    forall i | 0 <= i < |w.offers| ensures m != OfferV1(w.offers[i]) {
      var o := w.offers[i];
      V1TaggedIff(o.ephemeral, o.nonce, o.service, o.nonce);
    }
    forall i | 0 <= i < |w.answers| ensures m != AnswerV1(w.answers[i]) {
      var a := w.answers[i];
      assert AnswerSound(w, a, honest);
      V1TaggedIff(a.ephemeral, a.nonce, [], a.hello.nonce);
    }
  }

  // An acknowledgement transcript an honest identity signed is a server run's.
  lemma AckComesFromServer(w: World, honest: set<Bytes32>, who: Bytes32, m: seq<byte>)
    requires Inv(w, honest) && (who, m) in w.signed && TAG_ACK <= m
    ensures exists i :: 0 <= i < |w.answers| && w.answers[i].self == who && m == AnswerV2(w.answers[i])
  {
    assert Explained(w, who, m);
    TaggedIsNoV1(w, honest, who, m);
    OneTag(m);
    forall i | 0 <= i < |w.offers| ensures m != OfferV2(w.offers[i]) { OfferTagged(w.offers[i]); }
    forall st | st in w.minted ensures m != StatementBytes(st) { StatementTagged(st); }
  }

  // A v2 hello transcript an honest identity signed is a client run's.
  lemma HelloComesFromClient(w: World, honest: set<Bytes32>, who: Bytes32, m: seq<byte>)
    requires Inv(w, honest) && (who, m) in w.signed && TAG_HELLO <= m
    ensures exists i :: 0 <= i < |w.offers| && w.offers[i].self == who && m == OfferV2(w.offers[i])
  {
    assert Explained(w, who, m);
    TaggedIsNoV1(w, honest, who, m);
    OneTag(m);
    forall i | 0 <= i < |w.answers| ensures m != AnswerV2(w.answers[i]) { AnswerTagged(w.answers[i]); }
    forall st | st in w.minted ensures m != StatementBytes(st) { StatementTagged(st); }
  }

  // A credential statement an honest identity signed is one it minted.
  lemma StatementIsMinted(w: World, honest: set<Bytes32>, who: Bytes32, m: seq<byte>)
    requires Inv(w, honest) && (who, m) in w.signed && TAG_CREDENTIAL <= m
    ensures exists st :: st in w.minted && st.issuer == who && m == StatementBytes(st)
  {
    assert Explained(w, who, m);
    TaggedIsNoV1(w, honest, who, m);
    OneTag(m);
    forall i | 0 <= i < |w.offers| ensures m != OfferV2(w.offers[i]) { OfferTagged(w.offers[i]); }
    forall i | 0 <= i < |w.answers| ensures m != AnswerV2(w.answers[i]) { AnswerTagged(w.answers[i]); }
  }

  // ---- whose ephemeral an end took -------------------------------------------

  ghost predicate Generated(w: World, e: Bytes32) {
    || (exists i :: 0 <= i < |w.offers| && w.offers[i].ephemeral == e)
    || (exists i :: 0 <= i < |w.answers| && w.answers[i].ephemeral == e)
  }

  // This identity answered this nonce with this ephemeral.
  ghost predicate AnsweredWith(w: World, who: Bytes32, e: Bytes32, own: Bytes16, nonce: Bytes16) {
    exists i :: 0 <= i < |w.answers| && w.answers[i].self == who && w.answers[i].ephemeral == e
                && w.answers[i].nonce == own && w.answers[i].hello.nonce == nonce
  }

  // This identity asked for this service with this ephemeral and nonce.
  ghost predicate AskedWith(w: World, who: Bytes32, e: Bytes32, own: Bytes16, service: seq<byte>) {
    exists i :: 0 <= i < |w.offers| && w.offers[i].self == who && w.offers[i].ephemeral == e
                && w.offers[i].nonce == own && w.offers[i].service == service
  }

  lemma FromOfferAsked(w: World, who: Bytes32, e: Bytes32, n: Bytes16, s: seq<byte>)
    requires FromOffer(w, who, Transcripts.HelloV1(e, n, s))
    ensures AskedWith(w, who, e, n, s)
  {
    var i :| 0 <= i < |w.offers| && w.offers[i].self == who && Transcripts.HelloV1(e, n, s) == OfferV1(w.offers[i]);
    HelloV1Injective(e, n, s, w.offers[i].ephemeral, w.offers[i].nonce, w.offers[i].service);
  }

  lemma FromAnswerAnswered(w: World, who: Bytes32, e: Bytes32, n: Bytes16, s: seq<byte>)
    requires FromAnswer(w, who, Transcripts.HelloV1(e, n, s))
    ensures |s| == 16 && AnsweredWith(w, who, e, n, s)
  {
    var i :| 0 <= i < |w.answers| && w.answers[i].self == who && Transcripts.HelloV1(e, n, s) == AnswerV1(w.answers[i]);
    var a := w.answers[i];
    AckV1IsHelloV1(a.ephemeral, a.nonce, a.hello.nonce, e, n, s);
  }

  /**
    A client that completes with an honest identity, at any version, took an ephemeral of that
    identity: one it answered this very nonce with - or, since a v1 ack reads as a v1 hello for a
    service of 16 bytes, one it sent itself to a service named like the nonce.
  */
  lemma ClientTakesSignedEphemeral(ws: seq<World>, es: seq<Event>, honest: set<Bytes32>, sch: Scheme, o: Offer,
                                   trusted: Bytes32 -> bool, ack: HelloAck)
    requires Run(ws, es, honest) && Sound(sch, honest, ws[|es|])
    requires ClientAccepts(sch, o, trusted, ack).Some? && ack.identity in honest
    ensures || AnsweredWith(ws[|es|], ack.identity, ack.ephemeral, ack.serverNonce, o.nonce)
            || AskedWith(ws[|es|], ack.identity, ack.ephemeral, ack.serverNonce, o.nonce)
  {
    RunInv(ws, es, honest);
    var w := ws[|es|];
    var m := AckV1(ack.ephemeral, ack.serverNonce, o.nonce);
    AckV1IsHelloV1(ack.ephemeral, ack.serverNonce, o.nonce, ack.ephemeral, ack.serverNonce, o.nonce);
    assert (ack.identity, m) in w.signed;
    ShortIsV1(w, honest, ack.identity, m);
    if FromOffer(w, ack.identity, m) {
      FromOfferAsked(w, ack.identity, ack.ephemeral, ack.serverNonce, o.nonce);
    } else {
      FromAnswerAnswered(w, ack.identity, ack.ephemeral, ack.serverNonce, o.nonce);
    }
  }

  // Every tagged transcript is longer than a v1 hello for a service of at most 40 bytes.
  lemma ShortIsV1(w: World, honest: set<Bytes32>, who: Bytes32, m: seq<byte>)
    requires Inv(w, honest) && (who, m) in w.signed && |m| < 89
    ensures FromOffer(w, who, m) || FromAnswer(w, who, m)
  {
    assert Explained(w, who, m);
    forall i | 0 <= i < |w.offers| ensures m != OfferV2(w.offers[i]) { OfferTagged(w.offers[i]); }
    forall i | 0 <= i < |w.answers| ensures m != AnswerV2(w.answers[i]) { AnswerTagged(w.answers[i]); }
    forall st | st in w.minted ensures m != StatementBytes(st) { StatementTagged(st); }
  }

  /**
    A server that accepts an honest identity, at any version, took an ephemeral of that identity - of
    one of its own requests for this service with this nonce, or, for a service of 16 bytes, one it
    answered with - if and only if the ephemeral does not begin with a tag. At version 2 or higher, and
    for services of at most 40 bytes, it never does.
  */
  lemma ServerTakesSignedEphemeral(ws: seq<World>, es: seq<Event>, honest: set<Bytes32>, s: nat)
    requires Run(ws, es, honest) && s < |ws[|es|].answers|
    requires ServerAccepts(ws[|es|].answers[s]).Some? && ws[|es|].answers[s].hello.identity in honest
    ensures var h := ws[|es|].answers[s].hello;
            || AskedWith(ws[|es|], h.identity, h.ephemeral, h.nonce, h.service)
            || (|h.service| == 16 && AnsweredWith(ws[|es|], h.identity, h.ephemeral, h.nonce, h.service))
            <==> !SpellsTag(h.ephemeral)
    ensures var a := ws[|es|].answers[s]; SpellsTag(a.hello.ephemeral) ==> Agreed(a) == 1 && |a.hello.service| > 40
  {
    RunInv(ws, es, honest);
    var w := ws[|es|];
    var a := w.answers[s];
    var h := a.hello;
    assert AnswerSound(w, a, honest);
    GeneratedIsUntagged(w, honest, h.ephemeral);
    hide SpellsTag;
    var m := Transcripts.HelloV1(h.ephemeral, h.nonce, h.service);
    if Agreed(a) >= 2 {
      var k := HelloIsAnOffer(w, honest, h);
    } else if !SpellsTag(h.ephemeral) {
      UntaggedV1(h.ephemeral, h.nonce, h.service);
      UntaggedIsV1(w, honest, h.identity, m);
      V1Taken(w, h);
    } else if |h.service| <= 40 {
      ShortIsV1(w, honest, h.identity, m);
      V1Taken(w, h);
    }
  }

  lemma UntaggedV1(e: Bytes32, n: Bytes16, s: seq<byte>)
    requires !SpellsTag(e)
    ensures var m := Transcripts.HelloV1(e, n, s); !(TAG_HELLO <= m) && !(TAG_ACK <= m) && !(TAG_CREDENTIAL <= m)
  {
    V1TaggedIff(e, n, s, n);
  }

  lemma V1Taken(w: World, h: Hello)
    requires var m := Transcripts.HelloV1(h.ephemeral, h.nonce, h.service);
             FromOffer(w, h.identity, m) || FromAnswer(w, h.identity, m)
    ensures || AskedWith(w, h.identity, h.ephemeral, h.nonce, h.service)
            || (|h.service| == 16 && AnsweredWith(w, h.identity, h.ephemeral, h.nonce, h.service))
  {
    if FromOffer(w, h.identity, Transcripts.HelloV1(h.ephemeral, h.nonce, h.service)) {
      FromOfferAsked(w, h.identity, h.ephemeral, h.nonce, h.service);
    } else {
      FromAnswerAnswered(w, h.identity, h.ephemeral, h.nonce, h.service);
    }
  }

  lemma GeneratedIsUntagged(w: World, honest: set<Bytes32>, e: Bytes32)
    requires Inv(w, honest)
    ensures Generated(w, e) ==> !SpellsTag(e)
  {
    forall i | 0 <= i < |w.answers| ensures !SpellsTag(w.answers[i].ephemeral) { assert AnswerSound(w, w.answers[i], honest); }
  }

  predicate SameHello(o: Offer, h: Hello) {
    o.self == h.identity && o.max == h.maxVersion && o.ephemeral == h.ephemeral && o.nonce == h.nonce && o.service == h.service
  }

  lemma HelloIsAnOffer(w: World, honest: set<Bytes32>, h: Hello) returns (k: nat)
    requires Inv(w, honest) && (h.identity, HelloTranscript(h)) in w.signed
    ensures k < |w.offers| && SameHello(w.offers[k], h)
  {
    var m := HelloTranscript(h);
    assert m[..12] == TAG_HELLO;
    HelloComesFromClient(w, honest, h.identity, m);
    var i :| 0 <= i < |w.offers| && w.offers[i].self == h.identity && m == OfferV2(w.offers[i]);
    var o := w.offers[i];
    HelloV2Injective(h.maxVersion, h.identity, h.ephemeral, h.nonce, h.service, o.max, o.self, o.ephemeral, o.nonce, o.service);
    k := i;
  }

  // A v1 hello that carries the v2 hello transcript of an offer, for a service named like the end of it.
  function Reread(o: Offer, signature: Bytes64): Hello {
    OfferTagged(o);
    var m := OfferV2(o);
    Hello(1, o.self, m[..32], m[32..48], m[48..], signature, 1, Zeros(64), false)
  }

  lemma RereadBytes(o: Offer, signature: Bytes64)
    requires |o.service| <= 210
    ensures var h := Reread(o, signature);
            && Transcripts.HelloV1(h.ephemeral, h.nonce, h.service) == OfferV2(o)
            && TAG_HELLO <= h.ephemeral && ParseHello(HelloBytes(h)).Value() == Some(h)
  {
    var h := Reread(o, signature);
    OfferTagged(o);
    assert h.ephemeral[..12] == OfferV2(o)[..12] == TAG_HELLO;
    HelloRoundTrip(h, []);
    hide HelloBytes, ParseHello;
    assert HelloBytes(h) + [] == HelloBytes(h);
  }

  lemma RereadLegitimate(w: World, o: Offer, signature: Bytes64, a: Answer, honest: set<Bytes32>)
    requires |o.service| <= 210 && a.max >= 1 && a.status == 0
    requires a.hello == Reread(o, signature) && (o.self, OfferV2(o)) in w.signed
    ensures Legitimate(w, a, honest)
  {
    var h := a.hello;
    RereadBytes(o, signature);
    var sch := Scheme((k, m) => signature, (k: Bytes32, m: seq<byte>, g: Bytes64) => (k, m) in w.signed);
    hide HelloBytes, ParseHello, Transcripts.HelloV1, OfferV2, HelloTranscript;
    assert Sound(sch, honest, w);
    assert Vouched(sch, a.max, h);
    assert ServerAnswers(sch, a.self, a.max, h.service, _ => true, a.ephemeral, a.nonce, h) == Some(a);
  }

  lemma RunOfTwo(e0: Event, e1: Event, honest: set<Bytes32>)
    requires Legal(START, e0, honest) && Legal(After(START, e0), e1, honest)
    ensures Run([START, After(START, e0), After(After(START, e0), e1)], [e0, e1], honest)
  {
    hide Legal, After;
  }

  /**
    The client's second case happens: no server answered anything, and the client takes the ephemeral
    that the honest identity sent with a request of its own, to a service named like the nonce.
  */
  lemma OwnRequestTaken(o: Offer, p: Offer, signature: Bytes64, honest: set<Bytes32>) returns (ws: seq<World>, sch: Scheme)
    requires p.service == o.nonce && p.nonce != o.nonce && p.ephemeral != o.ephemeral && o.max >= 1
    requires !SpellsTag(o.ephemeral) && !SpellsTag(p.ephemeral)
    ensures Run(ws, [Offered(o), Offered(p)], honest) && Sound(sch, honest, ws[2]) && ws[2].answers == []
    ensures var ack := HelloAck(1, p.self, p.ephemeral, p.nonce, o.nonce, 0, signature, 1, Zeros(64), false);
            && ClientAccepts(sch, o, _ => true, ack) == Some(ClientResult(p.self, 1, o.ephemeral, p.ephemeral))
            && AskedWith(ws[2], p.self, p.ephemeral, p.nonce, o.nonce)
  {
    AckV1IsHelloV1(p.ephemeral, p.nonce, o.nonce, p.ephemeral, p.nonce, o.nonce);
    hide SpellsTag, OfferV2, Transcripts.HelloV1, AckV1;
    RunOfTwo(Offered(o), Offered(p), honest);
    var w1 := After(START, Offered(o));
    var w := After(w1, Offered(p));
    ws := [START, w1, w];
    sch := Scheme((k, m) => signature, (k: Bytes32, m: seq<byte>, g: Bytes64) => (k, m) in w.signed);
    assert w.offers == [o, p] && w.offers[1] == p;
    assert ws[2] == w;
  }

  // The run of one request and one answer to it.
  lemma RereadRun(o: Offer, a: Answer, honest: set<Bytes32>) returns (ws: seq<World>)
    requires a.ephemeral != o.ephemeral && !SpellsTag(o.ephemeral) && !SpellsTag(a.ephemeral)
    requires Legitimate(After(START, Offered(o)), a, honest)
    ensures Run(ws, [Offered(o), Answered(a)], honest) && ws[2].offers == [o] && ws[2].answers == [a]
  {
    hide Legitimate, SpellsTag, OfferV1, OfferV2, AnswerV1, AnswerV2;
    var w1 := After(START, Offered(o));
    assert w1.offers == [o] && w1.answers == [];
    RunOfTwo(Offered(o), Answered(a), honest);
    var w2 := After(w1, Answered(a));
    assert w2.offers == [o] && w2.answers == [a];
    ws := [START, w1, w2];
    assert ws[2] == w2;
  }

  lemma RereadSigned(o: Offer, signature: Bytes64)
    requires o.max >= 2 && |o.service| <= 210
    ensures var h := Reread(o, signature);
            SpellsTag(h.ephemeral) && h.identity == o.self && (o.self, OfferV2(o)) in After(START, Offered(o)).signed
  {
    RereadBytes(o, signature);
  }

  /**
    The server's exception happens too: the v1 transcript has no tag, so at such a service the v2
    signature of an honest request stands for a v1 hello with an ephemeral nobody generated.
  */
  lemma TaggedEphemeralTaken(o: Offer, signature: Bytes64, self: Bytes32, max: byte, e: Bytes32, n: Bytes16, honest: set<Bytes32>)
      returns (ws: seq<World>)
    requires o.max >= 2 && |o.service| <= 210 && max >= 1 && e != o.ephemeral && !SpellsTag(o.ephemeral) && !SpellsTag(e)
    ensures var a := Answer(self, max, Reread(o, signature), e, n, 0);
            && Run(ws, [Offered(o), Answered(a)], honest) && ws[2].answers == [a] && ServerAccepts(a).Some? && a.hello.identity == o.self
            && SpellsTag(a.hello.ephemeral) && !Generated(ws[2], a.hello.ephemeral)
  {
    hide Reread, Legitimate, Run, After, SpellsTag;
    var a := Answer(self, max, Reread(o, signature), e, n, 0);
    RereadSigned(o, signature);
    RereadLegitimate(After(START, Offered(o)), o, signature, a, honest);
    ws := RereadRun(o, a, honest);
  }

  lemma AnswerLegitimate(w: World, o: Offer, signature: Bytes64, a: Answer, honest: set<Bytes32>)
    requires |o.service| < 256 && o.max >= 1 && a.max >= 1 && a.status == 0
    requires a.hello == Told(MakeHello(Scheme((k, m) => signature, (k, m, g) => true), o))
    requires (o.self, OfferV1(o)) in w.signed && (o.max >= 2 ==> (o.self, OfferV2(o)) in w.signed)
    ensures Legitimate(w, a, honest)
  {
    hide HelloBytes, ParseHello, Transcripts.HelloV1, Transcripts.HelloV2, Answerable, Welcome;
    var h := MakeHello(Scheme((k, m) => signature, (k, m, g) => true), o);
    HelloRoundTrip(h, []);
    assert HelloBytes(h) + [] == HelloBytes(h);
    assert ParseHello(HelloBytes(h)).Value() == Some(a.hello);
    var sch := Scheme((k, m) => signature, (k: Bytes32, m: seq<byte>, g: Bytes64) => (k, m) in w.signed);
    assert Sound(sch, honest, w);
    assert Vouched(sch, a.max, a.hello);
    hide Sound, Vouched;
    assert ServerAnswers(sch, a.self, a.max, o.service, _ => true, a.ephemeral, a.nonce, a.hello) == Some(a);
  }

  lemma AckAccepted(w: World, o: Offer, a: Answer, sch: Scheme)
    requires sch.verify == ((k: Bytes32, m: seq<byte>, g: Bytes64) => (k, m) in w.signed)
    requires o.max >= 1 && a.max >= 1 && a.status == 0 && a.hello.nonce == o.nonce && a.hello.identity == o.self
    requires a.hello.maxVersion == o.max
    requires (a.self, AnswerV1(a)) in w.signed && (a.max >= 2 ==> (a.self, AnswerV2(a)) in w.signed)
    ensures ClientAccepts(sch, o, _ => true, AckTold(MakeAck(sch, a)))
            == Some(ClientResult(a.self, Negotiate(o.max, a.max), o.ephemeral, a.ephemeral))
  {
    hide AckV1, AckV2;
  }

  /**
    Handshakes happen in this world: for any request there is a run of it and of an answer, with
    signatures that verify only what was signed, in which both ends complete at the smaller maximum.
  */
  lemma HandshakeHappens(o: Offer, signature: Bytes64, self: Bytes32, max: byte, e: Bytes32, n: Bytes16, honest: set<Bytes32>)
      returns (ws: seq<World>, a: Answer, sch: Scheme)
    requires |o.service| < 256 && o.max >= 1 && max >= 1 && e != o.ephemeral && !SpellsTag(o.ephemeral) && !SpellsTag(e)
    ensures Run(ws, [Offered(o), Answered(a)], honest) && Sound(sch, honest, ws[2]) && ws[2].offers == [o] && ws[2].answers == [a]
    ensures a.self == self && a.max == max && a.ephemeral == e && a.nonce == n && a.hello == Told(MakeHello(sch, o))
    ensures var v := Negotiate(o.max, max);
            && ClientAccepts(sch, o, _ => true, AckTold(MakeAck(sch, a))) == Some(ClientResult(self, v, o.ephemeral, e))
            && ServerAccepts(a) == Some(ServerResult(o.self, v, e, o.ephemeral))
  {
    hide SpellsTag, Legitimate, Transcripts.HelloV1, Transcripts.HelloV2, AckV1, AckV2, After;
    a := Answer(self, max, Told(MakeHello(Scheme((k, m) => signature, (k, m, g) => true), o)), e, n, 0);
    OfferSigned(o);
    AnswerLegitimate(After(START, Offered(o)), o, signature, a, honest);
    ws := RereadRun(o, a, honest);
    var w := ws[2];
    TwoSigned(ws, o, a, honest);
    sch := Scheme((k, m) => signature, (k: Bytes32, m: seq<byte>, g: Bytes64) => (k, m) in w.signed);
    AckAccepted(w, o, a, sch);
    hide AckTold, MakeAck;
    assert Sound(sch, honest, ws[2]);
  }

  lemma OfferSigned(o: Offer)
    ensures var w := After(START, Offered(o)); (o.self, OfferV1(o)) in w.signed && (o.max >= 2 ==> (o.self, OfferV2(o)) in w.signed)
  {
    hide OfferV1, OfferV2;
  }

  lemma TwoSigned(ws: seq<World>, o: Offer, a: Answer, honest: set<Bytes32>)
    requires Run(ws, [Offered(o), Answered(a)], honest)
    ensures (a.self, AnswerV1(a)) in ws[2].signed && (a.max >= 2 ==> (a.self, AnswerV2(a)) in ws[2].signed)
  {
    hide Legal, AnswerV1, AnswerV2, OfferV1, OfferV2;
    assert ws[2] == After(ws[1], Answered(a));
  }

  // A run in which an identity asks for a service and mints a statement.
  lemma AskAndMint(o: Offer, st: Statement, signature: Bytes64, honest: set<Bytes32>)
      returns (ws: seq<World>, es: seq<Event>, sch: Scheme)
    requires !SpellsTag(o.ephemeral)
    ensures Run(ws, es, honest) && Sound(sch, honest, ws[|es|])
    ensures sch.verify(st.issuer, StatementBytes(st), signature)
  {
    hide SpellsTag, OfferV1, OfferV2, StatementBytes;
    es := [Offered(o), Minted(st)];
    RunOfTwo(es[0], es[1], honest);
    var w := After(After(START, es[0]), es[1]);
    ws := [START, After(START, es[0]), w];
    sch := Scheme((k, m) => signature, (k: Bytes32, m: seq<byte>, g: Bytes64) => (k, m) in w.signed);
    assert ws[|es|] == w;
  }

  // ---- agreement -------------------------------------------------------------

  /**
    Agreement at version 2 or higher. If a client run completes with an honest server identity, some
    run of that server accepted this very client run: same version, which is the smaller of the two
    true maxima, same identities, same nonces, same client ephemeral - and so mirrored keys.
  */
  lemma Agreement(ws: seq<World>, es: seq<Event>, honest: set<Bytes32>, sch: Scheme, c: nat, trusted: Bytes32 -> bool, ack: HelloAck)
    returns (s: nat)
    requires Run(ws, es, honest) && Sound(sch, honest, ws[|es|])
    requires c < |ws[|es|].offers| && ws[|es|].offers[c].self in honest
    requires var r := ClientAccepts(sch, ws[|es|].offers[c], trusted, ack);
             r.Some? && r.value.version >= 2 && r.value.peer in honest
    ensures s < |ws[|es|].answers|
    ensures var o, a := ws[|es|].offers[c], ws[|es|].answers[s];
            var r := ClientAccepts(sch, o, trusted, ack).value;
            && a.self == r.peer && a.hello.identity == o.self
            && a.hello.nonce == o.nonce && a.nonce == ack.serverNonce && a.hello.ephemeral == o.ephemeral
            && a.hello.service == o.service && a.hello.maxVersion == o.max
            && r.version == Negotiate(o.max, a.max)
            && ServerAccepts(a) == Some(Result(o.self, r.version, r.rx, r.tx))
  {
    RunInv(ws, es, honest);
    var w := ws[|es|];
    var o := w.offers[c];
    var v := Negotiate(o.max, ack.maxVersion);
    var m := AckV2(ack.maxVersion, v, ack.status, ack.identity, o.self, ack.ephemeral, ack.serverNonce, ack.clientNonce);
    assert m[..10] == TAG_ACK;
    AckComesFromServer(w, honest, ack.identity, m);
    var s' :| 0 <= s' < |w.answers| && w.answers[s'].self == ack.identity && m == AnswerV2(w.answers[s']);
    s := s';
    var a := w.answers[s];
    AckV2Injective(ack.maxVersion, v, ack.status, ack.identity, o.self, ack.ephemeral, ack.serverNonce, ack.clientNonce,
                   a.max, Agreed(a), a.status, a.self, a.hello.identity, a.ephemeral, a.nonce, a.hello.nonce);
    assert AnswerSound(w, a, honest);
    var k := HelloIsAnOffer(w, honest, a.hello);
    assert k == c;
  }

  // ---- completion and downgrade ----------------------------------------------

  // The scheme verifies what this end signs.
  predicate SignsOffer(sch: Scheme, o: Offer) {
    && sch.verify(o.self, OfferV1(o), sch.sign(o.self, OfferV1(o)))
    && (o.max >= 2 ==> sch.verify(o.self, OfferV2(o), sch.sign(o.self, OfferV2(o))))
  }

  predicate SignsAnswer(sch: Scheme, a: Answer) {
    && sch.verify(a.self, AnswerV1(a), sch.sign(a.self, AnswerV1(a)))
    && (a.max >= 2 ==> sch.verify(a.self, AnswerV2(a), sch.sign(a.self, AnswerV2(a))))
  }

  /**
    Left alone, the handshake completes: whatever the two maxima, both ends come out at the smaller
    one, with each other's identity and mirrored keys.
  */
  lemma HonestHandshakeCompletes(sch: Scheme, o: Offer, self: Bytes32, max: byte, ephemeral: Bytes32, nonce: Bytes16,
                                 clientTrusts: Bytes32 -> bool, serverTrusts: Bytes32 -> bool)
    requires SignsOffer(sch, o) && SignsAnswer(sch, Answer(self, max, Told(MakeHello(sch, o)), ephemeral, nonce, 0))
    requires o.max >= 1 && max >= 1 && |o.service| < 256
    requires clientTrusts(self) && serverTrusts(o.self)
    ensures var hello := ParseHello(HelloBytes(MakeHello(sch, o)));
            && hello.Got?
            && var a := ServerAnswers(sch, self, max, o.service, serverTrusts, ephemeral, nonce, hello.value);
               && a.Some?
               && var ack := ParseHelloAck(HelloAckBytes(MakeAck(sch, a.value)));
                  && ack.Got?
                  && var v := Negotiate(o.max, max);
                     && ClientAccepts(sch, o, clientTrusts, ack.value) == Some(ClientResult(self, v, o.ephemeral, ephemeral))
                     && ServerAccepts(a.value) == Some(ServerResult(o.self, v, ephemeral, o.ephemeral))
  {
    hide HelloBytes, ParseHello, HelloAckBytes, ParseHelloAck, AckV1, AckV2, Transcripts.HelloV1, Transcripts.HelloV2;
    var h := MakeHello(sch, o);
    HelloRoundTrip(h, []);
    assert HelloBytes(h) + [] == HelloBytes(h);
    var h' := ParseHello(HelloBytes(h)).value;
    var a := ServerAnswers(sch, self, max, o.service, serverTrusts, ephemeral, nonce, h').value;
    var k := MakeAck(sch, a);
    HelloAckRoundTrip(k, []);
    assert HelloAckBytes(k) + [] == HelloAckBytes(k);
  }

  /**
    An ack stripped of its extension brings the client to v1 while the server is at v2. The two then
    share no associated data, and neither accepts a single frame.
  */
  lemma StrippedAck(sch: Scheme, o: Offer, a: Answer, trusts: Bytes32 -> bool)
    requires SignsAnswer(sch, a) && o.max >= 2 && a.max >= 2 && trusts(a.self)
    requires a.status == 0 && a.hello == MakeHello(sch, o).(hasV2 := true)
    ensures var ack := ParseHelloAck(HelloAckV1Bytes(MakeAck(sch, a)));
            && ack.Got?
            && ClientAccepts(sch, o, trusts, ack.value) == Some(ClientResult(a.self, 1, o.ephemeral, a.ephemeral))
            && ServerAccepts(a).Some? && ServerAccepts(a).value.version >= 2
  {
    var k := MakeAck(sch, a);
    HelloAckReads(k, []);
    assert HelloAckV1Bytes(k) + [] == HelloAckV1Bytes(k);
  }

  /**
    With both extensions stripped the two ends come out alike at v1, with mirrored keys, whatever
    their maxima: the v1 signatures cover no version.
  */
  lemma BothStripped(sch: Scheme, o: Offer, self: Bytes32, max: byte, ephemeral: Bytes32, nonce: Bytes16,
                     clientTrusts: Bytes32 -> bool, serverTrusts: Bytes32 -> bool)
    requires SignsOffer(sch, o) && SignsAnswer(sch, Answer(self, max, ToldV1(MakeHello(sch, o)), ephemeral, nonce, 0))
    requires o.max >= 1 && max >= 1 && |o.service| < 256
    requires clientTrusts(self) && serverTrusts(o.self)
    ensures var hello := ParseHello(HelloV1Bytes(MakeHello(sch, o)));
            && hello.Got?
            && var a := ServerAnswers(sch, self, max, o.service, serverTrusts, ephemeral, nonce, hello.value);
               && a.Some?
               && var ack := ParseHelloAck(HelloAckV1Bytes(MakeAck(sch, a.value)));
                  && ack.Got?
                  && ClientAccepts(sch, o, clientTrusts, ack.value) == Some(ClientResult(self, 1, o.ephemeral, ephemeral))
                  && ServerAccepts(a.value) == Some(ServerResult(o.self, 1, ephemeral, o.ephemeral))
  {
    hide HelloV1Bytes, ParseHello, HelloAckV1Bytes, ParseHelloAck, AckV1, AckV2, Transcripts.HelloV1, Transcripts.HelloV2;
    var h := MakeHello(sch, o);
    HelloReads(h, []);
    assert HelloV1Bytes(h) + [] == HelloV1Bytes(h);
    var h' := ParseHello(HelloV1Bytes(h)).value;
    var a := ServerAnswers(sch, self, max, o.service, serverTrusts, ephemeral, nonce, h').value;
    var k := MakeAck(sch, a);
    HelloAckReads(k, []);
    assert HelloAckV1Bytes(k) + [] == HelloAckV1Bytes(k);
  }

  /**
    The downgrade, exactly. For a client that speaks version 2 or higher and completes with an honest
    server that always does, whatever was altered: it is below the smaller maximum if and only if the
    ack it read carried no extension or named a maximum below 2; then it is at version 1. A run of the
    server answered it; that run is at version 1 if and only if the hello it read carried no extension
    or named a maximum below 2, and otherwise, if it accepted an honest client, at the smaller maximum.
  */
  lemma DowngradedIffStripped(ws: seq<World>, es: seq<Event>, honest: set<Bytes32>, sch: Scheme, c: nat,
                              trusted: Bytes32 -> bool, body: seq<byte>) returns (s: nat)
    requires Run(ws, es, honest) && Sound(sch, honest, ws[|es|])
    requires c < |ws[|es|].offers| && ws[|es|].offers[c].self in honest && ws[|es|].offers[c].max >= 2
    requires ParseHelloAck(body).Got?
    requires var r := ClientAccepts(sch, ws[|es|].offers[c], trusted, ParseHelloAck(body).value); r.Some? && r.value.peer in honest
    requires var peer := ParseHelloAck(body).value.identity;
             && (forall i :: 0 <= i < |ws[|es|].answers| && ws[|es|].answers[i].self == peer ==> ws[|es|].answers[i].max >= 2)
             && (forall i :: 0 <= i < |ws[|es|].offers| && ws[|es|].offers[i].self == peer ==>
                   ws[|es|].offers[i].service != ws[|es|].offers[c].nonce)
    ensures s < |ws[|es|].answers|
    ensures var o, a, ack := ws[|es|].offers[c], ws[|es|].answers[s], ParseHelloAck(body).value;
            var r := ClientAccepts(sch, o, trusted, ack).value;
            && a.self == r.peer && a.hello.nonce == o.nonce && a.ephemeral == ack.ephemeral
            && (r.version < Negotiate(o.max, a.max) <==> !ack.hasV2 || ack.maxVersion < 2)
            && (r.version < Negotiate(o.max, a.max) ==> r.version == 1)
            && (r.version >= 2 ==> ServerAccepts(a) == Some(Result(o.self, r.version, r.rx, r.tx)))
            && (Agreed(a) == 1 <==> !a.hello.hasV2 || a.hello.maxVersion < 2)
            && (Agreed(a) >= 2 && ServerAccepts(a).Some? && a.hello.identity in honest ==>
                  a.hello.identity == o.self && Agreed(a) == Negotiate(o.max, a.max))
  {
    var w := ws[|es|];
    var o, ack := w.offers[c], ParseHelloAck(body).value;
    var r := ClientAccepts(sch, o, trusted, ack).value;
    ExtensionOrNot(body);
    RunInv(ws, es, honest);
    if r.version >= 2 {
      s := Agreement(ws, es, honest, sch, c, trusted, ack);
    } else {
      ClientTakesSignedEphemeral(ws, es, honest, sch, o, trusted, ack);
      assert AnsweredWith(w, ack.identity, ack.ephemeral, ack.serverNonce, o.nonce);
      s :| 0 <= s < |w.answers| && w.answers[s].self == ack.identity && w.answers[s].ephemeral == ack.ephemeral
           && w.answers[s].nonce == ack.serverNonce && w.answers[s].hello.nonce == o.nonce;
    }
    var a := w.answers[s];
    assert AnswerSound(w, a, honest);
    if Agreed(a) >= 2 && ServerAccepts(a).Some? && a.hello.identity in honest {
      var k := HelloIsAnOffer(w, honest, a.hello);
      assert k == c;
    }
  }
}
