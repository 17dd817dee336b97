/**
  From the handshake to the session: a client run and a server run at the two ends of a connection
  whose handshake frames may have been altered in any way.
*/
module HandshakeOutcome {
  import opened Options
  import opened Bytes
  import opened Transcripts
  import Wire
  import H = Handshake
  import E = Endpoints
  import S = Session
  import V = SessionVersions

  /**
    What a peer ephemeral is to the session of client run c and server run s: the other end's, one
    whose secret the network has, or somebody else's.
  */
  function PeerOf(w: H.World, owned: set<Bytes32>, c: nat, s: nat, e: Bytes32): E.Eph
    requires c < |w.offers| && s < |w.answers|
  {
    if e == w.offers[c].ephemeral then E.Honest(0)
    else if e == w.answers[s].ephemeral then E.Honest(1)
    else if e in owned then E.Rogue(ValueOf(e))
    else E.Other(ValueOf(e))
  }

  // The network has no secret of an honest run.
  ghost predicate Secret(w: H.World, owned: set<Bytes32>) {
    forall e :: e in owned ==> !H.Generated(w, e)
  }

  // Same version, and what one sends with the other receives with.
  predicate Mirrored(r: H.Result, q: H.Result) {
    r.version == q.version && r.tx == q.rx && r.rx == q.tx
  }

  lemma AnsweredIsGenerated(w: H.World, who: Bytes32, e: Bytes32, own: Bytes16, nonce: Bytes16)
    requires H.AnsweredWith(w, who, e, own, nonce)
    ensures H.Generated(w, e)
  {
  }

  lemma AskedIsGenerated(w: H.World, who: Bytes32, e: Bytes32, own: Bytes16, service: seq<byte>)
    requires H.AskedWith(w, who, e, own, service)
    ensures H.Generated(w, e)
  {
  }

  // With one version family and each other's ephemerals, the versions are the same.
  lemma SameVersion(ws: seq<H.World>, es: seq<H.Event>, honest: set<Bytes32>, sch: H.Scheme, c: nat,
                    trusted: Bytes32 -> bool, ack: Wire.HelloAck, s: nat)
    requires H.Run(ws, es, honest) && H.Sound(sch, honest, ws[|es|])
    requires c < |ws[|es|].offers| && ws[|es|].offers[c].self in honest && s < |ws[|es|].answers|
    requires var r := H.ClientAccepts(sch, ws[|es|].offers[c], trusted, ack);
             r.Some? && r.value.version >= 2 && r.value.peer in honest
    requires ack.ephemeral == ws[|es|].answers[s].ephemeral
    ensures H.ServerAccepts(ws[|es|].answers[s]).Some?
    ensures Mirrored(H.ClientAccepts(sch, ws[|es|].offers[c], trusted, ack).value, H.ServerAccepts(ws[|es|].answers[s]).value)
  {
    var t := H.Agreement(ws, es, honest, sch, c, trusted, ack);
    H.RunInv(ws, es, honest);
    assert t == s;
  }

  // Mirrored keys and one version are what the two ends being alike comes to.
  lemma AlikeIffMirrored(ws: seq<H.World>, es: seq<H.Event>, honest: set<Bytes32>, sch: H.Scheme, c: nat,
                         trusted: Bytes32 -> bool, ack: Wire.HelloAck, s: nat, owned: set<Bytes32>)
    requires H.Run(ws, es, honest) && H.Sound(sch, honest, ws[|es|])
    requires c < |ws[|es|].offers| && ws[|es|].offers[c].self in honest && s < |ws[|es|].answers|
    requires var r := H.ClientAccepts(sch, ws[|es|].offers[c], trusted, ack); r.Some? && r.value.peer in honest
    requires H.ServerAccepts(ws[|es|].answers[s]).Some?
    ensures var w := ws[|es|];
            var r := H.ClientAccepts(sch, w.offers[c], trusted, ack).value;
            var q := H.ServerAccepts(w.answers[s]).value;
            V.Alike(r.version >= 2, q.version >= 2, PeerOf(w, owned, c, s, ack.ephemeral),
                    PeerOf(w, owned, c, s, w.answers[s].hello.ephemeral))
            <==> Mirrored(r, q)
  {
    var w := ws[|es|];
    var o, a := w.offers[c], w.answers[s];
    H.RunInv(ws, es, honest);
    assert o.ephemeral != a.ephemeral && H.AnswerSound(w, a, honest);
    hide H.Run, H.Inv, H.Sound;
    var r := H.ClientAccepts(sch, o, trusted, ack).value;
    if r.version >= 2 && ack.ephemeral == a.ephemeral { SameVersion(ws, es, honest, sch, c, trusted, ack, s); }
  }

  /**
    For any alteration of the handshake frames: a client run and a server run that complete with
    honest identities either came out with the same version and mirrored keys - and then the session
    starts established - or neither end ever accepts a sealed frame of the connection, in either
    direction. Should the server have taken an ephemeral that begins with a tag, the network must not
    have its secret; all others are honest.
  */
  lemma AlikeOrDeaf(ws: seq<H.World>, es: seq<H.Event>, honest: set<Bytes32>, sch: H.Scheme, c: nat,
                    trusted: Bytes32 -> bool, ack: Wire.HelloAck, s: nat, owned: set<Bytes32>,
                    ss: seq<S.World>, acts: seq<S.Action>)
    requires H.Run(ws, es, honest) && H.Sound(sch, honest, ws[|es|]) && Secret(ws[|es|], owned)
    requires c < |ws[|es|].offers| && ws[|es|].offers[c].self in honest && s < |ws[|es|].answers|
    requires var r := H.ClientAccepts(sch, ws[|es|].offers[c], trusted, ack); r.Some? && r.value.peer in honest
    requires var a := ws[|es|].answers[s];
             H.ServerAccepts(a).Some? && a.hello.identity in honest && (SpellsTag(a.hello.ephemeral) ==> a.hello.ephemeral !in owned)
    requires var w := ws[|es|];
             var r := H.ClientAccepts(sch, w.offers[c], trusted, ack).value;
             var q := H.ServerAccepts(w.answers[s]).value;
             V.Run(ss, acts) && ss[0] == S.Opened(r.version >= 2, q.version >= 2, PeerOf(w, owned, c, s, ack.ephemeral),
                                                  PeerOf(w, owned, c, s, w.answers[s].hello.ephemeral))
    ensures var w := ws[|es|];
            var r := H.ClientAccepts(sch, w.offers[c], trusted, ack).value;
            var q := H.ServerAccepts(w.answers[s]).value;
            if Mirrored(r, q) then ss[0] == S.Established(r.version >= 2)
            else ss[|acts|].upAcc == [] && ss[|acts|].downAcc == []
  {
    var w := ws[|es|];
    hide H.Run, H.Sound, V.Run, S.Opened, S.Established, PeerOf, V.Alike, Mirrored, Secret;
    AlikeIffMirrored(ws, es, honest, sch, c, trusted, ack, s, owned);
    ClientPeerKnown(ws, es, honest, sch, c, trusted, ack, s, owned);
    ServerPeerKnown(ws, es, honest, c, s, owned);
    V.AlikeOrDeaf(ss, acts, H.ClientAccepts(sch, w.offers[c], trusted, ack).value.version >= 2,
                  H.ServerAccepts(w.answers[s]).value.version >= 2,
                  PeerOf(w, owned, c, s, ack.ephemeral), PeerOf(w, owned, c, s, w.answers[s].hello.ephemeral));
  }

  lemma ClientPeerKnown(ws: seq<H.World>, es: seq<H.Event>, honest: set<Bytes32>, sch: H.Scheme, c: nat,
                        trusted: Bytes32 -> bool, ack: Wire.HelloAck, s: nat, owned: set<Bytes32>)
    requires H.Run(ws, es, honest) && Secret(ws[|es|], owned) && H.Sound(sch, honest, ws[|es|]) && c < |ws[|es|].offers| && s < |ws[|es|].answers|
    requires H.ClientAccepts(sch, ws[|es|].offers[c], trusted, ack).Some? && ack.identity in honest
    ensures !PeerOf(ws[|es|], owned, c, s, ack.ephemeral).Rogue?
  {
    var w, o := ws[|es|], ws[|es|].offers[c];
    H.ClientTakesSignedEphemeral(ws, es, honest, sch, o, trusted, ack);
    if H.AnsweredWith(w, ack.identity, ack.ephemeral, ack.serverNonce, o.nonce) {
      AnsweredIsGenerated(w, ack.identity, ack.ephemeral, ack.serverNonce, o.nonce);
    } else {
      AskedIsGenerated(w, ack.identity, ack.ephemeral, ack.serverNonce, o.nonce);
    }
  }

  lemma ServerPeerKnown(ws: seq<H.World>, es: seq<H.Event>, honest: set<Bytes32>, c: nat, s: nat, owned: set<Bytes32>)
    requires H.Run(ws, es, honest) && Secret(ws[|es|], owned) && c < |ws[|es|].offers| && s < |ws[|es|].answers|
    requires var a := ws[|es|].answers[s];
             H.ServerAccepts(a).Some? && a.hello.identity in honest && (SpellsTag(a.hello.ephemeral) ==> a.hello.ephemeral !in owned)
    ensures !PeerOf(ws[|es|], owned, c, s, ws[|es|].answers[s].hello.ephemeral).Rogue?
  {
    var w, h := ws[|es|], ws[|es|].answers[s].hello;
    H.ServerTakesSignedEphemeral(ws, es, honest, s);
    if SpellsTag(h.ephemeral) {
    } else if H.AskedWith(w, h.identity, h.ephemeral, h.nonce, h.service) {
      AskedIsGenerated(w, h.identity, h.ephemeral, h.nonce, h.service);
    } else {
      AnsweredIsGenerated(w, h.identity, h.ephemeral, h.nonce, h.service);
    }
  }
}
