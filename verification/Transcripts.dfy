/** The byte strings that identities sign: the v1 and v2 handshake transcripts and the credential statement. */
module Transcripts {
  import opened Bytes

  // "EPX-v2-hello"
  const TAG_HELLO: seq<byte> := [69, 80, 88, 45, 118, 50, 45, 104, 101, 108, 108, 111]
  // "EPX-v2-ack"
  const TAG_ACK: seq<byte> := [69, 80, 88, 45, 118, 50, 45, 97, 99, 107]
  // "EPX-credential-v1"
  const TAG_CREDENTIAL: seq<byte> := [69, 80, 88, 45, 99, 114, 101, 100, 101, 110, 116, 105, 97, 108, 45, 118, 49]

  function HelloV1(ephemeral: Bytes32, nonce: Bytes16, service: seq<byte>): seq<byte> {
    ephemeral + nonce + service
  }

  function AckV1(ephemeral: Bytes32, serverNonce: Bytes16, clientNonce: Bytes16): seq<byte> {
    ephemeral + serverNonce + clientNonce
  }

  function HelloV2(maxVersion: byte, client: Bytes32, ephemeral: Bytes32, nonce: Bytes16, service: seq<byte>): seq<byte> {
    TAG_HELLO + [maxVersion] + client + ephemeral + nonce + service
  }

  function AckV2(serverMax: byte, negotiated: byte, status: byte, server: Bytes32, client: Bytes32,
                 ephemeral: Bytes32, serverNonce: Bytes16, clientNonce: Bytes16): seq<byte> {
    TAG_ACK + [serverMax, negotiated, status] + server + client + ephemeral + serverNonce + clientNonce
  }

  function CredentialStatement(peer: Bytes32, issuer: Bytes32, scope: seq<byte>, expires: nat): seq<byte> {
    TAG_CREDENTIAL + peer + issuer + Be(expires, 8) + scope
  }

  lemma HelloV2Injective(m: byte, c: Bytes32, e: Bytes32, n: Bytes16, s: seq<byte>,
                         m': byte, c': Bytes32, e': Bytes32, n': Bytes16, s': seq<byte>)
    requires HelloV2(m, c, e, n, s) == HelloV2(m', c', e', n', s')
    ensures m == m' && c == c' && e == e' && n == n' && s == s'
  {
    var t, t' := HelloV2(m, c, e, n, s), HelloV2(m', c', e', n', s');
    assert t[12] == m && t'[12] == m';
    assert t[13..45] == c && t'[13..45] == c';
    assert t[45..77] == e && t'[45..77] == e';
    assert t[77..93] == n && t'[77..93] == n';
    assert t[93..] == s && t'[93..] == s';
  }

  lemma AckV2Injective(m: byte, v: byte, u: byte, s: Bytes32, c: Bytes32, e: Bytes32, a: Bytes16, b: Bytes16,
                       m': byte, v': byte, u': byte, s': Bytes32, c': Bytes32, e': Bytes32, a': Bytes16, b': Bytes16)
    requires AckV2(m, v, u, s, c, e, a, b) == AckV2(m', v', u', s', c', e', a', b')
    ensures m == m' && v == v' && u == u' && s == s' && c == c' && e == e' && a == a' && b == b'
  {
    var t, t' := AckV2(m, v, u, s, c, e, a, b), AckV2(m', v', u', s', c', e', a', b');
    assert t[10..13] == [m, v, u] && t'[10..13] == [m', v', u'];
    assert t[13..45] == s && t'[13..45] == s';
    assert t[45..77] == c && t'[45..77] == c';
    assert t[77..109] == e && t'[77..109] == e';
    assert t[109..125] == a && t'[109..125] == a';
    assert t[125..141] == b && t'[125..141] == b';
  }

  lemma CredentialInjective(p: Bytes32, i: Bytes32, s: seq<byte>, x: nat, p': Bytes32, i': Bytes32, s': seq<byte>, x': nat)
    requires x < TWO64 && x' < TWO64
    requires CredentialStatement(p, i, s, x) == CredentialStatement(p', i', s', x')
    ensures p == p' && i == i' && s == s' && x == x'
  {
    var t, t' := CredentialStatement(p, i, s, x), CredentialStatement(p', i', s', x');
    assert t[17..49] == p && t'[17..49] == p';
    assert t[49..81] == i && t'[49..81] == i';
    assert t[81..89] == Be(x, 8) && t'[81..89] == Be(x', 8);
    assert t[89..] == s && t'[89..] == s';
    Powers();
    BeInjective(x, x', 8);
  }

  // Which of the three tags a transcript starts with is readable from two of its bytes.
  lemma Separated(hello: seq<byte>, ack: seq<byte>, cred: seq<byte>)
    requires TAG_HELLO <= hello && TAG_ACK <= ack && TAG_CREDENTIAL <= cred
    ensures hello != ack && hello != cred && ack != cred
  {
    assert hello[7] == 104 && ack[7] == 97;
    assert hello[4] == 118 && ack[4] == 118 && cred[4] == 99;
  }

  /** No v2 hello, v2 ack or credential is another one, whatever their fields. */
  lemma Disjoint(m: byte, c: Bytes32, e: Bytes32, n: Bytes16, s: seq<byte>,
                 m': byte, v: byte, u: byte, sv: Bytes32, cl: Bytes32, e': Bytes32, a: Bytes16, b: Bytes16,
                 p: Bytes32, i: Bytes32, scope: seq<byte>, x: nat)
    ensures HelloV2(m, c, e, n, s) != AckV2(m', v, u, sv, cl, e', a, b)
    ensures HelloV2(m, c, e, n, s) != CredentialStatement(p, i, scope, x)
    ensures AckV2(m', v, u, sv, cl, e', a, b) != CredentialStatement(p, i, scope, x)
  {
    var h, k, d := HelloV2(m, c, e, n, s), AckV2(m', v, u, sv, cl, e', a, b), CredentialStatement(p, i, scope, x);
    assert h[..12] == TAG_HELLO && k[..10] == TAG_ACK && d[..17] == TAG_CREDENTIAL;
    Separated(h, k, d);
  }

  // What an issuer states: this peer may call this scope until then.
  datatype Statement = Statement(peer: Bytes32, issuer: Bytes32, scope: seq<byte>, expires: Uint64)

  function StatementBytes(st: Statement): seq<byte> {
    CredentialStatement(st.peer, st.issuer, st.scope, st.expires)
  }

  // Random ephemerals do not happen to begin with a tag.
  predicate SpellsTag(e: Bytes32) {
    TAG_HELLO <= e || TAG_ACK <= e || TAG_CREDENTIAL <= e
  }

  lemma StatementTagged(st: Statement)
    ensures TAG_CREDENTIAL <= StatementBytes(st) && |StatementBytes(st)| == 89 + |st.scope|
  {
    assert StatementBytes(st)[..17] == TAG_CREDENTIAL;
  }

  // No message begins with two tags.
  lemma OneTag(m: seq<byte>)
    ensures !(TAG_HELLO <= m && TAG_ACK <= m) && !(TAG_HELLO <= m && TAG_CREDENTIAL <= m) && !(TAG_ACK <= m && TAG_CREDENTIAL <= m)
  {
    if TAG_HELLO <= m { assert m[7] == 104 && m[4] == 118; }
    if TAG_ACK <= m { assert m[7] == 97 && m[4] == 118; }
    if TAG_CREDENTIAL <= m { assert m[4] == 99; }
  }

  /** A v1 transcript begins with a tag if and only if its ephemeral does. */
  lemma V1TaggedIff(e: Bytes32, n: Bytes16, s: seq<byte>, b: Bytes16)
    ensures TAG_HELLO <= HelloV1(e, n, s) <==> TAG_HELLO <= e
    ensures TAG_ACK <= HelloV1(e, n, s) <==> TAG_ACK <= e
    ensures TAG_CREDENTIAL <= HelloV1(e, n, s) <==> TAG_CREDENTIAL <= e
    ensures TAG_HELLO <= AckV1(e, n, b) <==> TAG_HELLO <= e
    ensures TAG_ACK <= AckV1(e, n, b) <==> TAG_ACK <= e
    ensures TAG_CREDENTIAL <= AckV1(e, n, b) <==> TAG_CREDENTIAL <= e
  {
    var h, k := HelloV1(e, n, s), AckV1(e, n, b);
    forall i | 0 <= i < 32 ensures h[i] == e[i] && k[i] == e[i] {}
  }

  lemma HelloV1Injective(e: Bytes32, n: Bytes16, s: seq<byte>, e': Bytes32, n': Bytes16, s': seq<byte>)
    requires HelloV1(e, n, s) == HelloV1(e', n', s')
    ensures e == e' && n == n' && s == s'
  {
    var t, t' := HelloV1(e, n, s), HelloV1(e', n', s');
    assert t[..32] == e && t'[..32] == e';
    assert t[32..48] == n && t'[32..48] == n';
    assert t[48..] == s && t'[48..] == s';
  }

  /** A v1 ack is a v1 hello of the same ephemeral and nonce for a service named like the client's nonce, and of nothing else. */
  lemma AckV1IsHelloV1(e: Bytes32, n: Bytes16, b: Bytes16, e': Bytes32, n': Bytes16, s: seq<byte>)
    ensures AckV1(e, n, b) == HelloV1(e', n', s) <==> e == e' && n == n' && b == s
  {
    if AckV1(e, n, b) == HelloV1(e', n', s) { HelloV1Injective(e, n, b, e', n', s); }
  }
}
