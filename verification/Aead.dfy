/**
  The byte level under the ideal cipher of `Endpoints`: the 24-byte nonce made from the counter and
  the 9- or 10-byte associated data. A cipher that opens only under the key, nonce and associated
  data it sealed with separates exactly what a `Box` records.
*/
module Aead {
  import opened Options
  import opened Bytes
  import opened Endpoints

  function NonceBytes(counter: nat): seq<byte> {
    Be(counter, 8) + Zeros(16)
  }

  function AdBytes(v2: bool, ty: byte, counter: nat, epoch: byte): seq<byte> {
    [ty] + Be(counter, 8) + if v2 then [epoch] else []
  }

  method MakeNonce(counter: nat) returns (nonce: array<byte>)
    ensures fresh(nonce) && nonce[..] == NonceBytes(counter)
  {
    nonce := new byte[24](i => 0);
    var i := 8;
    while i > 0
      invariant 0 <= i <= 8
      invariant nonce.Length == 24 && fresh(nonce)
      invariant forall k :: 8 - i <= k < 24 ==> nonce[k] == 0
      invariant nonce[..8 - i] == Be(ShiftRight(counter, i), 8 - i)
    {
      i := i - 1;
      ghost var was := nonce[..7 - i];
      nonce[7 - i] := ShiftRight(counter, i) % 256;
      assert nonce[..8 - i] == was + [ShiftRight(counter, i) % 256];
    }
    assert nonce[..] == nonce[..8] + nonce[8..];
    assert nonce[8..] == Zeros(16);
  }

  // Writes type and counter to the front of `ad`; in v2 the caller puts the epoch behind them.
  method FillAd(ad: array<byte>, ty: byte, counter: nat)
    requires ad.Length >= 9
    modifies ad
    ensures ad[..9] == AdBytes(false, ty, counter, 0) && ad[9..] == old(ad[9..])
  {
    ad[0] := ty;
    var i := 8;
    while i > 0
      invariant 0 <= i <= 8
      invariant ad[0] == ty && ad[9..] == old(ad[9..])
      invariant ad[1..9 - i] == Be(ShiftRight(counter, i), 8 - i)
    {
      i := i - 1;
      ghost var was := ad[1..8 - i];
      ad[8 - i] := ShiftRight(counter, i) % 256;
      assert ad[1..9 - i] == was + [ShiftRight(counter, i) % 256];
    }
    assert ad[..9] == [ty] + ad[1..9];
  }

  lemma NonceInjective(c: nat, d: nat)
    requires c < TWO64 && d < TWO64 && NonceBytes(c) == NonceBytes(d)
    ensures c == d
  {
    assert NonceBytes(c)[..8] == Be(c, 8) && NonceBytes(d)[..8] == Be(d, 8);
    Powers();
    BeInjective(c, d, 8);
  }

  // Equal associated data means the same layout and the same fields.
  lemma AdInjective(v: bool, t: byte, c: nat, e: byte, w: bool, u: byte, d: nat, f: byte)
    requires c < TWO64 && d < TWO64 && AdBytes(v, t, c, e) == AdBytes(w, u, d, f)
    ensures v == w && t == u && c == d && (v ==> e == f)
  {
    var a, b := AdBytes(v, t, c, e), AdBytes(w, u, d, f);
    assert |a| == (if v then 10 else 9) && |b| == (if w then 10 else 9);
    assert a[0] == t && b[0] == u && a[1..9] == Be(c, 8) && b[1..9] == Be(d, 8);
    if v { assert a[9] == e && b[9] == f; }
    Powers();
    BeInjective(c, d, 8);
  }

  // ---- the ideal cipher, on bytes --------------------------------------------

  datatype Ciphertext = Ciphertext(key: Key, nonce: seq<byte>, ad: seq<byte>, plain: Plain)

  function Code(ty: FrameType): byte {
    match ty
    case Hello => 0 case HelloAck => 1 case Request => 2 case Response => 3 case Error => 4 case Ping => 5
    case Pong => 6 case Bye => 7 case StreamChunk => 8 case Rekey => 9 case RekeyAck => 10
  }

  function SealBytes(v2: bool, key: Key, counter: nat, epoch: byte, ty: FrameType, plain: Plain): Ciphertext {
    Ciphertext(key, NonceBytes(counter), AdBytes(v2, Code(ty), counter, epoch), plain)
  }

  function OpenBytes(v2: bool, key: Key, counter: nat, epoch: byte, ty: FrameType, c: Ciphertext): Option<Plain> {
    if c.key == key && c.nonce == NonceBytes(counter) && c.ad == AdBytes(v2, Code(ty), counter, epoch)
    then Some(c.plain) else None
  }

  // What the code seals on bytes, the model seals as a box.
  function Sealing(v2: bool, key: Key, counter: nat, epoch: byte, ty: FrameType, plain: Plain): Body {
    SealFrame(v2, key, counter, epoch, ty, plain).body
  }

  /**
    Byte level and model agree on every seal and every open: a frame opens exactly under the key,
    counter, type and, in v2, epoch it was sealed with - and never across the two layouts.
  */
  lemma BytesAgreeWithBoxes(v: bool, k: Key, c: nat, e: byte, t: FrameType, p: Plain,
                            w: bool, l: Key, d: nat, f: byte, u: FrameType)
    requires c < TWO64 && d < TWO64
    ensures OpenBytes(w, l, d, f, u, SealBytes(v, k, c, e, t, p)) == Open(w, l, d, f, u, Sealing(v, k, c, e, t, p))
    ensures OpenBytes(w, l, d, f, u, SealBytes(v, k, c, e, t, p)).Some? <==>
              v == w && k == l && c == d && t == u && (v ==> e == f)
  {
    if NonceBytes(c) == NonceBytes(d) && AdBytes(v, Code(t), c, e) == AdBytes(w, Code(u), d, f) {
      NonceInjective(c, d);
      AdInjective(v, Code(t), c, e, w, Code(u), d, f);
    }
  }
}
