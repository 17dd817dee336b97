/**
  The encoders and decoders as the code has them: encoders append to a buffer, decoders move a cursor
  over their input after checking that what they are about to read is there.
*/
module Codec {
  import opened Options
  import opened Bytes
  import opened Wire

  method PutStr8(buffer: seq<byte>, s: seq<byte>) returns (out: seq<byte>)
    ensures out == buffer + Str8(s)
  {
    out := buffer + [|s| % 256];
    out := out + s;
  }

  // `ok` is false when the name runs past the end of the input.
  method GetStr8(p: seq<byte>, cursor: nat) returns (ok: bool, s: seq<byte>, off: nat)
    requires cursor <= |p|
    ensures off <= |p|
    ensures TakeStr8(p[cursor..]) == if ok then Got(s, p[off..]) else Fail
  {
    ok, s, off := false, [], cursor;
    if off + 1 > |p| { return; }
    var len := p[off];
    off := off + 1;
    assert p[cursor..][1..] == p[off..];
    if off + len > |p| { return; }
    assert p[off..][..len] == p[off..off + len] && p[off..][len..] == p[off + len..];
    ok, s, off := true, p[off..off + len], off + len;
  }

  method EncodeHello(h: Hello) returns (out: seq<byte>)
    ensures out == HelloBytes(h)
  {
    out := [h.version];
    out := out + h.identity;
    out := out + h.ephemeral;
    out := out + h.nonce;
    out := PutStr8(out, h.service);
    out := out + h.signature;
    if h.maxVersion >= 2 {
      out := out + [h.maxVersion];
      out := out + h.signatureV2;
    }
  }

  method DecodeHello(p: seq<byte>) returns (r: Option<Hello>)
    ensures r == ParseHello(p).Value()
  {
    if |p| < 1 + 32 + 32 + 16 + 1 { return None; }
    var off := 0;
    var version := p[off];
    off := off + 1;
    assert p[1..][32..] == p[33..] && p[33..][32..] == p[65..] && p[65..][16..] == p[81..];
    assert p[1..][..32] == p[1..33] && p[33..][..32] == p[33..65] && p[65..][..16] == p[65..81];
    var identity: Bytes32 := p[off..off + 32];
    off := off + 32;
    var ephemeral: Bytes32 := p[off..off + 32];
    off := off + 32;
    var nonce: Bytes16 := p[off..off + 16];
    off := off + 16;
    var ok, service, off' := GetStr8(p, off);
    off := off';
    if !ok { return None; }
    if off + 64 > |p| { return None; }
    var signature: Bytes64 := p[off..off + 64];
    assert p[off..][..64] == signature && p[off..][64..] == p[off + 64..];
    off := off + 64;
    var h := Hello(version, identity, ephemeral, nonce, service, signature, 1, Zeros(64), false);
    if |p| >= off + 1 + 64 {
      assert p[off..][0] == p[off] && p[off..][1..65] == p[off + 1..off + 65];
      h := h.(maxVersion := p[off], signatureV2 := p[off + 1..off + 65], hasV2 := true);
    }
    return Some(h);
  }

  method EncodeHelloAck(h: HelloAck) returns (out: seq<byte>)
    ensures out == HelloAckBytes(h)
  {
    out := [h.version];
    out := out + h.identity;
    out := out + h.ephemeral;
    out := out + h.serverNonce;
    out := out + h.clientNonce;
    out := out + [h.status];
    out := out + h.signature;
    if h.maxVersion >= 2 {
      out := out + [h.maxVersion];
      out := out + h.signatureV2;
    }
  }

  method DecodeHelloAck(p: seq<byte>) returns (r: Option<HelloAck>)
    ensures r == ParseHelloAck(p).Value()
  {
    if |p| < 1 + 32 + 32 + 16 + 16 + 1 + 64 { return None; }
    assert p[1..][32..] == p[33..] && p[33..][32..] == p[65..] && p[65..][16..] == p[81..];
    assert p[81..][16..] == p[97..] && p[97..][1..] == p[98..] && p[98..][64..] == p[162..];
    assert p[1..][..32] == p[1..33] && p[33..][..32] == p[33..65] && p[65..][..16] == p[65..81];
    assert p[81..][..16] == p[81..97] && p[98..][..64] == p[98..162];
    var off := 162;
    var h := HelloAck(p[0], p[1..33], p[33..65], p[65..81], p[81..97], p[97], p[98..162], 1, Zeros(64), false);
    if |p| >= off + 1 + 64 {
      assert p[off..][0] == p[off] && p[off..][1..65] == p[off + 1..off + 65];
      h := h.(maxVersion := p[off], signatureV2 := p[off + 1..off + 65], hasV2 := true);
    }
    return Some(h);
  }

  method EncodeRequest(r: Request) returns (out: seq<byte>)
    ensures out == RequestBytes(r)
  {
    out := PutU64([], r.id);
    out := out + [if r.oneway then 1 else 0];
    out := PutStr8(out, r.endpoint);
    out := out + Be(|r.data|, 4);
    out := out + r.data;
  }

  // The length-prefixed tail that requests, responses and chunks end with.
  method GetData(p: seq<byte>, cursor: nat) returns (r: Option<seq<byte>>)
    requires cursor <= |p|
    ensures r == TakeSized(p[cursor..]).Value()
  {
    if cursor + 4 > |p| { return None; }
    var len := GetU32(p[cursor..]);
    var off := cursor + 4;
    assert p[cursor..][4..] == p[off..];
    if off + len > |p| { return None; }
    assert p[off..][..len] == p[off..off + len];
    return Some(p[off..off + len]);
  }

  method DecodeRequest(p: seq<byte>) returns (r: Option<Request>)
    ensures r == ParseRequest(p).Value()
  {
    if |p| < 8 + 1 + 1 { return None; }
    var id := GetU64(p);
    var oneway := p[8] != 0;
    assert p[8..][1..] == p[9..];
    var ok, endpoint, off := GetStr8(p, 9);
    if !ok { return None; }
    var data := GetData(p, off);
    if data.None? { return None; }
    return Some(Request(id, oneway, endpoint, data.value));
  }

  method EncodeResponse(r: Response) returns (out: seq<byte>)
    ensures out == ResponseBytes(r)
  {
    out := PutU64([], r.id);
    out := out + [r.status];
    out := out + Be(|r.data|, 4);
    out := out + r.data;
  }

  method DecodeResponse(p: seq<byte>) returns (r: Option<Response>)
    ensures r == ParseResponse(p).Value()
  {
    if |p| < 8 + 1 + 4 { return None; }
    var id := GetU64(p);
    assert p[8..][1..] == p[9..];
    var data := GetData(p, 9);
    if data.None? { return None; }
    return Some(Response(id, p[8], data.value));
  }

  method EncodeStreamChunk(c: StreamChunk) returns (out: seq<byte>)
    ensures out == ChunkBytes(c)
  {
    out := PutU64([], c.id);
    out := out + Be(c.seqNo, 4);
    out := out + [if c.last then 1 else 0];
    out := PutStr8(out, c.endpoint);
    out := out + Be(|c.data|, 4);
    out := out + c.data;
  }

  method DecodeStreamChunk(p: seq<byte>) returns (r: Option<StreamChunk>)
    ensures r == ParseChunk(p).Value()
  {
    if |p| < 8 + 4 + 1 + 1 { return None; }
    var id := GetU64(p);
    assert p[8..][4..] == p[12..] && p[8..][..4] == p[8..12] && p[12..][1..] == p[13..];
    var seqNo := GetU32(p[8..]);
    var last := p[12] != 0;
    var ok, endpoint, off := GetStr8(p, 13);
    if !ok { return None; }
    var data := GetData(p, off);
    if data.None? { return None; }
    return Some(StreamChunk(id, seqNo, last, endpoint, data.value));
  }
}
