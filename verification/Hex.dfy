/** The hex codec that keys are stored with. */
module Hex {
  import opened Options
  import opened Bytes

  const DIGITS := "0123456789abcdef"

  function ToHex(s: seq<byte>): (h: string)
    ensures |h| == 2 * |s|
  {
    seq(2 * |s|, i requires 0 <= i < 2 * |s| => if i % 2 == 0 then DIGITS[s[i / 2] / 16] else DIGITS[s[i / 2] % 16])
  }

  function Nibble(c: char): (r: Option<nat>)
    ensures r.Some? ==> r.value < 16
  {
    if '0' <= c <= '9' then Some(c as int - '0' as int)
    else if 'a' <= c <= 'f' then Some(c as int - 'a' as int + 10)
    else if 'A' <= c <= 'F' then Some(c as int - 'A' as int + 10)
    else None
  }

  predicate AllHex(h: string) {
    forall i :: 0 <= i < |h| ==> Nibble(h[i]).Some?
  }

  function FromHex(h: string, n: nat): (r: Option<seq<byte>>)
    ensures r.Some? ==> |r.value| == n
  {
    if |h| == 2 * n && AllHex(h)
    then Some(seq(n, i requires 0 <= i < n => (16 * Nibble(h[2 * i]).value + Nibble(h[2 * i + 1]).value) as byte))
    else None
  }

  lemma DigitNibble(n: nat)
    requires n < 16
    ensures Nibble(DIGITS[n]) == Some(n)
  {
  }

  lemma HexDigits(s: seq<byte>)
    ensures AllHex(ToHex(s))
  {
    var h := ToHex(s);
    forall i | 0 <= i < |h| ensures Nibble(h[i]).Some? {
      DigitNibble(s[i / 2] / 16);
      DigitNibble(s[i / 2] % 16);
    }
  }

  lemma HexAt(s: seq<byte>, i: nat)
    requires i < |s|
    ensures ToHex(s)[2 * i] == DIGITS[s[i] / 16] && ToHex(s)[2 * i + 1] == DIGITS[s[i] % 16]
    ensures Nibble(ToHex(s)[2 * i]) == Some(s[i] / 16) && Nibble(ToHex(s)[2 * i + 1]) == Some(s[i] % 16)
  {
    DigitNibble(s[i] / 16);
    DigitNibble(s[i] % 16);
  }

  lemma HexRoundTrip(s: seq<byte>)
    ensures FromHex(ToHex(s), |s|) == Some(s)
  {
    var h := ToHex(s);
    HexDigits(s);
    hide ToHex, Nibble;
    var r := FromHex(h, |s|).value;
    forall i | 0 <= i < |s| ensures r[i] == s[i] {
      HexAt(s, i);
      assert r[i] == 16 * Nibble(h[2 * i]).value + Nibble(h[2 * i + 1]).value;
    }
    assert r == s;
  }

  function Lower(c: char): char {
    if 'A' <= c <= 'F' then c + 'a' - 'A' else c
  }

  /** A text reads as these bytes if and only if it is their hex form up to the case of the digits. */
  lemma ReadsAsIff(h: string, s: seq<byte>)
    ensures FromHex(h, |s|) == Some(s) <==>
            |h| == 2 * |s| && forall i :: 0 <= i < |h| ==> Lower(h[i]) == ToHex(s)[i]
  {
    if |h| == 2 * |s| {
      hide ToHex, Nibble, Lower, FromHex;
      if forall i :: 0 <= i < |h| ==> Lower(h[i]) == ToHex(s)[i] { ReadsAs(h, s); }
      if FromHex(h, |s|) == Some(s) { OnlyReads(h, s); }
    }
  }

  lemma ReadsAs(h: string, s: seq<byte>)
    requires |h| == 2 * |s| && forall i :: 0 <= i < |h| ==> Lower(h[i]) == ToHex(s)[i]
    ensures FromHex(h, |s|) == Some(s)
  {
    HexDigits(s);
    HexRoundTrip(s);
    var g := ToHex(s);
    hide ToHex, Nibble, Lower;
    forall i | 0 <= i < |h| ensures Nibble(h[i]) == Nibble(g[i]) && Nibble(g[i]).Some? { LowerNibble(h[i]); }
    assert AllHex(h);
    assert FromHex(h, |s|).value == FromHex(g, |s|).value;
  }

  lemma OnlyReadsAt(h: string, s: seq<byte>, k: nat)
    requires |h| == 2 * |s| && FromHex(h, |s|) == Some(s) && k < |s|
    ensures Lower(h[2 * k]) == ToHex(s)[2 * k] && Lower(h[2 * k + 1]) == ToHex(s)[2 * k + 1]
  {
    HexAt(s, k);
    assert s[k] == 16 * Nibble(h[2 * k]).value + Nibble(h[2 * k + 1]).value;
    NibbleDigit(h[2 * k]);
    NibbleDigit(h[2 * k + 1]);
    hide ToHex, Nibble, Lower, FromHex;
    assert Nibble(h[2 * k]).value == s[k] / 16 && Nibble(h[2 * k + 1]).value == s[k] % 16;
  }

  lemma OnlyReads(h: string, s: seq<byte>)
    requires |h| == 2 * |s| && FromHex(h, |s|) == Some(s)
    ensures forall i :: 0 <= i < |h| ==> Lower(h[i]) == ToHex(s)[i]
  {
    hide ToHex, Nibble, Lower, FromHex;
    forall i | 0 <= i < |h| ensures Lower(h[i]) == ToHex(s)[i] {
      OnlyReadsAt(h, s, i / 2);
      assert i == 2 * (i / 2) || i == 2 * (i / 2) + 1;
    }
  }

  lemma LowerNibble(c: char)
    ensures Nibble(c).Some? <==> Nibble(Lower(c)).Some? && !('A' <= Lower(c) <= 'F')
    ensures Nibble(c) == Nibble(Lower(c))
  {
  }

  lemma NibbleDigit(c: char)
    requires Nibble(c).Some?
    ensures DIGITS[Nibble(c).value] == Lower(c)
  {
  }

  lemma HexInjective(s: seq<byte>, t: seq<byte>)
    requires ToHex(s) == ToHex(t)
    ensures s == t
  {
    HexRoundTrip(s);
    HexRoundTrip(t);
  }

  // ---- the code --------------------------------------------------------------

  method Encode(data: seq<byte>) returns (out: string)
    ensures out == ToHex(data)
  {
    out := "";
    for i := 0 to |data|
      invariant out == ToHex(data)[..2 * i]
    {
      var h := ToHex(data);
      assert h[..2 * (i + 1)] == h[..2 * i] + [h[2 * i], h[2 * i + 1]];
      out := out + [DIGITS[data[i] / 16]];
      out := out + [DIGITS[data[i] % 16]];
    }
  }

  // False leaves the array with some prefix overwritten.
  method Decode(hex: string, out: array<byte>) returns (ok: bool)
    modifies out
    ensures ok <==> FromHex(hex, out.Length).Some?
    ensures ok ==> out[..] == FromHex(hex, out.Length).value
  {
    if |hex| != out.Length * 2 { return false; }
    for i := 0 to out.Length
      invariant forall k :: 0 <= k < 2 * i ==> Nibble(hex[k]).Some?
      invariant forall k :: 0 <= k < i ==> out[k] == 16 * Nibble(hex[2 * k]).value + Nibble(hex[2 * k + 1]).value
    {
      var hi, lo := Nibble(hex[i * 2]), Nibble(hex[i * 2 + 1]);
      if hi == None || lo == None { return false; }
      out[i] := 16 * hi.value + lo.value;
    }
    return true;
  }
}
