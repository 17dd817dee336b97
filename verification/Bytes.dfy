/** Bytes, fixed-size byte arrays, and big-endian integers as `put_u32` ... `get_u64` write and read them. */
module Bytes {
  type byte = x: int | 0 <= x < 256

  type Bytes16 = s: seq<byte> | |s| == 16 witness Zeros(16)
  type Bytes32 = s: seq<byte> | |s| == 32 witness Zeros(32)
  type Bytes64 = s: seq<byte> | |s| == 64 witness Zeros(64)

  type Uint64 = n: nat | n < TWO64

  const TWO32: nat := 0x1_0000_0000
  const TWO64: nat := 0x1_0000_0000_0000_0000

  function Zeros(n: nat): (s: seq<byte>)
    ensures |s| == n
  {
    seq(n, _ => 0)
  }

  // The bytes of a text, a char standing for a byte.
  function Raw(s: string): seq<byte> {
    seq(|s|, i requires 0 <= i < |s| => (s[i] as int % 256) as byte)
  }

  // 256^n
  function Pow256(n: nat): (p: nat)
    ensures p > 0
  {
    if n == 0 then 1 else 256 * Pow256(n - 1)
  }

  lemma Powers()
    ensures Pow256(1) == 256 && Pow256(2) == 65536 && Pow256(4) == TWO32 && Pow256(8) == TWO64
  {
    assert Pow256(3) == 256 * Pow256(2);
    assert Pow256(5) == 256 * Pow256(4);
    assert Pow256(6) == 256 * Pow256(5);
    assert Pow256(7) == 256 * Pow256(6);
  }

  // The low n bytes of v, most significant first.
  function Be(v: nat, n: nat): (s: seq<byte>)
    ensures |s| == n
  {
    if n == 0 then [] else Be(v / 256, n - 1) + [v % 256]
  }

  function ValueOf(s: seq<byte>): nat {
    if s == [] then 0 else 256 * ValueOf(s[..|s| - 1]) + s[|s| - 1]
  }

  lemma {:induction false} ValueOfBe(v: nat, n: nat)
    requires v < Pow256(n)
    ensures ValueOf(Be(v, n)) == v
  {
    if n > 0 {
      ValueOfBe(v / 256, n - 1);
      assert Be(v, n)[..n - 1] == Be(v / 256, n - 1);
    }
  }

  lemma {:induction false} ValueBound(s: seq<byte>)
    ensures ValueOf(s) < Pow256(|s|)
  {
    if s != [] { ValueBound(s[..|s| - 1]); }
  }

  lemma {:induction false} BeOfValue(s: seq<byte>)
    ensures Be(ValueOf(s), |s|) == s
  {
    if s != [] {
      BeOfValue(s[..|s| - 1]);
      assert s == s[..|s| - 1] + [s[|s| - 1]];
    }
  }

  lemma BeInjective(v: nat, w: nat, n: nat)
    requires v < Pow256(n) && w < Pow256(n) && Be(v, n) == Be(w, n)
    ensures v == w
  {
    ValueOfBe(v, n);
    ValueOfBe(w, n);
  }

  lemma RoundTrip32(v: nat)
    requires v < TWO32
    ensures ValueOf(Be(v, 4)) == v
  {
    Powers();
    ValueOfBe(v, 4);
  }

  lemma RoundTrip64(v: nat)
    requires v < TWO64
    ensures ValueOf(Be(v, 8)) == v
  {
    Powers();
    ValueOfBe(v, 8);
  }

  // v >> (8 * i)
  function ShiftRight(v: nat, i: nat): nat {
    if i == 0 then v else ShiftRight(v, i - 1) / 256
  }

  method PutU64(out: seq<byte>, v: nat) returns (res: seq<byte>)
    ensures res == out + Be(v, 8)
  {
    res := out;
    var i := 8;
    while i > 0
      invariant 0 <= i <= 8
      invariant res == out + Be(ShiftRight(v, i), 8 - i)
    {
      i := i - 1;
      res := res + [ShiftRight(v, i) % 256];
    }
  }

  method GetU64(p: seq<byte>) returns (v: nat)
    requires |p| >= 8
    ensures v == ValueOf(p[..8])
  {
    v := 0;
    Powers();
    for i := 0 to 8
      invariant v == ValueOf(p[..i])
    {
      assert p[..i + 1][..i] == p[..i];
      ValueBound(p[..i + 1]);
      PowMonotone(i + 1, 8);
      v := (v * 256 + p[i]) % TWO64;
    }
  }

  lemma {:induction false} PowMonotone(m: nat, n: nat)
    requires m <= n
    ensures Pow256(m) <= Pow256(n)
    decreases n
  {
    if m < n { PowMonotone(m, n - 1); }
  }

  function GetU32(p: seq<byte>): (v: nat)
    requires |p| >= 4
    ensures v == ValueOf(p[..4])
  {
    var a: int, b: int, c: int, d: int := p[0], p[1], p[2], p[3];
    ValueOfFour(p[..4]);
    a * 0x100_0000 + b * 0x1_0000 + c * 0x100 + d
  }

  lemma ValueOfFour(s: seq<byte>)
    requires |s| == 4
    ensures ValueOf(s) == s[0] as int * 0x100_0000 + s[1] as int * 0x1_0000 + s[2] as int * 0x100 + s[3] as int
  {
    assert s[..3][..2] == s[..2] && s[..2][..1] == s[..1] && s[..1][..0] == [];
    assert ValueOf(s[..1]) == 256 * ValueOf([]) + s[0] as int;
    assert ValueOf(s[..2]) == 256 * ValueOf(s[..1]) + s[1] as int;
    assert ValueOf(s[..3]) == 256 * ValueOf(s[..2]) + s[2] as int;
  }

  // What `put_u32` pushes is the big-endian form.
  function PutU32(v: nat): (s: seq<byte>)
    requires v < TWO32
    ensures s == Be(v, 4)
  {
    FourBytes(v);
    [v / 0x100_0000, v / 0x1_0000 % 256, v / 0x100 % 256, v % 256]
  }

  lemma FourBytes(v: nat)
    requires v < TWO32
    ensures Be(v, 4) == [v / 0x100_0000, v / 0x1_0000 % 256, v / 0x100 % 256, v % 256]
  {
    assert v / 256 / 256 == v / 0x1_0000 && v / 256 / 256 / 256 == v / 0x100_0000;
    assert Be(v / 256 / 256 / 256, 1) == Be(v / 256 / 256 / 256 / 256, 0) + [v / 256 / 256 / 256 % 256];
    assert Be(v / 256 / 256, 2) == Be(v / 256 / 256 / 256, 1) + [v / 256 / 256 % 256];
    assert Be(v / 256, 3) == Be(v / 256 / 256, 2) + [v / 256 % 256];
  }
}
