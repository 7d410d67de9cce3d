/** Bytes and the big-endian integers that every frame of the wire format is built from. */
module Bytes {
  datatype Option<+T> = None | Some(value: T)

  type byte = b: int | 0 <= b < 256

  /** A C string: bytes without a NUL. */
  predicate NulFree(s: seq<byte>) {
    0 !in s
  }

  function Min(a: nat, b: nat): nat {
    if a < b then a else b
  }

  function Max(a: nat, b: nat): nat {
    if a < b then b else a
  }

  function Pow256(k: nat): nat {
    if k == 0 then 1 else 256 * Pow256(k - 1)
  }

  /** The low `width` base-256 digits of `n`, most significant first. */
  function ToBE(n: nat, width: nat): (s: seq<byte>)
    ensures |s| == width
  {
    if width == 0 then [] else ToBE(n / 256, width - 1) + [n % 256]
  }

  function FromBE(s: seq<byte>): nat {
    if s == [] then 0 else FromBE(s[..|s| - 1]) * 256 + s[|s| - 1]
  }

  lemma {:induction false} FromBEToBE(n: nat, width: nat)
    requires n < Pow256(width)
    ensures FromBE(ToBE(n, width)) == n
  {
    if width > 0 {
      FromBEToBE(n / 256, width - 1);
      assert ToBE(n, width)[..width - 1] == ToBE(n / 256, width - 1);
    }
  }

  lemma {:induction false} ToBEFromBE(s: seq<byte>)
    ensures FromBE(s) < Pow256(|s|)
    ensures ToBE(FromBE(s), |s|) == s
  {
    if s != [] {
      var init := s[..|s| - 1];
      ToBEFromBE(init);
      assert FromBE(s) / 256 == FromBE(init);
      assert s == init + [s[|s| - 1]];
    }
  }

  lemma Widths()
    ensures Pow256(2) == 0x1_0000
    ensures Pow256(4) == 0x1_0000_0000
    ensures Pow256(8) == 0x1_0000_0000_0000_0000
  {
    assert Pow256(3) == 0x100_0000;
    assert Pow256(5) == 0x100_0000_0000;
    assert Pow256(6) == 0x1_0000_0000_0000;
    assert Pow256(7) == 0x100_0000_0000_0000;
  }

  const U16_LIMIT: nat := 0x1_0000
  const U64_LIMIT: nat := 0x1_0000_0000_0000_0000

  newtype uint64 = n: int | 0 <= n < U64_LIMIT

  function GetU16(p: seq<byte>): nat
    requires |p| >= 2
  {
    p[0] as nat * 0x100 + p[1]
  }

  function GetU32(p: seq<byte>): nat
    requires |p| >= 4
  {
    p[0] as nat * 0x100_0000 + p[1] as nat * 0x1_0000 + p[2] as nat * 0x100 + p[3]
  }

  function GetU64(p: seq<byte>): nat
    requires |p| >= 8
  {
    p[0] as nat * 0x100_0000_0000_0000 + p[1] as nat * 0x1_0000_0000_0000
    + p[2] as nat * 0x100_0000_0000 + p[3] as nat * 0x1_0000_0000
    + p[4] as nat * 0x100_0000 + p[5] as nat * 0x1_0000 + p[6] as nat * 0x100 + p[7]
  }

  lemma FromBEPrefix(p: seq<byte>, k: nat)
    requires k < |p|
    ensures FromBE(p[..k + 1]) == FromBE(p[..k]) * 256 + p[k]
  {
    assert p[..k + 1][..k] == p[..k];
  }

  /** The shifted sums of the readers are the big-endian value of the bytes read. */
  lemma GettersAreBigEndian(p: seq<byte>)
    ensures |p| >= 2 ==> GetU16(p) == FromBE(p[..2])
    ensures |p| >= 4 ==> GetU32(p) == FromBE(p[..4])
    ensures |p| >= 8 ==> GetU64(p) == FromBE(p[..8])
  {
    if |p| >= 2 {
      FromBEPrefix(p, 0);
      FromBEPrefix(p, 1);
      assert FromBE(p[..2]) == GetU16(p);
    }
    if |p| >= 4 {
      FromBEPrefix(p, 2);
      FromBEPrefix(p, 3);
      assert FromBE(p[..4]) == GetU32(p);
    }
    if |p| >= 8 {
      var high := FromBE(p[..4]);
      FromBEPrefix(p, 4);
      FromBEPrefix(p, 5);
      FromBEPrefix(p, 6);
      FromBEPrefix(p, 7);
      assert FromBE(p[..6]) == high * 0x1_0000 + p[4] as nat * 0x100 + p[5];
    }
  }

  /** Reading back what was put, whatever follows it in the buffer. */
  lemma GetPut(v: nat, rest: seq<byte>)
    ensures v < U16_LIMIT ==> GetU16(ToBE(v, 2) + rest) == v
    ensures v < 0x1_0000_0000 ==> GetU32(ToBE(v, 4) + rest) == v
    ensures v < U64_LIMIT ==> GetU64(ToBE(v, 8) + rest) == v
  {
    Widths();
    forall w: nat | w == 2 || w == 4 || w == 8
      ensures (ToBE(v, w) + rest)[..w] == ToBE(v, w)
      ensures v < Pow256(w) ==> FromBE(ToBE(v, w)) == v
    {
      if v < Pow256(w) {
        FromBEToBE(v, w);
      }
    }
    GettersAreBigEndian(ToBE(v, 2) + rest);
    GettersAreBigEndian(ToBE(v, 4) + rest);
    GettersAreBigEndian(ToBE(v, 8) + rest);
  }

  /** Putting back what was read. */
  lemma PutGet(p: seq<byte>)
    ensures |p| >= 2 ==> GetU16(p) < U16_LIMIT && ToBE(GetU16(p), 2) == p[..2]
    ensures |p| >= 8 ==> GetU64(p) < U64_LIMIT && ToBE(GetU64(p), 8) == p[..8]
  {
    Widths();
    GettersAreBigEndian(p);
    if |p| >= 2 {
      ToBEFromBE(p[..2]);
    }
    if |p| >= 8 {
      ToBEFromBE(p[..8]);
    }
  }

  /** memcpy of `src` to `dst + off`. */
  function Blit(dst: seq<byte>, off: nat, src: seq<byte>): (r: seq<byte>)
    requires off + |src| <= |dst|
    ensures |r| == |dst|
  {
    dst[..off] + src + dst[off + |src|..]
  }

  method Memcpy(dst: array<byte>, off: nat, src: seq<byte>)
    requires off + |src| <= dst.Length
    modifies dst
    ensures dst[..] == Blit(old(dst[..]), off, src)
  {
    forall i | 0 <= i < |src| {
      dst[off + i] := src[i];
    }
  }

  method PutU16(p: array<byte>, off: nat, v: nat)
    requires off + 2 <= p.Length
    modifies p
    ensures p[..] == Blit(old(p[..]), off, ToBE(v, 2))
  {
    p[off] := v / 0x100 % 0x100;
    p[off + 1] := v % 0x100;
    assert ToBE(v, 2) == ToBE(v / 256, 1) + [v % 256];
    assert ToBE(v, 2) == [p[off], p[off + 1]];
  }

  method PutU64(p: array<byte>, off: nat, v: nat)
    requires off + 8 <= p.Length
    modifies p
    ensures p[..] == Blit(old(p[..]), off, ToBE(v, 8))
  {
    var d := [v / 0x100_0000_0000_0000 % 0x100, v / 0x1_0000_0000_0000 % 0x100,
              v / 0x100_0000_0000 % 0x100, v / 0x1_0000_0000 % 0x100, v / 0x100_0000 % 0x100,
              v / 0x1_0000 % 0x100, v / 0x100 % 0x100, v % 0x100];
    assert d == ToBE(v, 8) by {
      EightDigits(v);
    }
    Memcpy(p, off, d);
  }

  lemma Shifts(v: nat)
    ensures v / 0x100 / 256 == v / 0x1_0000
    ensures v / 0x1_0000 / 256 == v / 0x100_0000
    ensures v / 0x100_0000 / 256 == v / 0x1_0000_0000
    ensures v / 0x1_0000_0000 / 256 == v / 0x100_0000_0000
    ensures v / 0x100_0000_0000 / 256 == v / 0x1_0000_0000_0000
    ensures v / 0x1_0000_0000_0000 / 256 == v / 0x100_0000_0000_0000
  {
  }

  lemma EightDigits(v: nat)
    ensures ToBE(v, 8) == [v / 0x100_0000_0000_0000 % 0x100, v / 0x1_0000_0000_0000 % 0x100,
                           v / 0x100_0000_0000 % 0x100, v / 0x1_0000_0000 % 0x100, v / 0x100_0000 % 0x100,
                           v / 0x1_0000 % 0x100, v / 0x100 % 0x100, v % 0x100]
  {
    var v1, v2, v3, v4 := v / 256, v / 0x1_0000, v / 0x100_0000, v / 0x1_0000_0000;
    var v5, v6, v7 := v / 0x100_0000_0000, v / 0x1_0000_0000_0000, v / 0x100_0000_0000_0000;
    Shifts(v);
    assert ToBE(v7, 1) == [v7 % 256];
    assert ToBE(v6, 2) == [v7 % 256, v6 % 256];
    assert ToBE(v5, 3) == [v7 % 256, v6 % 256, v5 % 256];
    assert ToBE(v4, 4) == [v7 % 256, v6 % 256, v5 % 256, v4 % 256];
    assert ToBE(v3, 5) == [v7 % 256, v6 % 256, v5 % 256, v4 % 256, v3 % 256];
    assert ToBE(v2, 6) == [v7 % 256, v6 % 256, v5 % 256, v4 % 256, v3 % 256, v2 % 256];
    assert ToBE(v1, 7) == [v7 % 256, v6 % 256, v5 % 256, v4 % 256, v3 % 256, v2 % 256, v1 % 256];
  }

  // ---------------------------------------------------------------- Bit operations

  /** `a ^ b` and `a | b`, bit by bit. */
  function Xor(a: nat, b: nat): nat {
    if a == 0 && b == 0 then 0 else 2 * Xor(a / 2, b / 2) + (a + b) % 2
  }

  function Or(a: nat, b: nat): nat {
    if a == 0 && b == 0 then 0 else 2 * Or(a / 2, b / 2) + Max(a % 2, b % 2)
  }

  lemma {:induction false} XorZero(a: nat, b: nat)
    ensures Xor(a, b) == 0 <==> a == b
  {
    if a != 0 || b != 0 {
      XorZero(a / 2, b / 2);
      assert a == 2 * (a / 2) + a % 2 && b == 2 * (b / 2) + b % 2;
    }
  }

  lemma {:induction false} OrZero(a: nat, b: nat)
    ensures Or(a, b) == 0 <==> a == 0 && b == 0
  {
    if a != 0 || b != 0 {
      OrZero(a / 2, b / 2);
    }
  }
}
