/** The FNV-1a request digest, section 2 of draft-eastlake-fnv (The FNV
    Non-Cryptographic Hash Algorithm), 64-bit variant. */
module Digest {
  import opened Common
  import opened Numerals

  const OFFSET_BASIS: nat := 0xcbf2_9ce4_8422_2325
  const PRIME: nat := 0x100_0000_01b3

  type Byte = n: nat | n < 256

  function Pow2(bits: nat): nat {
    if bits == 0 then 1 else 2 * Pow2(bits - 1)
  }

  /** Bitwise exclusive-or of the low `bits` bits. */
  function Xor(a: nat, b: nat, bits: nat): (r: nat)
    ensures r < Pow2(bits)
  {
    if bits == 0 then 0
    else (if a % 2 != b % 2 then 1 else 0) + 2 * Xor(a / 2, b / 2, bits - 1)
  }

  lemma Pow2At64()
    ensures Pow2(64) == U64_LIMIT
  {
    assert Pow2(8) == 0x100;
    assert Pow2(16) == 0x1_0000;
    assert Pow2(24) == 0x100_0000;
    assert Pow2(32) == 0x1_0000_0000;
    assert Pow2(40) == 0x100_0000_0000;
    assert Pow2(48) == 0x1_0000_0000_0000;
    assert Pow2(56) == 0x100_0000_0000_0000;
  }

  function XorByte(hash: nat, b: Byte): (r: nat)
    ensures r < U64_LIMIT
  {
    Pow2At64();
    Xor(hash, b, 64)
  }

  function WrappingMul(hash: nat): (r: nat)
    ensures r < U64_LIMIT
  {
    hash * PRIME % U64_LIMIT
  }

  function Absorb(hash: nat, b: Byte): (r: nat)
    requires hash < U64_LIMIT
    ensures r < U64_LIMIT
  {
    WrappingMul(XorByte(hash, b))
  }

  function Fold(hash: nat, payload: seq<Byte>): (r: nat)
    requires hash < U64_LIMIT
    ensures r < U64_LIMIT
    decreases |payload|
  {
    if payload == [] then hash
    else Absorb(Fold(hash, payload[..|payload| - 1]), payload[|payload| - 1])
  }

  function RequestDigest(payload: seq<Byte>): string {
    Hex(Fold(OFFSET_BASIS, payload), 16)
  }

  method FromCanonicalPayload(payload: seq<Byte>) returns (digest: string)
    ensures digest == RequestDigest(payload)
  {
    var hash: nat := OFFSET_BASIS;
    for i := 0 to |payload|
      invariant hash < U64_LIMIT
      invariant hash == Fold(OFFSET_BASIS, payload[..i])
    {
      assert payload[..i + 1][..i] == payload[..i];
      hash := XorByte(hash, payload[i]);
      hash := WrappingMul(hash);
    }
    assert payload[..|payload|] == payload;
    digest := Hex(hash, 16);
  }

  // ---------------------------------------------------------------- no one-byte change is missed

  lemma {:induction false} XorInjective(a: nat, b: nat, c: nat, d: nat, bits: nat)
    requires a < Pow2(bits) && b < Pow2(bits) && c < Pow2(bits) && d < Pow2(bits)
    requires Xor(a, c, bits) == Xor(b, d, bits)
    ensures c == d ==> a == b
    ensures a == b ==> c == d
  {
    if bits > 0 {
      XorInjective(a / 2, b / 2, c / 2, d / 2, bits - 1);
    }
  }

  /** The inverse of the prime modulo 2^64. */
  const PRIME_INVERSE: nat := 0xce96_5057_aff6_957b

  lemma WrappingMulInjective(h: nat, g: nat)
    requires h < U64_LIMIT && g < U64_LIMIT
    requires WrappingMul(h) == WrappingMul(g)
    ensures h == g
  {
    var k := PRIME * PRIME_INVERSE / U64_LIMIT;
    assert PRIME * PRIME_INVERSE == 1 + k * U64_LIMIT;
    var j := h * PRIME / U64_LIMIT - g * PRIME / U64_LIMIT;
    assert (h - g) * PRIME == j * U64_LIMIT;
    assert h - g == U64_LIMIT * (j * PRIME_INVERSE - (h - g) * k);
  }

  lemma {:induction false} FoldInjective(h: nat, g: nat, tail: seq<Byte>)
    requires h < U64_LIMIT && g < U64_LIMIT
    requires Fold(h, tail) == Fold(g, tail)
    ensures h == g
    decreases |tail|
  {
    if tail != [] {
      var front, b := tail[..|tail| - 1], tail[|tail| - 1];
      WrappingMulInjective(XorByte(Fold(h, front), b), XorByte(Fold(g, front), b));
      Pow2At64();
      XorInjective(Fold(h, front), Fold(g, front), b, b, 64);
      FoldInjective(h, g, front);
    }
  }

  lemma {:induction false} FoldConcat(hash: nat, front: seq<Byte>, tail: seq<Byte>)
    requires hash < U64_LIMIT
    ensures Fold(hash, front + tail) == Fold(Fold(hash, front), tail)
    decreases |tail|
  {
    if tail == [] {
      assert front + tail == front;
    } else {
      var all := front + tail;
      assert all[..|all| - 1] == front + tail[..|tail| - 1];
      FoldConcat(hash, front, tail[..|tail| - 1]);
    }
  }

  /** Payloads of equal length that differ in exactly one byte have different digests. */
  lemma OneByteChangeIsSeen(p: seq<Byte>, q: seq<Byte>, at: nat)
    requires |p| == |q| && at < |p| && p[at] != q[at]
    requires forall i | 0 <= i < |p| && i != at :: p[i] == q[i]
    ensures RequestDigest(p) != RequestDigest(q)
  {
    var front, tail := p[..at], p[at + 1..];
    assert p == front + [p[at]] + tail && q == front + [q[at]] + tail;
    var h := Fold(OFFSET_BASIS, front);
    var a, b := Fold(h, [p[at]]), Fold(h, [q[at]]);
    FoldConcat(OFFSET_BASIS, front + [p[at]], tail);
    FoldConcat(OFFSET_BASIS, front + [q[at]], tail);
    FoldConcat(OFFSET_BASIS, front, [p[at]]);
    FoldConcat(OFFSET_BASIS, front, [q[at]]);
    assert [p[at]][..0] == [] && [q[at]][..0] == [];
    if RequestDigest(p) == RequestDigest(q) {
      assert Pow16(16) == U64_LIMIT by { Pow16At16(); }
      HexInjective(Fold(OFFSET_BASIS, p), Fold(OFFSET_BASIS, q), 16);
      FoldInjective(a, b, tail);
      WrappingMulInjective(XorByte(h, p[at]), XorByte(h, q[at]));
      Pow2At64();
      XorInjective(h, h, p[at], q[at], 64);
    }
  }

  lemma Pow16At16()
    ensures Pow16(16) == U64_LIMIT
  {
    assert Pow16(4) == 0x1_0000;
    assert Pow16(8) == 0x1_0000_0000;
    assert Pow16(12) == 0x1_0000_0000_0000;
  }
}
