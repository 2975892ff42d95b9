/**
 The checksum that the frame encoder and decoder take from zlib, as section 8.2 of
 RFC 1950 defines it, and the byte substitutions it is certain to notice.
 */
module Adler32 {
  import opened Common

  const BASE: int := 65521

  /** The two running sums of the checksum, both kept modulo BASE. */
  datatype Sums = Sums(a: int, b: int)

  function Run(data: seq<byte>): Sums {
    if data == [] then Sums(1, 0)
    else
      var s := Run(data[..|data| - 1]);
      var a := (s.a + data[|data| - 1]) % BASE;
      Sums(a, (s.b + a) % BASE)
  }

  function Checksum(data: seq<byte>): int {
    Run(data).b * 65536 + Run(data).a
  }

  lemma {:induction false} RunInRange(data: seq<byte>)
    ensures 0 <= Run(data).a < BASE && 0 <= Run(data).b < BASE
    ensures 0 <= Checksum(data) < 0x1_0000_0000
  {
    if data != [] {
      RunInRange(data[..|data| - 1]);
    }
  }

  lemma RunNext(data: seq<byte>, x: byte, a: int, b: int)
    requires Run(data) == Sums(a, b) && 0 <= a && 0 <= b && a + x < BASE && b + a + x < BASE
    ensures Run(data + [x]) == Sums(a + x, b + a + x)
  {
    assert (data + [x])[..|data|] == data;
  }

  /** A known value: the checksum of the letters "abc". */
  lemma KnownChecksum()
    ensures Checksum([97, 98, 99]) == 0x024D_0127
  {
    var d: seq<byte> := [97, 98, 99];
    assert Run(d[..0]) == Sums(1, 0);
    hide Run;
    assert d[..0] + [97] == d[..1] && d[..1] + [98] == d[..2] && d[..2] + [99] == d;
    RunNext(d[..0], 97, 1, 0);
    RunNext(d[..1], 98, 98, 98);
    RunNext(d[..2], 99, 196, 294);
  }

  // The same two sums without the reductions: they are linear in the data.

  ghost function SumA(data: seq<byte>): int {
    if data == [] then 1 else SumA(data[..|data| - 1]) + data[|data| - 1]
  }

  ghost function SumB(data: seq<byte>): int {
    if data == [] then 0 else SumB(data[..|data| - 1]) + SumA(data)
  }

  lemma ModAdd(x: int, y: int)
    ensures (x % BASE + y) % BASE == (x + y) % BASE
    ensures (x % BASE + y % BASE) % BASE == (x + y) % BASE
  {
    var q, p := x / BASE, y / BASE;
    assert x % BASE + y == x + y - q * BASE;
  }

  lemma {:induction false} RunIsReduced(data: seq<byte>)
    ensures Run(data) == Sums(SumA(data) % BASE, SumB(data) % BASE)
  {
    if data != [] {
      var d := data[..|data| - 1];
      RunIsReduced(d);
      ModAdd(SumA(d), data[|data| - 1]);
      ModAdd(SumB(d), SumA(data));
    }
  }

  lemma OneMore(n: int, d: int)
    ensures n * d + d == (n + 1) * d
  {
  }

  /** Replacing one byte moves the first sum by the difference and the second by the
      difference times the number of bytes from that position to the end. */
  lemma {:induction false} SubstituteSums(data: seq<byte>, i: nat, x: byte)
    requires i < |data|
    ensures SumA(data[i := x]) == SumA(data) + (x - data[i])
    ensures SumB(data[i := x]) == SumB(data) + (|data| - i) * (x - data[i])
  {
    var n := |data| - 1;
    if i == n {
      assert data[i := x][..n] == data[..n];
    } else {
      SubstituteSums(data[..n], i, x);
      assert data[i := x][..n] == data[..n][i := x];
      OneMore(n - i, x - data[i]);
    }
  }

  lemma EqualModulo(x: int, y: int)
    ensures x % BASE == y % BASE <==> (x - y) % BASE == 0
  {
  }

  lemma ChecksumsEqual(d: seq<byte>, e: seq<byte>)
    ensures Checksum(d) == Checksum(e)
       <==> (SumA(d) - SumA(e)) % BASE == 0 && (SumB(d) - SumB(e)) % BASE == 0
  {
    RunInRange(d);
    RunInRange(e);
    RunIsReduced(d);
    RunIsReduced(e);
    EqualModulo(SumA(d), SumA(e));
    EqualModulo(SumB(d), SumB(e));
  }

  /** Any change to any single byte changes the checksum, whatever the length. */
  lemma OneByteDetected(data: seq<byte>, i: nat, x: byte)
    requires i < |data| && x != data[i]
    ensures Checksum(data[i := x]) != Checksum(data)
  {
    SubstituteSums(data, i, x);
    ChecksumsEqual(data[i := x], data);
  }

  // BASE has no divisor below 256, so a byte difference never hides a factor of BASE.

  lemma NoDivisor(d: nat)
    requires 1 < d < 256
    ensures BASE % d != 0
  {
  }

  lemma {:induction false} CoprimeToBytes(k: int, d: nat)
    requires 0 < d < 256 && (k * d) % BASE == 0
    ensures k % BASE == 0
    decreases d
  {
    if d == 1 {
      assert k * d == k;
    } else {
      NoDivisor(d);
      var q, r := BASE / d, BASE % d;
      var m := (k * d) / BASE;
      assert k * d == m * BASE;
      assert k * r == k * BASE - q * (k * d) == (k - q * m) * BASE by {
        assert BASE == q * d + r;
        assert k * BASE == k * (q * d + r) == q * (k * d) + k * r;
      }
      MultipleOfBase(k - q * m);
      CoprimeToBytes(k, r);
    }
  }

  lemma MultipleOfBase(m: int)
    ensures (m * BASE) % BASE == 0
  {
  }

  lemma FactorOfBase(k: int, d: int)
    requires k % BASE == 0
    ensures (k * d) % BASE == 0
  {
    var m := k / BASE;
    assert k * d == (m * d) * BASE by {
      assert k == m * BASE;
    }
    MultipleOfBase(m * d);
  }

  lemma Cancel(p: int, q: int, d: int)
    ensures p * d + q * -d == (p - q) * d
  {
  }

  lemma MultipleOfDifference(k: int, d: int)
    requires -256 < d < 256 && d != 0
    ensures (k * d) % BASE == 0 <==> k % BASE == 0
  {
    if (k * d) % BASE == 0 {
      if d > 0 {
        CoprimeToBytes(k, d);
      } else {
        assert k * -d == -(k * d);
        CoprimeToBytes(k, -d);
      }
    }
    if k % BASE == 0 {
      FactorOfBase(k, d);
    }
  }

  lemma SmallMultiple(x: int)
    requires -BASE < x < BASE
    ensures x % BASE == 0 <==> x == 0
  {
  }

  /** Two changed bytes escape the checksum exactly when the two differences cancel and
      the positions lie a multiple of BASE apart. In particular no pair less than 65521
      positions apart escapes. */
  lemma TwoBytesDetectedExactly(data: seq<byte>, i: nat, j: nat, x: byte, y: byte)
    requires i < j < |data| && x != data[i] && y != data[j]
    ensures Checksum(data[i := x][j := y]) == Checksum(data)
       <==> x - data[i] == data[j] - y && (j - i) % BASE == 0
  {
    var once := data[i := x];
    var twice := once[j := y];
    SubstituteSums(data, i, x);
    SubstituteSums(once, j, y);
    ChecksumsEqual(twice, data);
    var dx, dy := x - data[i], y - data[j];
    assert SumA(twice) - SumA(data) == dx + dy;
    SmallMultiple(dx + dy);
    hide SumA, SumB, Checksum;
    if dx + dy == 0 {
      assert SumB(twice) - SumB(data) == (j - i) * dx by {
        Cancel(|data| - i, |data| - j, dx);
      }
      MultipleOfDifference(j - i, dx);
    }
  }
}
