/** Bytes, and numbers laid out as bytes in either order. */
module Bytes {
  newtype byte = x: int | 0 <= x < 256

  const TWO_32: nat := 0x1_0000_0000
  const TWO_64: nat := 0x1_0000_0000_0000_0000

  function Pow256(n: nat): (p: nat)
    ensures p > 0
  {
    if n == 0 then 1 else 256 * Pow256(n - 1)
  }

  /** The low n bytes of x, least significant first. */
  function LittleEndian(n: nat, x: nat): (bytes: seq<byte>)
    ensures |bytes| == n
  {
    if n == 0 then [] else [(x % 256) as byte] + LittleEndian(n - 1, x / 256)
  }

  function FromLittleEndian(bytes: seq<byte>): (x: nat)
    ensures x < Pow256(|bytes|)
  {
    if bytes == [] then 0 else bytes[0] as nat + 256 * FromLittleEndian(bytes[1..])
  }

  /** The low n bytes of x, most significant first (network order). */
  function BigEndian(n: nat, x: nat): (bytes: seq<byte>)
    ensures |bytes| == n
  {
    if n == 0 then [] else BigEndian(n - 1, x / 256) + [(x % 256) as byte]
  }

  function FromBigEndian(bytes: seq<byte>): (x: nat)
    ensures x < Pow256(|bytes|)
  {
    if bytes == [] then 0
    else 256 * FromBigEndian(bytes[..|bytes| - 1]) + bytes[|bytes| - 1] as nat
  }

  lemma PowersOf256()
    ensures Pow256(2) == 0x1_0000 && Pow256(4) == TWO_32 && Pow256(8) == TWO_64
  {
    assert Pow256(2) == 256 * Pow256(1);
    assert Pow256(4) == 256 * 256 * Pow256(2);
    assert Pow256(6) == 256 * 256 * Pow256(4);
    assert Pow256(8) == 256 * 256 * Pow256(6);
  }

  /** Byte i of a number in little endian counts 256^i, in big endian 256^(n - 1 - i). */
  lemma {:induction false} LittleEndianAt(n: nat, x: nat, i: nat)
    requires i < n
    ensures LittleEndian(n, x)[i] as nat == x / Pow256(i) % 256
    decreases n
  {
    if i > 0 {
      LittleEndianAt(n - 1, x / 256, i - 1);
      DivideBy256(x, Pow256(i - 1));
    }
  }

  lemma {:induction false} BigEndianAt(n: nat, x: nat, i: nat)
    requires i < n
    ensures BigEndian(n, x)[i] as nat == x / Pow256(n - 1 - i) % 256
    decreases n
  {
    if i < n - 1 {
      BigEndianAt(n - 1, x / 256, i);
      DivideBy256(x, Pow256(n - 2 - i));
    }
  }

  lemma DivideBy256(x: nat, n: nat)
    requires n > 0
    ensures x / 256 / n == x / (256 * n)
  {
    var q, r := x / 256, x % 256;
    var p, t := q / n, q % n;
    assert q == n * p + t;
    assert (256 * n) * p == 256 * (n * p);
    QuotientIs(x, 256 * n, p, 256 * t + r);
  }

  lemma Multiples(m: int, k: int)
    requires m >= 0
    ensures k >= 1 ==> m * k >= m
    ensures k <= -1 ==> m * k <= -m
  {
    if k >= 1 {
      assert m * k == m + m * (k - 1);
    } else if k <= -1 {
      assert m * k == -m + m * (k + 1);
    }
  }

  lemma QuotientIs(x: nat, m: nat, q: nat, r: nat)
    requires r < m && x == m * q + r
    ensures x / m == q && x % m == r
  {
    var d := x / m;
    assert x == m * d + x % m;
    assert m * (d - q) == r - x % m;
    Multiples(m, d - q);
  }

  lemma {:induction false} LittleEndianRoundTrip(n: nat, x: nat)
    requires x < Pow256(n)
    ensures FromLittleEndian(LittleEndian(n, x)) == x
  {
    if n > 0 {
      LittleEndianRoundTrip(n - 1, x / 256);
      assert LittleEndian(n, x)[1..] == LittleEndian(n - 1, x / 256);
    }
  }

  lemma {:induction false} BigEndianRoundTrip(n: nat, x: nat)
    requires x < Pow256(n)
    ensures FromBigEndian(BigEndian(n, x)) == x
  {
    if n > 0 {
      BigEndianRoundTrip(n - 1, x / 256);
      assert BigEndian(n, x)[..n - 1] == BigEndian(n - 1, x / 256);
    }
  }

  /** The low word first, then the high word, is the whole number low byte first. */
  lemma {:induction false} LittleEndianSplit(m: nat, n: nat, lo: nat, hi: nat)
    requires lo < Pow256(m)
    ensures LittleEndian(m, lo) + LittleEndian(n, hi) == LittleEndian(m + n, lo + Pow256(m) * hi)
  {
    if m == 0 {
      assert LittleEndian(0, lo) + LittleEndian(n, hi) == LittleEndian(n, hi);
    } else {
      var q := Pow256(m - 1) * hi;
      assert Pow256(m) * hi == 256 * q;
      assert (lo + 256 * q) % 256 == lo % 256 && (lo + 256 * q) / 256 == lo / 256 + q;
      LittleEndianSplit(m - 1, n, lo / 256, hi);
    }
  }
}
