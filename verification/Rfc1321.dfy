/** The MD5 digest as sections 3.1 to 3.5 of RFC 1321 define it: table driven, one message at once. */
module Rfc1321 {
  import opened Bytes

  /** A 32-bit word; sums wrap. */
  datatype Word = Word(bits: bv32)

  function Plus(x: Word, y: Word): Word { Word(Sum(x.bits, y.bits)) }

  /** The four-word chaining value, in the order A, B, C, D. */
  datatype State = State(a: Word, b: Word, c: Word, d: Word)

  /** Section 3.3. */
  const INITIAL: State := State(Word(0x67452301), Word(0xefcdab89), Word(0x98badcfe), Word(0x10325476))

  /** Section 3.4: the four auxiliary functions. */
  function FBits(x: bv32, y: bv32, z: bv32): bv32 { (x & y) | (!x & z) }

  function GBits(x: bv32, y: bv32, z: bv32): bv32 { (x & z) | (y & !z) }

  function HBits(x: bv32, y: bv32, z: bv32): bv32 { x ^ y ^ z }

  function IBits(x: bv32, y: bv32, z: bv32): bv32 { y ^ (x | !z) }

  function Auxiliary(i: nat, x: Word, y: Word, z: Word): Word {
    if i < 16 then Word(FBits(x.bits, y.bits, z.bits))
    else if i < 32 then Word(GBits(x.bits, y.bits, z.bits))
    else if i < 48 then Word(HBits(x.bits, y.bits, z.bits))
    else Word(IBits(x.bits, y.bits, z.bits))
  }

  /** One of the 64 rows [abcd k s i] of section 3.4, with T[i] written out. */
  datatype Row = Row(k: nat, s: nat, t: nat)

  /** The rows, counted from 0. */
  function RowAt(i: nat): (row: Row)
    requires i < 64
    ensures row.k < 16 && 0 < row.s < 32 && row.t < TWO_32
  {
    if i < 16 then (
      if i < 4 then (
        if i == 0 then Row(0, 7, 0xd76aa478) else if i == 1 then Row(1, 12, 0xe8c7b756)
        else if i == 2 then Row(2, 17, 0x242070db) else Row(3, 22, 0xc1bdceee))
      else if i < 8 then (
        if i == 4 then Row(4, 7, 0xf57c0faf) else if i == 5 then Row(5, 12, 0x4787c62a)
        else if i == 6 then Row(6, 17, 0xa8304613) else Row(7, 22, 0xfd469501))
      else if i < 12 then (
        if i == 8 then Row(8, 7, 0x698098d8) else if i == 9 then Row(9, 12, 0x8b44f7af)
        else if i == 10 then Row(10, 17, 0xffff5bb1) else Row(11, 22, 0x895cd7be))
      else (
        if i == 12 then Row(12, 7, 0x6b901122) else if i == 13 then Row(13, 12, 0xfd987193)
        else if i == 14 then Row(14, 17, 0xa679438e) else Row(15, 22, 0x49b40821)))
    else if i < 32 then (
      if i < 20 then (
        if i == 16 then Row(1, 5, 0xf61e2562) else if i == 17 then Row(6, 9, 0xc040b340)
        else if i == 18 then Row(11, 14, 0x265e5a51) else Row(0, 20, 0xe9b6c7aa))
      else if i < 24 then (
        if i == 20 then Row(5, 5, 0xd62f105d) else if i == 21 then Row(10, 9, 0x02441453)
        else if i == 22 then Row(15, 14, 0xd8a1e681) else Row(4, 20, 0xe7d3fbc8))
      else if i < 28 then (
        if i == 24 then Row(9, 5, 0x21e1cde6) else if i == 25 then Row(14, 9, 0xc33707d6)
        else if i == 26 then Row(3, 14, 0xf4d50d87) else Row(8, 20, 0x455a14ed))
      else (
        if i == 28 then Row(13, 5, 0xa9e3e905) else if i == 29 then Row(2, 9, 0xfcefa3f8)
        else if i == 30 then Row(7, 14, 0x676f02d9) else Row(12, 20, 0x8d2a4c8a)))
    else if i < 48 then (
      if i < 36 then (
        if i == 32 then Row(5, 4, 0xfffa3942) else if i == 33 then Row(8, 11, 0x8771f681)
        else if i == 34 then Row(11, 16, 0x6d9d6122) else Row(14, 23, 0xfde5380c))
      else if i < 40 then (
        if i == 36 then Row(1, 4, 0xa4beea44) else if i == 37 then Row(4, 11, 0x4bdecfa9)
        else if i == 38 then Row(7, 16, 0xf6bb4b60) else Row(10, 23, 0xbebfbc70))
      else if i < 44 then (
        if i == 40 then Row(13, 4, 0x289b7ec6) else if i == 41 then Row(0, 11, 0xeaa127fa)
        else if i == 42 then Row(3, 16, 0xd4ef3085) else Row(6, 23, 0x04881d05))
      else (
        if i == 44 then Row(9, 4, 0xd9d4d039) else if i == 45 then Row(12, 11, 0xe6db99e5)
        else if i == 46 then Row(15, 16, 0x1fa27cf8) else Row(2, 23, 0xc4ac5665)))
    else (
      if i < 52 then (
        if i == 48 then Row(0, 6, 0xf4292244) else if i == 49 then Row(7, 10, 0x432aff97)
        else if i == 50 then Row(14, 15, 0xab9423a7) else Row(5, 21, 0xfc93a039))
      else if i < 56 then (
        if i == 52 then Row(12, 6, 0x655b59c3) else if i == 53 then Row(3, 10, 0x8f0ccc92)
        else if i == 54 then Row(10, 15, 0xffeff47d) else Row(1, 21, 0x85845dd1))
      else if i < 60 then (
        if i == 56 then Row(8, 6, 0x6fa87e4f) else if i == 57 then Row(15, 10, 0xfe2ce6e0)
        else if i == 58 then Row(6, 15, 0xa3014314) else Row(13, 21, 0x4e0811a1))
      else (
        if i == 60 then Row(4, 6, 0xf7537e82) else if i == 61 then Row(11, 10, 0xbd3af235)
        else if i == 62 then Row(2, 15, 0x2ad7d2bb) else Row(9, 21, 0xeb86d391)))
  }

  /** The message word and the shift of operation i as the four rounds schedule them. */
  function Scheduled(i: nat): (int, int)
    requires i < 64
  {
    if i < 16 then (i, [7, 12, 17, 22][i % 4])
    else if i < 32 then ((5 * i + 1) % 16, [5, 9, 14, 20][i % 4])
    else if i < 48 then ((3 * i + 5) % 16, [4, 11, 16, 23][i % 4])
    else ((7 * i) % 16, [6, 10, 15, 21][i % 4])
  }

  predicate RowFollows(i: nat)
    requires i < 64
  {
    (RowAt(i).k, RowAt(i).s) == Scheduled(i)
  }

  lemma FirstRowsFollow(i: nat)
    requires i < 16
    ensures RowFollows(i) && RowFollows(16 + i)
  {
    assert RowFollows(i);
  }

  lemma LastRowsFollow(i: nat)
    requires i < 16
    ensures RowFollows(32 + i) && RowFollows(48 + i)
  {
    assert RowFollows(32 + i);
  }

  lemma RowsFollowSchedules(i: nat)
    requires i < 64
    ensures (RowAt(i).k, RowAt(i).s) == Scheduled(i)
  {
    hide RowAt, Scheduled;
    FirstRowsFollow(i % 16);
    LastRowsFollow(i % 16);
    assert RowFollows(i);
  }

  function RotateLeft(x: bv32, s: nat): bv32
    requires 0 < s < 32
  {
    (x << s) | (x >> (32 - s))
  }

  function Sum(x: bv32, y: bv32): bv32 { x + y }

  function Total(a: bv32, f: bv32, x: bv32, t: nat): bv32
    requires t < TWO_32
  {
    a + f + x + t as bv32
  }

  function MixBits(a: bv32, b: bv32, f: bv32, x: bv32, t: nat, s: nat): bv32
    requires t < TWO_32 && 0 < s < 32
  {
    Sum(b, RotateLeft(Total(a, f, x, t), s))
  }

  /** a = b + ((a + f + x + t) <<< s), the shape all 64 operations share. */
  function Mix(a: Word, b: Word, f: Word, x: Word, row: Row): Word
    requires row.t < TWO_32 && 0 < row.s < 32
  {
    Word(MixBits(a.bits, b.bits, f.bits, x.bits, row.t, row.s))
  }

  /** Operation i, after which the roles of the four words move on by one. */
  function Operation(i: nat, s: State, x: seq<Word>): State
    requires i < 64 && |x| == 16
  {
    State(s.d, Mix(s.a, s.b, Auxiliary(i, s.b, s.c, s.d), x[RowAt(i).k], RowAt(i)), s.b, s.c)
  }

  /** The first n of the 64 operations. */
  function Operations(n: nat, s: State, x: seq<Word>): State
    requires n <= 64 && |x| == 16
  {
    if n == 0 then s else Operation(n - 1, Operations(n - 1, s, x), x)
  }

  /** Section 3.4: what one 16-word block does to the chaining value. */
  function Compress(s: State, x: seq<Word>): State
    requires |x| == 16
  {
    var r := Operations(64, s, x);
    State(Plus(s.a, r.a), Plus(s.b, r.b), Plus(s.c, r.c), Plus(s.d, r.d))
  }

  /** Section 2: four bytes form a word, low-order byte first. */
  function ToWord(bytes: seq<byte>): Word
    requires |bytes| == 4
  {
    PowersOf256();
    Word(FromLittleEndian(bytes) as bv32)
  }

  function ToWords(block: seq<byte>): (x: seq<Word>)
    requires |block| == 64
    ensures |x| == 16
  {
    seq(16, (k: nat) requires k < 16 => ToWord(block[4 * k..4 * k + 4]))
  }

  /** The chaining value after the first n blocks of m. */
  function After(n: nat, m: seq<byte>): State
    requires 64 * n <= |m|
  {
    if n == 0 then INITIAL else Compress(After(n - 1, m), ToWords(m[64 * n - 64..64 * n]))
  }

  function Zeros(k: nat): (z: seq<byte>)
    ensures |z| == k
  {
    seq(k, _ => 0 as byte)
  }

  /** How many zero bytes bring a message of n bytes and its 0x80 to 56 modulo 64. */
  function ZeroCount(n: nat): (k: nat) {
    (119 - n % 64) % 64
  }

  /** A one bit, zeros, then the bit length modulo 2^64, low-order word first. */
  function Padding(n: nat): (p: seq<byte>)
    ensures |p| == 9 + ZeroCount(n)
  {
    [0x80] + Zeros(ZeroCount(n)) + LittleEndian(8, (8 * n) % TWO_64)
  }

  /** Sections 3.1 and 3.2. */
  function Padded(m: seq<byte>): (p: seq<byte>) {
    m + Padding(|m|)
  }

  lemma ZeroCountAt(k: nat, n: nat)
    requires 64 * k <= n < 64 * k + 64
    ensures ZeroCount(n) == if n < 64 * k + 56 then 64 * k + 55 - n else 64 * k + 119 - n
  {}

  lemma BlockRemainder(k: nat, r: nat)
    requires r < 64
    ensures (64 * k + r) % 64 == r
  {}

  /** The padding is the shortest that leaves room for the length in a whole number of blocks. */
  lemma PaddedIsWholeBlocks(m: seq<byte>)
    ensures (|m| + 1 + ZeroCount(|m|)) % 64 == 56 && ZeroCount(|m|) < 64
    ensures |Padded(m)| % 64 == 0
  {
    hide ZeroCount, Padding;
    var k := |m| / 64;
    ZeroCountAt(k, |m|);
    if |m| < 64 * k + 56 {
      BlockRemainder(k, 56);
      BlockRemainder(k + 1, 0);
    } else {
      BlockRemainder(k + 1, 56);
      BlockRemainder(k + 2, 0);
    }
  }

  /** Section 3.5: the bytes of A, B, C and D, each low-order byte first. */
  function Output(s: State): (digest: seq<byte>)
    ensures |digest| == 16
  {
    LittleEndian(4, s.a.bits as nat) + LittleEndian(4, s.b.bits as nat)
    + LittleEndian(4, s.c.bits as nat) + LittleEndian(4, s.d.bits as nat)
  }

  /** A word as it lies in memory, byte j of four. */
  function MemoryByte(w: Word, j: nat): byte
    requires j < 4
  {
    (w.bits as nat / Pow256(j) % 256) as byte
  }

  function WordOf(s: State, i: nat): Word
    requires i < 4
  {
    [s.a, s.b, s.c, s.d][i]
  }

  /** The output is the four words as they lie in memory, and so read back as them. */
  lemma OutputReadsBack(s: State, i: nat)
    requires i < 4
    ensures forall j :: 0 <= j < 4 ==> Output(s)[4 * i + j] == MemoryByte(WordOf(s, i), j)
    ensures ToWord(Output(s)[4 * i..4 * i + 4]) == WordOf(s, i)
  {
    hide LittleEndian, FromLittleEndian, Pow256;
    PowersOf256();
    var n := WordOf(s, i).bits as nat;
    assert Output(s)[4 * i..4 * i + 4] == LittleEndian(4, n);
    LittleEndianRoundTrip(4, n);
    forall j | 0 <= j < 4
      ensures Output(s)[4 * i + j] == MemoryByte(WordOf(s, i), j)
    {
      assert Output(s)[4 * i + j] == Output(s)[4 * i..4 * i + 4][j];
      LittleEndianAt(4, n, j);
    }
  }

  function Digest(m: seq<byte>): (digest: seq<byte>)
    ensures |digest| == 16
  {
    var p := Padded(m);
    Output(After(|p| / 64, p))
  }
}
