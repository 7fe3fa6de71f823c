/** The streaming digest of server/md5.c: a context that absorbs a message piece by piece. */
module Md5 {
  import opened Bytes
  import opened Rfc1321
  import opened Md5Transform

  /** The two counter words hold the bit length of n bytes modulo 2^64. */
  predicate Counts(high: nat, low: nat, n: nat) {
    high < TWO_32 && low < TWO_32 && high * TWO_32 + low == (8 * n) % TWO_64
  }

  /** A count kept as two words only sees the high word modulo 2^32. */
  lemma TwoWords(high: nat, low: nat, n: nat)
    requires low < TWO_32 && (high * TWO_32 + low) % TWO_64 == (8 * n) % TWO_64
    ensures Counts(high % TWO_32, low, n)
  {
    var q, h := high / TWO_32, high % TWO_32;
    assert high * TWO_32 + low == q * TWO_64 + (h * TWO_32 + low);
  }

  lemma WrapOnce(x: nat, y: nat)
    ensures (x % TWO_32 + y) % TWO_32 == (x + y) % TWO_32
  {
    assert x + y == x / TWO_32 * TWO_32 + (x % TWO_32 + y);
  }

  /** Adding the 64-bit amounts and adding them modulo 2^64 agree. */
  lemma AddModulo(x: nat, y: nat, len: nat)
    requires x == y % TWO_64
    ensures (x + len) % TWO_64 == (y + len) % TWO_64
  {
    assert y + len == y / TWO_64 * TWO_64 + (x + len);
  }

  /** The carry test sees exactly the wrap of the low word, and len >> 29 is what len << 3 loses. */
  lemma LowWord(low: nat, len: nat)
    requires low < TWO_32 && len < TWO_32
    ensures var sum := (low + (len * 8) % TWO_32) % TWO_32;
      (if sum < low then TWO_32 else 0) + len / 0x2000_0000 * TWO_32 + sum == low + 8 * len
  {
    assert len * 8 == len / 0x2000_0000 * TWO_32 + (len * 8) % TWO_32;
  }

  /** The two words, the carry test and len >> 29 together make a 64-bit addition. */
  lemma Carry(high: nat, low: nat, n: nat, len: nat)
    requires Counts(high, low, n) && len < TWO_32
    ensures var sum := (low + (len * 8) % TWO_32) % TWO_32;
      var carried := if sum < low then (high + 1) % TWO_32 else high;
      Counts((carried + len / 0x2000_0000) % TWO_32, sum, n + len)
  {
    var sum := (low + (len * 8) % TWO_32) % TWO_32;
    var c, top := if sum < low then 1 else 0, len / 0x2000_0000;
    LowWord(low, len);
    AddModulo(high * TWO_32 + low, 8 * n, 8 * len);
    TwoWords(high + c + top, sum, n + len);
    WrapOnce(high + c, top);
  }

  /** The low counter word gives the offset in the current block. */
  lemma OffsetFromCounter(high: nat, low: nat, n: nat)
    requires Counts(high, low, n)
    ensures (low / 8) % 64 == n % 64
  {
    var q := (8 * n) / TWO_64;
    assert 8 * n == q * TWO_64 + high * TWO_32 + low;
    var low8 := n - q * 0x2000_0000_0000_0000 - high * 0x2000_0000;
    assert low == 8 * low8;
    assert n == 64 * (q * 0x80_0000_0000_0000 + high * 0x80_0000) + low8;
  }

  lemma {:induction false} AfterOfPrefix(n: nat, m: seq<byte>, tail: seq<byte>)
    requires 64 * n <= |m|
    ensures After(n, m + tail) == After(n, m)
  {
    hide Compress, ToWords;
    if n > 0 {
      AfterOfPrefix(n - 1, m, tail);
      assert (m + tail)[64 * n - 64..64 * n] == m[64 * n - 64..64 * n];
    }
  }

  /** Block k of m + data begins with what m left over. */
  lemma Across(m: seq<byte>, data: seq<byte>, k: nat, t: nat)
    requires |m| == 64 * k + t && t < 64
    ensures |data| < 64 - t ==> m[64 * k..] + data == (m + data)[64 * k..]
    ensures |data| >= 64 - t ==> m[64 * k..] + data[..64 - t] == (m + data)[64 * k..64 * k + 64]
  {}

  /** From block k on, m + data is data alone. */
  lemma Beyond(m: seq<byte>, data: seq<byte>, k: nat, p: nat, q: nat)
    requires |m| + p == 64 * k && p <= q <= |data|
    ensures [] + data[p..q] == data[p..q] == (m + data)[64 * k..64 * k + (q - p)]
  {}

  lemma Regroup<X>(a: seq<X>, b: seq<X>, c: seq<X>, d: seq<X>)
    ensures a + (b + c + d) == a + b + c + d
  {}

  lemma PaddedKeepsChaining(k: nat, m: seq<byte>)
    requires 64 * k <= |m|
    ensures After(k, Padded(m)) == After(k, m)
  {
    AfterOfPrefix(k, m, Padding(|m|));
  }

  lemma MemoryIsOutput(s: State, digest: seq<byte>)
    requires |digest| == 16 && forall i :: 0 <= i < 16 ==> digest[i] == MemoryByte(WordOf(s, i / 4), i % 4)
    ensures digest == Output(s)
  {
    hide MemoryByte, WordOf, Output, ToWord;
    forall i | 0 <= i < 16
      ensures digest[i] == Output(s)[i]
    {
      OutputReadsBack(s, i / 4);
      assert i == 4 * (i / 4) + i % 4;
    }
  }

  /** What the two counter words are stored as. */
  function Counter(high: nat, low: nat): (c: seq<byte>)
    ensures |c| == 8
  {
    LittleEndian(4, low) + LittleEndian(4, high)
  }

  lemma CounterEndsPadding(high: nat, low: nat, n: nat)
    requires Counts(high, low, n)
    ensures Padding(n) == [0x80] + Zeros(ZeroCount(n)) + Counter(high, low)
  {
    PowersOf256();
    LittleEndianSplit(4, 4, low, high);
  }

  lemma ZerosSplit(a: nat, b: nat)
    ensures Zeros(a + b) == Zeros(a) + Zeros(b)
  {}

  /** Blocks k and, if there is one, k + 1 of m followed by first and second. */
  lemma Cut(m: seq<byte>, k: nat, first: seq<byte>, second: seq<byte>)
    requires 64 * k <= |m| && |m| + |first| == 64 * k + 64
    ensures var p := m + (first + second);
      && m[64 * k..] + first == p[64 * k..64 * k + 64]
      && second == p[64 * k + 64..64 * k + 64 + |second|]
  {}

  /** Up to 55 bytes left over: they are padded to one last block. */
  lemma OneLastBlock(m: seq<byte>, k: nat, high: nat, low: nat)
    requires 64 * k <= |m| < 64 * k + 56 && Counts(high, low, |m|)
    ensures var zeros := 64 * k + 55 - |m|;
      && |Padded(m)| == 64 * k + 64
      && m[64 * k..] + [0x80] + Zeros(zeros) + Counter(high, low) == Padded(m)[64 * k..64 * k + 64]
  {
    hide Counts, Padding, Zeros, ZeroCount, Counter;
    CounterEndsPadding(high, low, |m|);
    ZeroCountAt(k, |m|);
    Cut(m, k, Padding(|m|), []);
    assert Padding(|m|) + [] == Padding(|m|);
    Regroup(m[64 * k..], [0x80], Zeros(64 * k + 55 - |m|), Counter(high, low));
  }

  /** From 56 bytes left over on: they are padded to two last blocks. */
  lemma TwoLastBlocks(m: seq<byte>, k: nat, high: nat, low: nat)
    requires 64 * k + 56 <= |m| < 64 * k + 64 && Counts(high, low, |m|)
    ensures var zeros := 64 * k + 63 - |m|;
      && |Padded(m)| == 64 * k + 128
      && m[64 * k..] + [0x80] + Zeros(zeros) == Padded(m)[64 * k..64 * k + 64]
      && Zeros(56) + Counter(high, low) == Padded(m)[64 * k + 64..64 * k + 128]
  {
    hide Counts, Padding, Zeros, ZeroCount, Counter;
    CounterEndsPadding(high, low, |m|);
    var zeros := 64 * k + 63 - |m|;
    ZeroCountAt(k, |m|);
    ZerosSplit(zeros, 56);
    var first, second := [0x80] + Zeros(zeros), Zeros(56) + Counter(high, low);
    assert Padding(|m|) == first + second;
    Cut(m, k, first, second);
    assert m[64 * k..] + [0x80] + Zeros(zeros) == m[64 * k..] + first;
  }

  class Md5Context {
    const buf: array<Word>
    var bitsLow: nat
    var bitsHigh: nat
    const block: array<byte>
    /** The bytes absorbed since the constructor, and how many whole blocks they make. */
    ghost var message: seq<byte>
    ghost var blocks: nat

    ghost function Chaining(): State
      reads this, buf
      requires buf.Length == 4
    {
      State(buf[0], buf[1], buf[2], buf[3])
    }

    /** buf is the fold over the whole blocks of m, block starts with the bytes left over. */
    ghost predicate Holds(m: seq<byte>, k: nat)
      reads this, buf, block
    {
      && buf.Length == 4 && block.Length == 64
      && 64 * k <= |m| < 64 * k + 64
      && Chaining() == After(k, m)
      && block[..|m| - 64 * k] == m[64 * k..]
    }

    ghost predicate Valid()
      reads this, buf, block
    {
      Holds(message, blocks) && Counts(bitsHigh, bitsLow, |message|)
    }

    /** MD5Init on a freshly declared context. */
    constructor ()
      ensures Valid() && message == []
      ensures fresh(buf) && fresh(block)
    {
      buf := new Word[4];
      block := new byte[64];
      bitsLow, bitsHigh := 0, 0;
      message, blocks := [], 0;
      new;
      buf[0], buf[1], buf[2], buf[3] := INITIAL.a, INITIAL.b, INITIAL.c, INITIAL.d;
    }

    /** The counter after len more bytes, as lines 81 to 84 compute it; the offset is taken before. */
    method CountBits(len: nat, ghost n: nat) returns (t: nat)
      requires Counts(bitsHigh, bitsLow, n) && len < TWO_32
      modifies this`bitsLow, this`bitsHigh
      ensures Counts(bitsHigh, bitsLow, n + len) && t == n % 64
    {
      Carry(bitsHigh, bitsLow, n, len);
      OffsetFromCounter(bitsHigh, bitsLow, n);
      t := bitsLow;
      bitsLow := (t + (len * 8) % TWO_32) % TWO_32;
      if bitsLow < t {
        bitsHigh := (bitsHigh + 1) % TWO_32;
      }
      bitsHigh := (bitsHigh + len / 0x2000_0000) % TWO_32;
      t := (t / 8) % 64;
    }

    /** memcpy into the partial-block buffer. */
    method Fill(at: nat, bytes: seq<byte>)
      requires at + |bytes| <= block.Length
      modifies block
      ensures block[..at + |bytes|] == old(block[..at]) + bytes
    {
      forall i | 0 <= i < |bytes| {
        block[at + i] := bytes[i];
      }
    }

    /** The buffer is completed to block k of whole, which goes into the chaining value. */
    method Absorb(at: nat, bytes: seq<byte>, ghost k: nat, ghost whole: seq<byte>)
      requires buf.Length == 4 && block.Length == 64 && at + |bytes| == 64 && 64 * k + 64 <= |whole|
      requires block[..at] + bytes == whole[64 * k..64 * k + 64]
      requires Chaining() == After(k, whole)
      modifies buf, block
      ensures Chaining() == After(k + 1, whole)
    {
      Fill(at, bytes);
      hide Compress, ToWords;
      assert block[..] == block[..64] == whole[64 * k..64 * k + 64];
      MD5Transform(buf, ToWords(block[..]));
    }

    /** The block loop of Update and the tail it leaves, from the byte p of data on. */
    method AbsorbBlocks(data: seq<byte>, start: nat, ghost first: nat, ghost m: seq<byte>)
      returns (ghost k: nat)
      requires buf.Length == 4 && block.Length == 64
      requires start <= |data| && |m| + start == 64 * first
      requires Chaining() == After(first, m + data)
      modifies buf, block
      ensures Holds(m + data, k)
    {
      hide After;
      ghost var whole := m + data;
      k := first;
      var p, len := start, |data| - start;
      while len >= 64
        invariant 0 <= len && p + len == |data| && |m| + p == 64 * k
        invariant Chaining() == After(k, whole)
      {
        Beyond(m, data, k, p, p + 64);
        Absorb(0, data[p..p + 64], k, whole);
        p, len, k := p + 64, len - 64, k + 1;
      }
      Beyond(m, data, k, p, |data|);
      Fill(0, data[p..]);
    }

    method Update(data: seq<byte>)
      requires Valid() && |data| < TWO_32
      modifies this, buf, block
      ensures Valid() && message == old(message) + data
    {
      hide Counts, After;
      var t := CountBits(|data|, |message|);
      ghost var m, k := message, blocks;
      AfterOfPrefix(k, m, data);
      var p := 0;
      if t != 0 {
        var room := 64 - t;
        Across(m, data, k, t);
        if |data| < room {
          Fill(t, data);
          message := m + data;
          return;
        }
        Absorb(t, data[..room], k, m + data);
        p, k := room, k + 1;
      }
      k := AbsorbBlocks(data, p, k, m);
      message, blocks := m + data, k;
    }

    /** The counter goes into words 14 and 15, the last block is absorbed, and eight bytes are cleared. */
    method Finish(ghost k: nat, ghost p: seq<byte>) returns (digest: seq<byte>)
      requires buf.Length == 4 && block.Length == 64 && |p| == 64 * k + 64
      requires block[..56] + Counter(bitsHigh, bitsLow) == p[64 * k..]
      requires Chaining() == After(k, p)
      modifies buf, block
      ensures digest == Output(After(|p| / 64, p))
      ensures buf[0] == buf[1] == Word(0)
    {
      hide After, Output;
      Fill(56, LittleEndian(4, bitsLow));
      Absorb(60, LittleEndian(4, bitsHigh), k, p);
      digest := [];
      for k := 0 to 16
        invariant |digest| == k && forall i :: 0 <= i < k ==> digest[i] == MemoryByte(buf[i / 4], i % 4)
      {
        digest := digest + [MemoryByte(buf[k / 4], k % 4)];
      }
      MemoryIsOutput(Chaining(), digest);
      buf[0], buf[1] := Word(0), Word(0);
    }

    /** The last line of MD5Final clears as many bytes as a pointer has, eight: the first two words of buf. */
    method Final() returns (digest: seq<byte>)
      requires Valid()
      modifies buf, block
      ensures digest == Digest(message)
      ensures buf[0] == buf[1] == Word(0)
    {
      hide Counts, After, Padded, Output, Counter;
      ghost var k, p := blocks, Padded(message);
      OffsetFromCounter(bitsHigh, bitsLow, |message|);
      PaddedKeepsChaining(k, message);
      var count := (bitsLow / 8) % 64;
      block[count] := 0x80;
      var at := count + 1;
      assert block[..at] == message[64 * k..] + [0x80];
      count := 64 - 1 - count;
      if count < 8 {
        TwoLastBlocks(message, k, bitsHigh, bitsLow);
        Absorb(at, Zeros(count), k, p);
        Fill(0, Zeros(56));
        assert block[..56] == [] + Zeros(56) == Zeros(56);
        k := k + 1;
      } else {
        OneLastBlock(message, k, bitsHigh, bitsLow);
        Fill(at, Zeros(count - 8));
        assert block[..56] == message[64 * k..] + [0x80] + Zeros(count - 8);
      }
      assert |p| == 64 * k + 64 && p[64 * k..] == p[64 * k..64 * k + 64];
      assert block[..56] + Counter(bitsHigh, bitsLow) == p[64 * k..];
      digest := Finish(k, p);
    }
  }
}
