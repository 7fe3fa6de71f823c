/** What a caller of the streaming digest gets, and what padding keeps of a message. */
module Md5Message {
  import opened Bytes
  import opened Rfc1321
  import opened Md5

  function Concat(pieces: seq<seq<byte>>): (whole: seq<byte>) {
    if pieces == [] then [] else Concat(pieces[..|pieces| - 1]) + pieces[|pieces| - 1]
  }

  /** Any way of cutting a message into updates gives the digest of the whole message. */
  method DigestOfPieces(pieces: seq<seq<byte>>) returns (digest: seq<byte>)
    requires forall i :: 0 <= i < |pieces| ==> |pieces[i]| < TWO_32
    ensures digest == Digest(Concat(pieces))
  {
    var ctx := new Md5Context();
    for i := 0 to |pieces|
      invariant ctx.Valid() && fresh(ctx) && fresh(ctx.buf) && fresh(ctx.block)
      invariant ctx.message == Concat(pieces[..i])
    {
      ctx.Update(pieces[i]);
      assert pieces[..i + 1][..i] == pieces[..i];
    }
    assert pieces[..|pieces|] == pieces;
    digest := ctx.Final();
  }

  /** The last eight bytes tell two lengths apart unless they differ by a multiple of 2^61. */
  lemma LengthFromTail(n1: nat, n2: nat)
    requires LittleEndian(8, (8 * n1) % TWO_64) == LittleEndian(8, (8 * n2) % TWO_64)
    requires n1 <= n2 < n1 + 64
    ensures n1 == n2
  {
    PowersOf256();
    LittleEndianRoundTrip(8, (8 * n1) % TWO_64);
    LittleEndianRoundTrip(8, (8 * n2) % TWO_64);
    hide LittleEndian, FromLittleEndian, Pow256;
    var d := 8 * n2 - 8 * n1;
    assert 8 * n1 == (8 * n1) / TWO_64 * TWO_64 + (8 * n1) % TWO_64;
    assert 8 * n2 == (8 * n2) / TWO_64 * TWO_64 + (8 * n2) % TWO_64;
    assert d == ((8 * n2) / TWO_64 - (8 * n1) / TWO_64) * TWO_64;
  }

  lemma PaddedLength(m: seq<byte>)
    ensures |m| + 9 <= |Padded(m)| < |m| + 73
    ensures Padded(m)[..|m|] == m
  {}

  /** Padding loses nothing, whatever the lengths: two messages with one padded form are one message. */
  lemma PaddingIsInjective(m1: seq<byte>, m2: seq<byte>)
    requires Padded(m1) == Padded(m2)
    ensures m1 == m2
  {
    hide Padded, LittleEndian;
    PaddedLength(m1);
    PaddedLength(m2);
    TailOfPadded(m1);
    TailOfPadded(m2);
    if |m1| <= |m2| {
      LengthFromTail(|m1|, |m2|);
    } else {
      LengthFromTail(|m2|, |m1|);
    }
  }

  lemma TailOfPadded(m: seq<byte>)
    ensures |Padded(m)| >= 8
    ensures Padded(m)[|Padded(m)| - 8..] == LittleEndian(8, (8 * |m|) % TWO_64)
  {}

  /** One block more than the whole blocks of m, or two exactly when 56 bytes or more are left over. */
  lemma PaddedBlocks(m: seq<byte>)
    ensures |Padded(m)| / 64 == |m| / 64 + (if |m| % 64 < 56 then 1 else 2)
  {
    var k := |m| / 64;
    ZeroCountAt(k, |m|);
    PaddedIsWholeBlocks(m);
    hide ZeroCount, Padding;
    var extra := if |m| % 64 < 56 then 1 else 2;
    assert |Padded(m)| == 64 * (k + extra);
  }
}
