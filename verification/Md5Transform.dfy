module Md5Transform {
  import opened Bytes
  import opened Rfc1321

  function F1Bits(x: bv32, y: bv32, z: bv32): bv32 { z ^ (x & (y ^ z)) }

  /** The four macros, named so that the step macro can take one as its argument. */
  datatype Macro = F1 | F2 | F3 | F4
  {
    function Apply(x: bv32, y: bv32, z: bv32): bv32 {
      match this
      case F1 => F1Bits(x, y, z)
      case F2 => F1Bits(z, x, y)
      case F3 => x ^ y ^ z
      case F4 => y ^ (x | !z)
    }
  }

  /** w += f + data, the data being a message word plus a constant. */
  function Added(w: bv32, f: bv32, data: bv32, k: nat): bv32
    requires k < TWO_32
  {
    w + (f + (data + k as bv32))
  }

  /** w += f + data, w = w<<s | w>>(32-s), w += x. */
  function StepBits(f: bv32, w: bv32, x: bv32, data: bv32, k: nat, s: nat): bv32
    requires k < TWO_32 && 0 < s < 32
  {
    Sum(RotateLeft(Added(w, f, data, k), s), x)
  }

  function Step(f: Macro, w: Word, x: Word, y: Word, z: Word, data: Word, k: nat, s: nat): Word
    requires k < TWO_32 && 0 < s < 32
  {
    Word(StepBits(f.Apply(x.bits, y.bits, z.bits), w.bits, x.bits, data.bits, k, s))
  }

  function MacroOf(i: nat): Macro {
    if i < 16 then F1 else if i < 32 then F2 else if i < 48 then F3 else F4
  }

  /** Line i of the unrolled transform, its constants taken from row i of section 3.4. */
  function Line(i: nat, w: Word, x: Word, y: Word, z: Word, m: seq<Word>): Word
    requires i < 64 && |m| == 16
  {
    Step(MacroOf(i), w, x, y, z, m[RowAt(i).k], RowAt(i).t, RowAt(i).s)
  }

  lemma ChooseBits(x: bv32, y: bv32, z: bv32)
    ensures z ^ (x & (y ^ z)) == (x & y) | (!x & z)
  {}

  lemma ChooseBitsBy(x: bv32, y: bv32, z: bv32)
    ensures y ^ (z & (x ^ y)) == (x & z) | (y & !z)
  {}

  lemma F1IsF(x: bv32, y: bv32, z: bv32)
    ensures F1Bits(x, y, z) == FBits(x, y, z)
  {
    ChooseBits(x, y, z);
  }

  lemma F2IsG(x: bv32, y: bv32, z: bv32)
    ensures F1Bits(z, x, y) == GBits(x, y, z)
  {
    ChooseBitsBy(x, y, z);
  }

  lemma F3IsH(x: bv32, y: bv32, z: bv32)
    ensures F3.Apply(x, y, z) == HBits(x, y, z)
  {}

  lemma F4IsI(x: bv32, y: bv32, z: bv32)
    ensures F4.Apply(x, y, z) == IBits(x, y, z)
  {}

  lemma MacroAgrees(i: nat, x: Word, y: Word, z: Word)
    ensures Word(MacroOf(i).Apply(x.bits, y.bits, z.bits)) == Auxiliary(i, x, y, z)
  {
    hide F1Bits, FBits, GBits, HBits, IBits;
    if i < 16 {
      F1IsF(x.bits, y.bits, z.bits);
    } else if i < 32 {
      F2IsG(x.bits, y.bits, z.bits);
    } else {
      F3IsH(x.bits, y.bits, z.bits);
      F4IsI(x.bits, y.bits, z.bits);
    }
  }

  lemma AddedIsTotal(w: bv32, f: bv32, data: bv32, k: nat)
    requires k < TWO_32
    ensures Added(w, f, data, k) == Total(w, f, data, k)
  {}

  lemma SumCommutes(x: bv32, y: bv32)
    ensures Sum(x, y) == Sum(y, x)
  {}

  lemma StepBitsAgree(f: bv32, w: bv32, x: bv32, data: bv32, k: nat, s: nat)
    requires k < TWO_32 && 0 < s < 32
    ensures StepBits(f, w, x, data, k, s) == MixBits(w, x, f, data, k, s)
  {
    hide RotateLeft, Added, Total, Sum;
    AddedIsTotal(w, f, data, k);
    SumCommutes(x, RotateLeft(Total(w, f, data, k), s));
  }

  lemma OperationAgrees(i: nat, o: State, m: seq<Word>)
    requires i < 64 && |m| == 16
    ensures Operation(i, o, m) == State(o.d, Line(i, o.a, o.b, o.c, o.d, m), o.b, o.c)
  {
    hide RotateLeft, StepBits, MixBits, Macro.Apply, Auxiliary, RowAt;
    var row, f := RowAt(i), MacroOf(i).Apply(o.b.bits, o.c.bits, o.d.bits);
    MacroAgrees(i, o.b, o.c, o.d);
    StepBitsAgree(f, o.a.bits, o.b.bits, m[row.k].bits, row.t, row.s);
  }

  /** n operations from operation i on. */
  function Stretch(i: nat, n: nat, s: State, x: seq<Word>): State
    requires i + n <= 64 && |x| == 16
  {
    if n == 0 then s else Operation(i + n - 1, Stretch(i, n - 1, s, x), x)
  }

  lemma {:induction false} StretchContinues(i: nat, n: nat, s: State, x: seq<Word>)
    requires i + n <= 64 && |x| == 16
    ensures Stretch(i, n, Operations(i, s, x), x) == Operations(i + n, s, x)
  {
    hide Operation;
    if n > 0 {
      StretchContinues(i, n - 1, s, x);
    }
  }

  lemma FourOperations(i: nat, n: nat, s: State, m: seq<Word>)
    requires n % 4 == 0 && i % 16 == 0 && i + n + 4 <= 64 && |m| == 16
    ensures var o, j := Stretch(i, n, s, m), i + n;
      var a := Line(j, o.a, o.b, o.c, o.d, m);
      var d := Line(j + 1, o.d, a, o.b, o.c, m);
      var c := Line(j + 2, o.c, d, a, o.b, m);
      var b := Line(j + 3, o.b, c, d, a, m);
      Stretch(i, n + 4, s, m) == State(a, b, c, d)
  {
    hide Line, Operation;
    OperationAgrees(i + n, Stretch(i, n, s, m), m);
    OperationAgrees(i + n + 1, Stretch(i, n + 1, s, m), m);
    OperationAgrees(i + n + 2, Stretch(i, n + 2, s, m), m);
    OperationAgrees(i + n + 3, Stretch(i, n + 3, s, m), m);
  }

  lemma FourRounds(s: State, x: seq<Word>)
    requires |x| == 16
    ensures Stretch(48, 16, Stretch(32, 16, Stretch(16, 16, Stretch(0, 16, s, x), x), x), x) == Operations(64, s, x)
  {
    hide Stretch, Operation;
    assert Operations(0, s, x) == s;
    StretchContinues(0, 16, s, x);
    StretchContinues(16, 16, s, x);
    StretchContinues(32, 16, s, x);
    StretchContinues(48, 16, s, x);
  }

  lemma NoOperation(i: nat, s: State, x: seq<Word>)
    requires i <= 64 && |x| == 16
    ensures Stretch(i, 0, s, x) == s
  {}

  method Round1(a0: Word, b0: Word, c0: Word, d0: Word, x: seq<Word>)
    returns (a: Word, b: Word, c: Word, d: Word)
    requires |x| == 16
    ensures State(a, b, c, d) == Stretch(0, 16, State(a0, b0, c0, d0), x)
  {
    hide Step, Operation, Stretch;
    ghost var s := State(a0, b0, c0, d0);
    assert Stretch(0, 0, s, x) == s by {
      NoOperation(0, s, x);
    }
    a, b, c, d := a0, b0, c0, d0;
    a := Step(F1, a, b, c, d, x[0], 0xd76aa478, 7);
    d := Step(F1, d, a, b, c, x[1], 0xe8c7b756, 12);
    c := Step(F1, c, d, a, b, x[2], 0x242070db, 17);
    b := Step(F1, b, c, d, a, x[3], 0xc1bdceee, 22);
    assert State(a, b, c, d) == Stretch(0, 4, s, x) by { FourOperations(0, 0, s, x); }
    a := Step(F1, a, b, c, d, x[4], 0xf57c0faf, 7);
    d := Step(F1, d, a, b, c, x[5], 0x4787c62a, 12);
    c := Step(F1, c, d, a, b, x[6], 0xa8304613, 17);
    b := Step(F1, b, c, d, a, x[7], 0xfd469501, 22);
    assert State(a, b, c, d) == Stretch(0, 8, s, x) by { FourOperations(0, 4, s, x); }
    a := Step(F1, a, b, c, d, x[8], 0x698098d8, 7);
    d := Step(F1, d, a, b, c, x[9], 0x8b44f7af, 12);
    c := Step(F1, c, d, a, b, x[10], 0xffff5bb1, 17);
    b := Step(F1, b, c, d, a, x[11], 0x895cd7be, 22);
    assert State(a, b, c, d) == Stretch(0, 12, s, x) by { FourOperations(0, 8, s, x); }
    a := Step(F1, a, b, c, d, x[12], 0x6b901122, 7);
    d := Step(F1, d, a, b, c, x[13], 0xfd987193, 12);
    c := Step(F1, c, d, a, b, x[14], 0xa679438e, 17);
    b := Step(F1, b, c, d, a, x[15], 0x49b40821, 22);
    assert State(a, b, c, d) == Stretch(0, 16, s, x) by { FourOperations(0, 12, s, x); }
  }

  method Round2(a0: Word, b0: Word, c0: Word, d0: Word, x: seq<Word>)
    returns (a: Word, b: Word, c: Word, d: Word)
    requires |x| == 16
    ensures State(a, b, c, d) == Stretch(16, 16, State(a0, b0, c0, d0), x)
  {
    hide Step, Operation, Stretch;
    ghost var s := State(a0, b0, c0, d0);
    assert Stretch(16, 0, s, x) == s by {
      NoOperation(16, s, x);
    }
    a, b, c, d := a0, b0, c0, d0;
    a := Step(F2, a, b, c, d, x[1], 0xf61e2562, 5);
    d := Step(F2, d, a, b, c, x[6], 0xc040b340, 9);
    c := Step(F2, c, d, a, b, x[11], 0x265e5a51, 14);
    b := Step(F2, b, c, d, a, x[0], 0xe9b6c7aa, 20);
    assert State(a, b, c, d) == Stretch(16, 4, s, x) by { FourOperations(16, 0, s, x); }
    a := Step(F2, a, b, c, d, x[5], 0xd62f105d, 5);
    d := Step(F2, d, a, b, c, x[10], 0x02441453, 9);
    c := Step(F2, c, d, a, b, x[15], 0xd8a1e681, 14);
    b := Step(F2, b, c, d, a, x[4], 0xe7d3fbc8, 20);
    assert State(a, b, c, d) == Stretch(16, 8, s, x) by { FourOperations(16, 4, s, x); }
    a := Step(F2, a, b, c, d, x[9], 0x21e1cde6, 5);
    d := Step(F2, d, a, b, c, x[14], 0xc33707d6, 9);
    c := Step(F2, c, d, a, b, x[3], 0xf4d50d87, 14);
    b := Step(F2, b, c, d, a, x[8], 0x455a14ed, 20);
    assert State(a, b, c, d) == Stretch(16, 12, s, x) by { FourOperations(16, 8, s, x); }
    a := Step(F2, a, b, c, d, x[13], 0xa9e3e905, 5);
    d := Step(F2, d, a, b, c, x[2], 0xfcefa3f8, 9);
    c := Step(F2, c, d, a, b, x[7], 0x676f02d9, 14);
    b := Step(F2, b, c, d, a, x[12], 0x8d2a4c8a, 20);
    assert State(a, b, c, d) == Stretch(16, 16, s, x) by { FourOperations(16, 12, s, x); }
  }

  method Round3(a0: Word, b0: Word, c0: Word, d0: Word, x: seq<Word>)
    returns (a: Word, b: Word, c: Word, d: Word)
    requires |x| == 16
    ensures State(a, b, c, d) == Stretch(32, 16, State(a0, b0, c0, d0), x)
  {
    hide Step, Operation, Stretch;
    ghost var s := State(a0, b0, c0, d0);
    assert Stretch(32, 0, s, x) == s by {
      NoOperation(32, s, x);
    }
    a, b, c, d := a0, b0, c0, d0;
    a := Step(F3, a, b, c, d, x[5], 0xfffa3942, 4);
    d := Step(F3, d, a, b, c, x[8], 0x8771f681, 11);
    c := Step(F3, c, d, a, b, x[11], 0x6d9d6122, 16);
    b := Step(F3, b, c, d, a, x[14], 0xfde5380c, 23);
    assert State(a, b, c, d) == Stretch(32, 4, s, x) by { FourOperations(32, 0, s, x); }
    a := Step(F3, a, b, c, d, x[1], 0xa4beea44, 4);
    d := Step(F3, d, a, b, c, x[4], 0x4bdecfa9, 11);
    c := Step(F3, c, d, a, b, x[7], 0xf6bb4b60, 16);
    b := Step(F3, b, c, d, a, x[10], 0xbebfbc70, 23);
    assert State(a, b, c, d) == Stretch(32, 8, s, x) by { FourOperations(32, 4, s, x); }
    a := Step(F3, a, b, c, d, x[13], 0x289b7ec6, 4);
    d := Step(F3, d, a, b, c, x[0], 0xeaa127fa, 11);
    c := Step(F3, c, d, a, b, x[3], 0xd4ef3085, 16);
    b := Step(F3, b, c, d, a, x[6], 0x04881d05, 23);
    assert State(a, b, c, d) == Stretch(32, 12, s, x) by { FourOperations(32, 8, s, x); }
    a := Step(F3, a, b, c, d, x[9], 0xd9d4d039, 4);
    d := Step(F3, d, a, b, c, x[12], 0xe6db99e5, 11);
    c := Step(F3, c, d, a, b, x[15], 0x1fa27cf8, 16);
    b := Step(F3, b, c, d, a, x[2], 0xc4ac5665, 23);
    assert State(a, b, c, d) == Stretch(32, 16, s, x) by { FourOperations(32, 12, s, x); }
  }

  method Round4(a0: Word, b0: Word, c0: Word, d0: Word, x: seq<Word>)
    returns (a: Word, b: Word, c: Word, d: Word)
    requires |x| == 16
    ensures State(a, b, c, d) == Stretch(48, 16, State(a0, b0, c0, d0), x)
  {
    hide Step, Operation, Stretch;
    ghost var s := State(a0, b0, c0, d0);
    assert Stretch(48, 0, s, x) == s by {
      NoOperation(48, s, x);
    }
    a, b, c, d := a0, b0, c0, d0;
    a := Step(F4, a, b, c, d, x[0], 0xf4292244, 6);
    d := Step(F4, d, a, b, c, x[7], 0x432aff97, 10);
    c := Step(F4, c, d, a, b, x[14], 0xab9423a7, 15);
    b := Step(F4, b, c, d, a, x[5], 0xfc93a039, 21);
    assert State(a, b, c, d) == Stretch(48, 4, s, x) by { FourOperations(48, 0, s, x); }
    a := Step(F4, a, b, c, d, x[12], 0x655b59c3, 6);
    d := Step(F4, d, a, b, c, x[3], 0x8f0ccc92, 10);
    c := Step(F4, c, d, a, b, x[10], 0xffeff47d, 15);
    b := Step(F4, b, c, d, a, x[1], 0x85845dd1, 21);
    assert State(a, b, c, d) == Stretch(48, 8, s, x) by { FourOperations(48, 4, s, x); }
    a := Step(F4, a, b, c, d, x[8], 0x6fa87e4f, 6);
    d := Step(F4, d, a, b, c, x[15], 0xfe2ce6e0, 10);
    c := Step(F4, c, d, a, b, x[6], 0xa3014314, 15);
    b := Step(F4, b, c, d, a, x[13], 0x4e0811a1, 21);
    assert State(a, b, c, d) == Stretch(48, 12, s, x) by { FourOperations(48, 8, s, x); }
    a := Step(F4, a, b, c, d, x[4], 0xf7537e82, 6);
    d := Step(F4, d, a, b, c, x[11], 0xbd3af235, 10);
    c := Step(F4, c, d, a, b, x[2], 0x2ad7d2bb, 15);
    b := Step(F4, b, c, d, a, x[9], 0xeb86d391, 21);
    assert State(a, b, c, d) == Stretch(48, 16, s, x) by { FourOperations(48, 12, s, x); }
  }

  method MD5Transform(buf: array<Word>, x: seq<Word>)
    requires buf.Length == 4 && |x| == 16
    modifies buf
    ensures State(buf[0], buf[1], buf[2], buf[3]) == Compress(old(State(buf[0], buf[1], buf[2], buf[3])), x)
  {
    hide Plus, Operations, Stretch;
    FourRounds(State(buf[0], buf[1], buf[2], buf[3]), x);
    var a, b, c, d := Round1(buf[0], buf[1], buf[2], buf[3], x);
    a, b, c, d := Round2(a, b, c, d, x);
    a, b, c, d := Round3(a, b, c, d, x);
    a, b, c, d := Round4(a, b, c, d, x);
    buf[0] := Plus(buf[0], a);
    buf[1] := Plus(buf[1], b);
    buf[2] := Plus(buf[2], c);
    buf[3] := Plus(buf[3], d);
  }
}
