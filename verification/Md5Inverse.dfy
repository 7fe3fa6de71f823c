/** The 64 operations lose nothing: for a fixed block they are a bijection on states. */
module Md5Inverse {
  import opened Bytes
  import opened Rfc1321

  function RotateRight(x: bv32, s: nat): bv32
    requires 0 < s < 32
  {
    (x >> s) | (x << (32 - s))
  }

  function TurnLeft(x: bv32, s: nat): bv32
    requires s < 32
  {
    x.RotateLeft(s)
  }

  function TurnRight(x: bv32, s: nat): bv32
    requires s < 32
  {
    x.RotateRight(s)
  }

  /** The amounts in the rows of section 3.4. */
  predicate Amount(s: nat) {
    s in {4, 5, 6, 7, 9, 10, 11, 12, 14, 15, 16, 17, 20, 21, 22, 23}
  }

  lemma ShiftsRotate(x: bv32)
    ensures RotateLeft(x, 4) == TurnLeft(x, 4) && RotateRight(x, 4) == TurnRight(x, 4)
    ensures RotateLeft(x, 5) == TurnLeft(x, 5) && RotateRight(x, 5) == TurnRight(x, 5)
    ensures RotateLeft(x, 6) == TurnLeft(x, 6) && RotateRight(x, 6) == TurnRight(x, 6)
    ensures RotateLeft(x, 7) == TurnLeft(x, 7) && RotateRight(x, 7) == TurnRight(x, 7)
    ensures RotateLeft(x, 9) == TurnLeft(x, 9) && RotateRight(x, 9) == TurnRight(x, 9)
    ensures RotateLeft(x, 10) == TurnLeft(x, 10) && RotateRight(x, 10) == TurnRight(x, 10)
    ensures RotateLeft(x, 11) == TurnLeft(x, 11) && RotateRight(x, 11) == TurnRight(x, 11)
    ensures RotateLeft(x, 12) == TurnLeft(x, 12) && RotateRight(x, 12) == TurnRight(x, 12)
    ensures RotateLeft(x, 14) == TurnLeft(x, 14) && RotateRight(x, 14) == TurnRight(x, 14)
    ensures RotateLeft(x, 15) == TurnLeft(x, 15) && RotateRight(x, 15) == TurnRight(x, 15)
    ensures RotateLeft(x, 16) == TurnLeft(x, 16) && RotateRight(x, 16) == TurnRight(x, 16)
    ensures RotateLeft(x, 17) == TurnLeft(x, 17) && RotateRight(x, 17) == TurnRight(x, 17)
    ensures RotateLeft(x, 20) == TurnLeft(x, 20) && RotateRight(x, 20) == TurnRight(x, 20)
    ensures RotateLeft(x, 21) == TurnLeft(x, 21) && RotateRight(x, 21) == TurnRight(x, 21)
    ensures RotateLeft(x, 22) == TurnLeft(x, 22) && RotateRight(x, 22) == TurnRight(x, 22)
    ensures RotateLeft(x, 23) == TurnLeft(x, 23) && RotateRight(x, 23) == TurnRight(x, 23)
  {}

  lemma RotationsUndo(x: bv32, s: nat)
    requires s < 32
    ensures TurnRight(x.RotateLeft(s), s) == x
    ensures TurnLeft(x.RotateRight(s), s) == x
  {}

  lemma TurnsUndo(x: bv32, s: nat)
    requires s < 32
    ensures TurnRight(TurnLeft(x, s), s) == x
    ensures TurnLeft(TurnRight(x, s), s) == x
  {
    RotationsUndo(x, s);
    assert TurnLeft(x, s) == x.RotateLeft(s) && TurnRight(x, s) == x.RotateRight(s);
    hide TurnLeft, TurnRight;
  }

  lemma ShiftsTurn(x: bv32, s: nat)
    requires Amount(s)
    ensures RotateLeft(x, s) == TurnLeft(x, s)
    ensures RotateRight(x, s) == TurnRight(x, s)
  {
    hide RotateLeft, RotateRight, TurnLeft, TurnRight;
    ShiftsRotate(x);
  }

  lemma RotateBack(x: bv32, s: nat)
    requires 0 < s < 32 && Amount(s)
    ensures RotateRight(RotateLeft(x, s), s) == x
    ensures RotateLeft(RotateRight(x, s), s) == x
  {
    hide RotateLeft, RotateRight, TurnLeft, TurnRight, Amount;
    ShiftsTurn(x, s);
    ShiftsTurn(RotateLeft(x, s), s);
    ShiftsTurn(RotateRight(x, s), s);
    TurnsUndo(x, s);
  }

  lemma RowsUseAmounts(i: nat)
    requires i < 64
    ensures Amount(RowAt(i).s)
  {}

  function Difference(x: bv32, y: bv32): bv32 { x - y }

  /** What is left of a total when f, x and t are taken out again. */
  function Rest(total: bv32, f: bv32, x: bv32, t: nat): bv32
    requires t < TWO_32
  {
    total - f - x - t as bv32
  }

  lemma Cancels(x: bv32, y: bv32)
    ensures Difference(x + y, x) == y
    ensures Sum(x, y - x) == y
  {}

  lemma SumCancels(x: bv32, y: bv32)
    ensures Difference(Sum(x, y), x) == y
    ensures Sum(x, Difference(y, x)) == y
  {
    assert Sum(x, y) == x + y && Difference(y, x) == y - x;
    hide Sum, Difference;
    Cancels(x, y);
  }

  lemma FourCancel(a: bv32, f: bv32, x: bv32, t: nat)
    requires t < TWO_32
    ensures Rest(a + f + x + t as bv32, f, x, t) == a
    ensures Total(a - f - x - t as bv32, f, x, t) == a
  {}

  lemma TotalCancels(a: bv32, f: bv32, x: bv32, t: nat)
    requires t < TWO_32
    ensures Rest(Total(a, f, x, t), f, x, t) == a
    ensures Total(Rest(a, f, x, t), f, x, t) == a
  {
    assert Total(a, f, x, t) == a + f + x + t as bv32 && Rest(a, f, x, t) == a - f - x - t as bv32;
    hide Total, Rest;
    FourCancel(a, f, x, t);
  }

  /** The a with a' = b + ((a + f + x + t) <<< s). */
  function UnmixBits(mixed: bv32, b: bv32, f: bv32, x: bv32, t: nat, s: nat): bv32
    requires t < TWO_32 && 0 < s < 32
  {
    Rest(RotateRight(Difference(mixed, b), s), f, x, t)
  }

  lemma UnmixesMix(a: bv32, b: bv32, f: bv32, x: bv32, t: nat, s: nat)
    requires t < TWO_32 && 0 < s < 32 && Amount(s)
    ensures UnmixBits(MixBits(a, b, f, x, t, s), b, f, x, t, s) == a
  {
    hide RotateLeft, RotateRight, Amount, Sum, Difference, Total, Rest;
    TotalCancels(a, f, x, t);
    RotateBack(Total(a, f, x, t), s);
    SumCancels(b, RotateLeft(Total(a, f, x, t), s));
  }

  lemma MixesUnmix(mixed: bv32, b: bv32, f: bv32, x: bv32, t: nat, s: nat)
    requires t < TWO_32 && 0 < s < 32 && Amount(s)
    ensures MixBits(UnmixBits(mixed, b, f, x, t, s), b, f, x, t, s) == mixed
  {
    hide RotateLeft, RotateRight, Amount, Sum, Difference, Total, Rest;
    SumCancels(b, mixed);
    RotateBack(Difference(mixed, b), s);
    TotalCancels(RotateRight(Difference(mixed, b), s), f, x, t);
  }

  /** Operation i undone: the three words that only moved give back everything but a. */
  function Undo(i: nat, s: State, x: seq<Word>): State
    requires i < 64 && |x| == 16
  {
    var row := RowAt(i);
    var f := Auxiliary(i, s.c, s.d, s.a);
    State(Word(UnmixBits(s.b.bits, s.c.bits, f.bits, x[row.k].bits, row.t, row.s)), s.c, s.d, s.a)
  }

  /** The first n operations undone, last one first. */
  function UndoAll(n: nat, s: State, x: seq<Word>): State
    requires n <= 64 && |x| == 16
  {
    if n == 0 then s else UndoAll(n - 1, Undo(n - 1, s, x), x)
  }

  lemma UndoOne(i: nat, s: State, x: seq<Word>)
    requires i < 64 && |x| == 16
    ensures Undo(i, Operation(i, s, x), x) == s
    ensures Operation(i, Undo(i, s, x), x) == s
  {
    hide MixBits, UnmixBits, Amount, Auxiliary, RowAt;
    RowsUseAmounts(i);
    var row := RowAt(i);
    UnmixesMix(s.a.bits, s.b.bits, Auxiliary(i, s.b, s.c, s.d).bits, x[row.k].bits, row.t, row.s);
    MixesUnmix(s.b.bits, s.c.bits, Auxiliary(i, s.c, s.d, s.a).bits, x[row.k].bits, row.t, row.s);
  }

  lemma {:induction false} UndoAllOperations(n: nat, s: State, x: seq<Word>)
    requires n <= 64 && |x| == 16
    ensures UndoAll(n, Operations(n, s, x), x) == s
  {
    hide Operation, Undo;
    if n > 0 {
      UndoOne(n - 1, Operations(n - 1, s, x), x);
      UndoAllOperations(n - 1, s, x);
    }
  }

  lemma {:induction false} OperationsAfterUndoAll(n: nat, s: State, x: seq<Word>)
    requires n <= 64 && |x| == 16
    ensures Operations(n, UndoAll(n, s, x), x) == s
  {
    hide Operation, Undo;
    if n > 0 {
      OperationsAfterUndoAll(n - 1, Undo(n - 1, s, x), x);
      UndoOne(n - 1, s, x);
    }
  }

  /** With the block fixed, every state comes from exactly one state. */
  lemma PassIsBijective(x: seq<Word>, target: State)
    requires |x| == 16
    ensures exists s :: Operations(64, s, x) == target && forall r :: Operations(64, r, x) == target ==> r == s
  {
    hide Operations, UndoAll;
    var s := UndoAll(64, target, x);
    OperationsAfterUndoAll(64, target, x);
    forall r | Operations(64, r, x) == target
      ensures r == s
    {
      UndoAllOperations(64, r, x);
    }
  }
}
