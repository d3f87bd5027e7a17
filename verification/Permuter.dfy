/**
 * The permuter of masstree.h: fifteen four-bit slots and a four-bit size in one 64-bit word.  Each
 * operation on words, written with the shifts and masks of the code, is an operation on sequences.
 */
module Permuter {
  import opened Common
  import opened MassNode

  // ---- reading a word ----

  function Size(x: bv64): bv64 { x & 15 }

  /** operator[]. */
  function Elem(x: bv64, i: bv64): bv64
    requires i < 15
  {
    (x >> ((i << 2) + 4)) & 15
  }

  function ToNat(b: bv64): (n: nat)
    ensures n <= WIDTH
  {
    if b == 0 then 0 else if b == 1 then 1 else if b == 2 then 2 else if b == 3 then 3
    else if b == 4 then 4 else if b == 5 then 5 else if b == 6 then 6 else if b == 7 then 7
    else if b == 8 then 8 else if b == 9 then 9 else if b == 10 then 10 else if b == 11 then 11
    else if b == 12 then 12 else if b == 13 then 13 else if b == 14 then 14 else 15
  }

  function Bits(n: nat): (b: bv64)
    requires n <= WIDTH
    ensures b <= 15 && ToNat(b) == n
  {
    if n == 0 then 0 else if n == 1 then 1 else if n == 2 then 2 else if n == 3 then 3
    else if n == 4 then 4 else if n == 5 then 5 else if n == 6 then 6 else if n == 7 then 7
    else if n == 8 then 8 else if n == 9 then 9 else if n == 10 then 10 else if n == 11 then 11
    else if n == 12 then 12 else if n == 13 then 13 else if n == 14 then 14 else 15
  }

  lemma BitsOrder(i: nat, j: nat)
    requires i <= WIDTH && j <= WIDTH
    ensures Bits(i) < Bits(j) <==> i < j
    ensures Bits(i) == Bits(j) <==> i == j
  {
  }

  lemma BitsStep(i: nat)
    requires i < WIDTH
    ensures Bits(i + 1) == Bits(i) + 1
  {
  }

  lemma BitsOf(b: bv64)
    requires b <= 15
    ensures Bits(ToNat(b)) == b
  {
  }

  function SlotOf(x: bv64, j: nat): nat
    requires j < WIDTH
  {
    BitsBelow(j);
    ToNat(Elem(x, Bits(j)))
  }

  lemma BitsBelow(j: nat)
    requires j < WIDTH
    ensures Bits(j) < 15
  {
  }

  /** The permutation a word stands for. */
  function Abs(x: bv64): (p: Perm)
    ensures |p.slots| == WIDTH && forall j :: 0 <= j < WIDTH ==> p.slots[j] == SlotOf(x, j)
  {
    Perm(ToNat(Size(x)), seq(WIDTH, j requires 0 <= j < WIDTH => SlotOf(x, j)))
  }

  /** A word is determined by its size and its elements. */
  lemma WordIs(x: bv64, y: bv64)
    requires Size(x) == Size(y)
    requires Elem(x, 0) == Elem(y, 0) && Elem(x, 1) == Elem(y, 1) && Elem(x, 2) == Elem(y, 2)
      && Elem(x, 3) == Elem(y, 3)
    requires Elem(x, 4) == Elem(y, 4) && Elem(x, 5) == Elem(y, 5) && Elem(x, 6) == Elem(y, 6)
      && Elem(x, 7) == Elem(y, 7)
    requires Elem(x, 8) == Elem(y, 8) && Elem(x, 9) == Elem(y, 9) && Elem(x, 10) == Elem(y, 10)
      && Elem(x, 11) == Elem(y, 11)
    requires Elem(x, 12) == Elem(y, 12) && Elem(x, 13) == Elem(y, 13) && Elem(x, 14) == Elem(y, 14)
    ensures x == y
  {
  }

  // ---- pieces of words ----

  lemma ElemOr3(a: bv64, b: bv64, c: bv64, j: bv64)
    requires j < 15
    ensures Elem(a | b | c, j) == Elem(a, j) | Elem(b, j) | Elem(c, j)
  {
  }

  /** Where two of three pieces are zero, the third shows. */
  lemma FirstShows(a: bv64, b: bv64, c: bv64, j: bv64)
    requires j < 15 && Elem(b, j) == 0 && Elem(c, j) == 0
    ensures Elem(a | b | c, j) == Elem(a, j)
  {
    hide *;
    ElemOr3(a, b, c, j);
  }

  lemma SecondShows(a: bv64, b: bv64, c: bv64, j: bv64)
    requires j < 15 && Elem(a, j) == 0 && Elem(c, j) == 0
    ensures Elem(a | b | c, j) == Elem(b, j)
  {
    hide *;
    ElemOr3(a, b, c, j);
  }

  lemma ThirdShows(a: bv64, b: bv64, c: bv64, j: bv64)
    requires j < 15 && Elem(a, j) == 0 && Elem(b, j) == 0
    ensures Elem(a | b | c, j) == Elem(c, j)
  {
    hide *;
    ElemOr3(a, b, c, j);
  }

  lemma ElemSmall(x: bv64, j: bv64)
    requires j < 15
    ensures Elem(x, j) < 16
  {
  }

  // ---- insert_from_back ----

  function InsLower(x: bv64, i: bv64): bv64
    requires i < 15
  {
    (x + 1) & ((16 << (i << 2)) - 1)
  }

  function InsSlot(v: bv64, i: bv64): bv64
    requires i < 15
  {
    v << ((i << 2) + 4)
  }

  function InsUpper(x: bv64, i: bv64): bv64
    requires i < 15
  {
    (x << 4) & !((256 << (i << 2)) - 1)
  }

  function InsertWord(x: bv64, i: bv64): bv64
    requires i < 15
  {
    InsLower(x, i) | InsSlot(Elem(x, 14), i) | InsUpper(x, i)
  }

  lemma InsLowerAt(x: bv64, i: bv64, j: bv64)
    requires j < i < 15 && Size(x) < 15
    ensures Elem(InsLower(x, i), j) == Elem(x, j)
  {
  }

  lemma InsLowerZero(x: bv64, i: bv64, j: bv64)
    requires i <= j < 15
    ensures Elem(InsLower(x, i), j) == 0
  {
  }

  lemma InsSlotAt(v: bv64, i: bv64)
    requires i < 15 && v < 16
    ensures Elem(InsSlot(v, i), i) == v
  {
  }

  lemma InsSlotZero(v: bv64, i: bv64, j: bv64)
    requires i < 15 && j < 15 && i != j && v < 16
    ensures Elem(InsSlot(v, i), j) == 0
  {
  }

  lemma InsUpperAt(x: bv64, i: bv64, j: bv64)
    requires i < j < 15
    ensures Elem(InsUpper(x, i), j) == Elem(x, j - 1)
  {
  }

  lemma InsUpperZero(x: bv64, i: bv64, j: bv64)
    requires j <= i < 15
    ensures Elem(InsUpper(x, i), j) == 0
  {
  }

  lemma InsertParts(x: bv64, i: bv64)
    requires i < 15
    ensures InsertWord(x, i) == InsLower(x, i) | InsSlot(Elem(x, 14), i) | InsUpper(x, i)
  {
  }

  lemma InsertBelow(x: bv64, i: bv64, j: bv64)
    requires j < i < 15 && Size(x) < 15
    ensures Elem(InsertWord(x, i), j) == Elem(x, j)
  {
    hide *;
    ElemSmall(x, 14);
    InsLowerAt(x, i, j);
    InsSlotZero(Elem(x, 14), i, j);
    InsUpperZero(x, i, j);
    InsertParts(x, i);
    FirstShows(InsLower(x, i), InsSlot(Elem(x, 14), i), InsUpper(x, i), j);
  }

  lemma InsertHere(x: bv64, i: bv64)
    requires i < 15 && Size(x) < 15
    ensures Elem(InsertWord(x, i), i) == Elem(x, 14)
  {
    hide *;
    ElemSmall(x, 14);
    InsLowerZero(x, i, i);
    InsSlotAt(Elem(x, 14), i);
    InsUpperZero(x, i, i);
    InsertParts(x, i);
    SecondShows(InsLower(x, i), InsSlot(Elem(x, 14), i), InsUpper(x, i), i);
  }

  lemma InsertAbove(x: bv64, i: bv64, j: bv64)
    requires i < j < 15 && Size(x) < 15
    ensures Elem(InsertWord(x, i), j) == Elem(x, j - 1)
  {
    hide *;
    ElemSmall(x, 14);
    InsLowerZero(x, i, j);
    InsSlotZero(Elem(x, 14), i, j);
    InsUpperAt(x, i, j);
    InsertParts(x, i);
    ThirdShows(InsLower(x, i), InsSlot(Elem(x, 14), i), InsUpper(x, i), j);
  }

  lemma InsertAt(x: bv64, i: bv64, j: bv64)
    requires i < 15 && j < 15 && Size(x) < 15
    ensures Elem(InsertWord(x, i), j) == if j < i then Elem(x, j) else if j == i then Elem(x, 14) else Elem(x, j - 1)
  {
    hide *;
    if j < i { InsertBelow(x, i, j); } else if j == i { InsertHere(x, i); } else { InsertAbove(x, i, j); }
  }

  lemma InsertSize(x: bv64, i: bv64)
    requires i < 15 && Size(x) < 15
    ensures Size(InsertWord(x, i)) == Size(x) + 1
  {
  }

  // ---- remove_to_back ----

  function RemLower(x: bv64, i: bv64): bv64
    requires i < 15
  {
    (x - 1) & ((16 << (i << 2)) - 1)
  }

  function RemUpper(x: bv64, i: bv64): bv64
    requires i < 15
  {
    (x >> 4) & !((16 << (i << 2)) - 1)
  }

  function RemSlot(x: bv64, i: bv64): bv64
    requires i < 15
  {
    (x & !((16 << (i << 2)) - 1)) << ((15 - i - 1) << 2)
  }

  function RemoveWord(x: bv64, i: bv64): bv64
    requires i < 15
  {
    RemLower(x, i) | RemUpper(x, i) | RemSlot(x, i)
  }

  lemma RemLowerAt(x: bv64, i: bv64, j: bv64)
    requires j < i < 15 && Size(x) > 0
    ensures Elem(RemLower(x, i), j) == Elem(x, j)
  {
  }

  lemma RemLowerZero(x: bv64, i: bv64, j: bv64)
    requires i <= j < 15
    ensures Elem(RemLower(x, i), j) == 0
  {
  }

  lemma RemUpperAt(x: bv64, i: bv64, j: bv64)
    requires i <= j < 14
    ensures Elem(RemUpper(x, i), j) == Elem(x, j + 1)
  {
  }

  lemma RemUpperZero(x: bv64, i: bv64, j: bv64)
    requires j < i < 15 || (j == 14 && i < 15)
    ensures Elem(RemUpper(x, i), j) == 0
  {
  }

  lemma RemSlotAt(x: bv64, i: bv64)
    requires i < 15
    ensures Elem(RemSlot(x, i), 14) == Elem(x, i)
  {
  }

  lemma RemSlotZero(x: bv64, i: bv64, j: bv64)
    requires i < 15 && j < 14
    ensures Elem(RemSlot(x, i), j) == 0
  {
  }

  lemma RemoveParts(x: bv64, i: bv64)
    requires i < 15
    ensures RemoveWord(x, i) == RemLower(x, i) | RemUpper(x, i) | RemSlot(x, i)
  {
  }

  lemma RemoveBelow(x: bv64, i: bv64, j: bv64)
    requires j < i < 15 && j < 14 && Size(x) > 0
    ensures Elem(RemoveWord(x, i), j) == Elem(x, j)
  {
    hide *;
    RemLowerAt(x, i, j);
    RemUpperZero(x, i, j);
    RemSlotZero(x, i, j);
    RemoveParts(x, i);
    FirstShows(RemLower(x, i), RemUpper(x, i), RemSlot(x, i), j);
  }

  lemma RemoveAbove(x: bv64, i: bv64, j: bv64)
    requires i <= j < 14
    ensures Elem(RemoveWord(x, i), j) == Elem(x, j + 1)
  {
    hide *;
    RemLowerZero(x, i, j);
    RemUpperAt(x, i, j);
    RemSlotZero(x, i, j);
    RemoveParts(x, i);
    SecondShows(RemLower(x, i), RemUpper(x, i), RemSlot(x, i), j);
  }

  lemma RemoveLast(x: bv64, i: bv64)
    requires i < 15
    ensures Elem(RemoveWord(x, i), 14) == Elem(x, i)
  {
    hide *;
    RemLowerZero(x, i, 14);
    RemUpperZero(x, i, 14);
    RemSlotAt(x, i);
    RemoveParts(x, i);
    ThirdShows(RemLower(x, i), RemUpper(x, i), RemSlot(x, i), 14);
  }

  lemma RemoveAt(x: bv64, i: bv64, j: bv64)
    requires i < 15 && j < 15 && Size(x) > 0
    ensures Elem(RemoveWord(x, i), j) == if j == 14 then Elem(x, i) else if j < i then Elem(x, j) else Elem(x, j + 1)
  {
    hide *;
    if j == 14 { RemoveLast(x, i); } else if j < i { RemoveBelow(x, i, j); } else { RemoveAbove(x, i, j); }
  }

  lemma RemoveSize(x: bv64, i: bv64)
    requires i < 15 && Size(x) > 0
    ensures Size(RemoveWord(x, i)) == Size(x) - 1
  {
  }

  /** remove_to_back exactly undoes insert_from_back. */
  lemma RemoveUndoesInsert(x: bv64, i: bv64)
    requires i < 15 && Size(x) < 15
    ensures RemoveWord(InsertWord(x, i), i) == x
  {
    hide *;
    var y := InsertWord(x, i);
    InsertSize(x, i);
    SizeGrows(x, y);
    RemoveSize(y, i);
    RoundTripAt(x, i, 0); RoundTripAt(x, i, 1); RoundTripAt(x, i, 2); RoundTripAt(x, i, 3); RoundTripAt(x, i, 4);
    RoundTripAt(x, i, 5); RoundTripAt(x, i, 6); RoundTripAt(x, i, 7); RoundTripAt(x, i, 8); RoundTripAt(x, i, 9);
    RoundTripAt(x, i, 10); RoundTripAt(x, i, 11); RoundTripAt(x, i, 12); RoundTripAt(x, i, 13); RoundTripAt(x, i, 14);
    WordIs(RemoveWord(y, i), x);
  }

  lemma SizeGrows(x: bv64, y: bv64)
    requires Size(x) < 15 && Size(y) == Size(x) + 1
    ensures Size(y) > 0 && Size(y) - 1 == Size(x)
  {
  }

  lemma RoundTripAt(x: bv64, i: bv64, j: bv64)
    requires i < 15 && j < 15 && Size(x) < 15
    ensures Elem(RemoveWord(InsertWord(x, i), i), j) == Elem(x, j)
  {
    hide *;
    var y := InsertWord(x, i);
    InsertSize(x, i);
    SizeGrows(x, y);
    RemoveAt(y, i, j);
    if j < i { InsertAt(x, i, j); }
    else if j < 14 { InsertAt(x, i, j + 1); }
    else { InsertAt(x, i, i); }
  }

  // ---- insert_selected ----

  function SelMiddle(x: bv64, d: bv64, i: bv64): bv64
    requires d < 15 && i < 15
  {
    (x << 4) & ((256 << (i << 2)) - 1) & !((256 << (d << 2)) - 1)
  }

  function SelUpper(x: bv64, i: bv64): bv64
    requires i < 15
  {
    x & !((256 << (i << 2)) - 1)
  }

  function SelTail(x: bv64, d: bv64, i: bv64): bv64
    requires d < 15 && i < 15
  {
    SelMiddle(x, d, i) | SelUpper(x, i)
  }

  function SelectWord(x: bv64, d: bv64, i: bv64): bv64
    requires d < 15 && i < 15
  {
    InsLower(x, d) | InsSlot(Elem(x, i), d) | SelTail(x, d, i)
  }

  lemma SelTailAt(x: bv64, d: bv64, i: bv64, j: bv64)
    requires d < j <= i < 15
    ensures Elem(SelTail(x, d, i), j) == Elem(x, j - 1)
  {
  }

  lemma SelTailAbove(x: bv64, d: bv64, i: bv64, j: bv64)
    requires d <= i < j < 15
    ensures Elem(SelTail(x, d, i), j) == Elem(x, j)
  {
  }

  lemma SelTailZero(x: bv64, d: bv64, i: bv64, j: bv64)
    requires j <= d <= i < 15
    ensures Elem(SelTail(x, d, i), j) == 0
  {
  }

  lemma SelectParts(x: bv64, d: bv64, i: bv64)
    requires d < 15 && i < 15
    ensures SelectWord(x, d, i) == InsLower(x, d) | InsSlot(Elem(x, i), d) | SelTail(x, d, i)
  {
  }

  lemma SelectBelow(x: bv64, d: bv64, i: bv64, j: bv64)
    requires j < d <= i < 15 && Size(x) < 15
    ensures Elem(SelectWord(x, d, i), j) == Elem(x, j)
  {
    hide *;
    ElemSmall(x, i);
    InsLowerAt(x, d, j);
    InsSlotZero(Elem(x, i), d, j);
    SelTailZero(x, d, i, j);
    SelectParts(x, d, i);
    FirstShows(InsLower(x, d), InsSlot(Elem(x, i), d), SelTail(x, d, i), j);
  }

  lemma SelectHere(x: bv64, d: bv64, i: bv64)
    requires d <= i < 15
    ensures Elem(SelectWord(x, d, i), d) == Elem(x, i)
  {
    hide *;
    ElemSmall(x, i);
    InsLowerZero(x, d, d);
    InsSlotAt(Elem(x, i), d);
    SelTailZero(x, d, i, d);
    SelectParts(x, d, i);
    SecondShows(InsLower(x, d), InsSlot(Elem(x, i), d), SelTail(x, d, i), d);
  }

  lemma SelectAbove(x: bv64, d: bv64, i: bv64, j: bv64)
    requires d < j < 15 && d <= i < 15
    ensures j <= i ==> Elem(SelectWord(x, d, i), j) == Elem(x, j - 1)
    ensures j > i ==> Elem(SelectWord(x, d, i), j) == Elem(x, j)
  {
    hide *;
    ElemSmall(x, i);
    InsLowerZero(x, d, j);
    InsSlotZero(Elem(x, i), d, j);
    SelectParts(x, d, i);
    ThirdShows(InsLower(x, d), InsSlot(Elem(x, i), d), SelTail(x, d, i), j);
    if j <= i { SelTailAt(x, d, i, j); } else { SelTailAbove(x, d, i, j); }
  }

  lemma SelTailSource(x: bv64, d: bv64, i: bv64)
    requires i < d < 15
    ensures Elem(SelTail(x, d, i), i) == 0
  {
  }

  /** With the source below the target, the source stays where it is. */
  lemma SelectBeyond(x: bv64, d: bv64, i: bv64)
    requires i < d < 15 && Size(x) < 15
    ensures Elem(SelectWord(x, d, i), i) == Elem(x, i)
  {
    hide *;
    ElemSmall(x, i);
    InsLowerAt(x, d, i);
    InsSlotZero(Elem(x, i), d, i);
    SelTailSource(x, d, i);
    SelectParts(x, d, i);
    FirstShows(InsLower(x, d), InsSlot(Elem(x, i), d), SelTail(x, d, i), i);
  }

  lemma SelectSize(x: bv64, d: bv64, i: bv64)
    requires d <= i < 15 && Size(x) < 15
    ensures Size(SelectWord(x, d, i)) == Size(x) + 1
  {
  }

  // ---- remove ----

  /** The nibbles of elements i up to n - 1. */
  function RotMask(i: bv64, n: bv64): bv64
    requires i < n <= 15
  {
    ((16 << ((n - i - 1) << 2)) - 1) << ((i + 1) << 2)
  }

  function RotKeep(x: bv64, i: bv64, n: bv64): bv64
    requires i < n <= 15
  {
    (x - 1) & !RotMask(i, n)
  }

  function RotDown(x: bv64, i: bv64, n: bv64): bv64
    requires i < n <= 15
  {
    ((x & RotMask(i, n)) >> 4) & RotMask(i, n)
  }

  function RotUp(x: bv64, i: bv64, n: bv64): bv64
    requires i < n <= 15
  {
    ((x & RotMask(i, n)) << ((n - i - 1) << 2)) & RotMask(i, n)
  }

  function DropWord(x: bv64, i: bv64): bv64
    requires i < Size(x)
  {
    var n := Size(x);
    if n == i + 1 then x - 1 else RotKeep(x, i, n) | RotDown(x, i, n) | RotUp(x, i, n)
  }

  lemma RotKeepAt(x: bv64, i: bv64, n: bv64, j: bv64)
    requires i < n <= 15 && Size(x) == n && j < 15 && (j < i || n <= j)
    ensures Elem(RotKeep(x, i, n), j) == Elem(x, j)
  {
  }

  lemma RotKeepZero(x: bv64, i: bv64, n: bv64, j: bv64)
    requires i <= j < n <= 15
    ensures Elem(RotKeep(x, i, n), j) == 0
  {
  }

  lemma RotDownAt(x: bv64, i: bv64, n: bv64, j: bv64)
    requires i < n <= 15 && i <= j < n - 1
    ensures Elem(RotDown(x, i, n), j) == Elem(x, j + 1)
  {
  }

  lemma RotDownZero(x: bv64, i: bv64, n: bv64, j: bv64)
    requires i < n <= 15 && j < 15 && (j < i || n - 1 <= j)
    ensures Elem(RotDown(x, i, n), j) == 0
  {
  }

  lemma RotUpAt(x: bv64, i: bv64, n: bv64)
    requires i < n <= 15
    ensures Elem(RotUp(x, i, n), n - 1) == Elem(x, i)
  {
  }

  lemma RotUpZero(x: bv64, i: bv64, n: bv64, j: bv64)
    requires i < n <= 15 && j < 15 && j != n - 1
    ensures Elem(RotUp(x, i, n), j) == 0
  {
  }

  lemma DropParts(x: bv64, i: bv64)
    requires i < Size(x) && Size(x) != i + 1
    ensures Size(x) <= 15 && DropWord(x, i) == RotKeep(x, i, Size(x)) | RotDown(x, i, Size(x)) | RotUp(x, i, Size(x))
  {
  }

  lemma DropLast(x: bv64, i: bv64, j: bv64)
    requires i < Size(x) && Size(x) == i + 1 && j < 15
    ensures Elem(DropWord(x, i), j) == Elem(x, j)
  {
  }

  lemma SizeSmall(x: bv64)
    ensures Size(x) <= 15
  {
  }

  lemma AtMost(n: bv64, j: bv64, i: bv64)
    requires i < n <= 15 && (j < i || n <= j)
    ensures j != n - 1 && (j < i || n - 1 <= j)
  {
  }

  lemma DropAround(x: bv64, i: bv64, n: bv64, j: bv64)
    requires Size(x) == n && i < n <= 15 && n != i + 1 && j < 15 && (j < i || n <= j)
    ensures Elem(DropWord(x, i), j) == Elem(x, j)
  {
    hide *;
    AtMost(n, j, i);
    DropParts(x, i);
    RotKeepAt(x, i, n, j);
    RotDownZero(x, i, n, j);
    RotUpZero(x, i, n, j);
    FirstShows(RotKeep(x, i, n), RotDown(x, i, n), RotUp(x, i, n), j);
  }

  /** remove: elements outside i .. size - 1 stay, ... */
  lemma DropOutside(x: bv64, i: bv64, j: bv64)
    requires i < Size(x) && j < 15 && (j < i || Size(x) <= j)
    ensures Elem(DropWord(x, i), j) == Elem(x, j)
  {
    hide *;
    SizeSmall(x);
    if Size(x) == i + 1 { DropLast(x, i, j); } else { DropAround(x, i, Size(x), j); }
  }

  /** ... those after i move down, ... */
  lemma DropInside(x: bv64, i: bv64, n: bv64, j: bv64)
    requires Size(x) == n && i <= j < 14 && j + 1 < n <= 15
    ensures Elem(DropWord(x, i), j) == Elem(x, j + 1)
  {
    hide *;
    InsideBits(i, n, j);
    DropParts(x, i);
    RotKeepZero(x, i, n, j);
    RotDownAt(x, i, n, j);
    RotUpZero(x, i, n, j);
    SecondShows(RotKeep(x, i, n), RotDown(x, i, n), RotUp(x, i, n), j);
  }

  lemma InsideBits(i: bv64, n: bv64, j: bv64)
    requires i <= j < 14 && j + 1 < n <= 15
    ensures i < n && n != i + 1 && j < n - 1 && j < n && j != n - 1
  {
  }

  /** ... and i's comes to stand right behind the used ones. */
  lemma DropEnd(x: bv64, i: bv64, n: bv64)
    requires Size(x) == n && i + 1 < n <= 15 && i < 15
    ensures Elem(DropWord(x, i), n - 1) == Elem(x, i)
  {
    hide *;
    EndBits(i, n);
    DropParts(x, i);
    RotKeepZero(x, i, n, n - 1);
    RotDownZero(x, i, n, n - 1);
    RotUpAt(x, i, n);
    ThirdShows(RotKeep(x, i, n), RotDown(x, i, n), RotUp(x, i, n), n - 1);
  }

  lemma EndBits(i: bv64, n: bv64)
    requires i + 1 < n <= 15 && i < 15
    ensures i < n && n != i + 1 && i <= n - 1 < n && n - 1 < 15
  {
  }

  lemma DropSize(x: bv64, i: bv64)
    requires i < Size(x)
    ensures Size(DropWord(x, i)) == Size(x) - 1
  {
  }

  // ---- exchange ----

  function ExchangeWord(x: bv64, i: bv64, j: bv64): bv64
    requires i < 15 && j < 15
  {
    var diff := ((x >> (i << 2)) ^ (x >> (j << 2))) & 240;
    x ^ ((diff << (i << 2)) | (diff << (j << 2)))
  }

  lemma ExchangeUp(x: bv64, i: bv64, j: bv64)
    requires i <= j < 15
    ensures Elem(ExchangeWord(x, i, j), i) == Elem(x, j)
  {
  }

  lemma ExchangeDown(x: bv64, i: bv64, j: bv64)
    requires j < i < 15
    ensures Elem(ExchangeWord(x, i, j), i) == Elem(x, j)
  {
  }

  lemma ExchangeHere(x: bv64, i: bv64, j: bv64)
    requires i < 15 && j < 15
    ensures Elem(ExchangeWord(x, i, j), i) == Elem(x, j)
  {
    hide Elem, ExchangeWord;
    if i <= j { ExchangeUp(x, i, j); } else { ExchangeDown(x, i, j); }
  }

  lemma ExchangeOther(x: bv64, i: bv64, j: bv64, k: bv64)
    requires i < 15 && j < 15 && k < 15 && k != i && k != j
    ensures Elem(ExchangeWord(x, i, j), k) == Elem(x, k)
  {
  }

  // ---- set_size and value_from ----

  function SizeWord(x: bv64, n: bv64): bv64 { (x & !15) | n }

  lemma SizeAt(x: bv64, n: bv64, j: bv64)
    requires n < 16 && j < 15
    ensures Elem(SizeWord(x, n), j) == Elem(x, j) && Size(SizeWord(x, n)) == n
  {
  }

  /** value_from(i), shifted k more times, starts with element i + k. */
  lemma ValueFrom(x: bv64, i: bv64, k: bv64)
    requires i < 15 && k < 15 && i + k < 15
    ensures ((x >> ((i + 1) << 2)) >> (k << 2)) & 15 == Elem(x, i + k)
  {
  }

  // ---- make_sorted ----

  function SortedWord(n: bv64): bv64
    requires n <= 15
  {
    var empty: bv64 := 0x0123456789ABCDE0 & !15;
    var mask: bv64 := (if n == 15 then 0 else 16 << (n << 2)) - 1;
    (if n == 15 then empty << 60 else empty << (n << 2)) | (0xEDCBA98765432100 & mask) | n
  }

  lemma SortedAt(n: bv64, j: bv64)
    requires n <= 15 && j < 15
    ensures Elem(SortedWord(n), j) == (if j < n then j else 14 - (j - n)) && Size(SortedWord(n)) == n
  {
  }

  // ---- words and sequences ----

  lemma StepToNat(b: bv64)
    requires b < 15
    ensures ToNat(b + 1) == ToNat(b) + 1
  {
  }

  lemma SizeIs(x: bv64)
    ensures Bits(Abs(x).size) == Size(x)
  {
    BitsOf(Size(x));
  }

  /** insert_from_back. */
  lemma InsertRefines(x: bv64, i: nat)
    requires PermOk(Abs(x)) && Abs(x).size < WIDTH && i < WIDTH
    ensures Bits(i) < 15 && Abs(InsertWord(x, Bits(i))) == InsertFromBack(Abs(x), i)
      && SlotOf(x, WIDTH - 1) == Back(Abs(x))
  {
    hide InsertWord, Elem, Size, Bits, ToNat;
    BitsBelow(i);
    SizeIs(x);
    BitsBelow(Abs(x).size);
    InsertSize(x, Bits(i));
    StepToNat(Size(x));
    var p, q := InsertFromBack(Abs(x), i), Abs(InsertWord(x, Bits(i)));
    forall j: nat | j < WIDTH ensures q.slots[j] == p.slots[j] { InsertSlotRefines(x, i, j); }
  }

  lemma LastBits()
    ensures Bits(14) == 14
  {
  }

  lemma InsertSlotRefines(x: bv64, i: nat, j: nat)
    requires Size(x) < 15 && i < WIDTH && j < WIDTH
    ensures Bits(i) < 15
      && SlotOf(InsertWord(x, Bits(i)), j) == if j < i then SlotOf(x, j) else if j == i then SlotOf(x, 14)
      else SlotOf(x, j - 1)
  {
    hide InsertWord, Elem, Size, Bits, ToNat;
    BitsBelow(i);
    BitsBelow(j);
    BitsOrder(i, j);
    BitsOrder(j, i);
    LastBits();
    InsertAt(x, Bits(i), Bits(j));
    if j > i { BitsStep(j - 1); }
  }

  /** remove_to_back. */
  lemma RemoveRefines(x: bv64, i: nat)
    requires PermOk(Abs(x)) && i < Abs(x).size
    ensures Bits(i) < 15 && Abs(RemoveWord(x, Bits(i))) == RemoveToBack(Abs(x), i)
  {
    hide RemoveWord, Elem, Size, Bits, ToNat;
    BitsBelow(i);
    SizePositive(x);
    RemoveSize(x, Bits(i));
    StepDown(Size(x));
    var p, q := RemoveToBack(Abs(x), i), Abs(RemoveWord(x, Bits(i)));
    forall j: nat | j < WIDTH ensures q.slots[j] == p.slots[j] { RemoveSlotRefines(x, i, j); }
  }

  lemma SizePositive(x: bv64)
    requires Abs(x).size > 0
    ensures 0 < Size(x) <= 15
  {
  }

  lemma StepDown(b: bv64)
    requires 0 < b <= 15
    ensures ToNat(b - 1) == ToNat(b) - 1
  {
  }

  lemma RemoveSlotRefines(x: bv64, i: nat, j: nat)
    requires Size(x) > 0 && i < WIDTH && j < WIDTH
    ensures Bits(i) < 15
      && SlotOf(RemoveWord(x, Bits(i)), j) == if j == 14 then SlotOf(x, i) else if j < i then SlotOf(x, j)
      else SlotOf(x, j + 1)
  {
    hide RemoveWord, Elem, Size, Bits, ToNat;
    BitsBelow(i);
    BitsBelow(j);
    BitsOrder(i, j);
    BitsOrder(j, i);
    BitsOrder(j, 14);
    LastBits();
    RemoveAt(x, Bits(i), Bits(j));
    if j < 14 { BitsStep(j); }
  }

  /** set_size. */
  lemma SizeRefines(x: bv64, n: nat)
    requires n <= WIDTH
    ensures Abs(SizeWord(x, Bits(n))) == SetSize(Abs(x), n)
  {
    hide SizeWord, Elem, Size, Bits, ToNat;
    var q := Abs(SizeWord(x, Bits(n)));
    LastBits();
    SizeAt(x, Bits(n), 14);
    forall j: nat | j < WIDTH ensures q.slots[j] == SlotOf(x, j) { BitsBelow(j); SizeAt(x, Bits(n), Bits(j)); }
  }

  /** make_sorted (make_empty is make_sorted(0)). */
  lemma SortedRefines(n: nat)
    requires n <= WIDTH
    ensures Abs(SortedWord(Bits(n))) == MakeSorted(n)
  {
    hide SortedWord, Elem, Size, Bits, ToNat;
    var p, q := MakeSorted(n), Abs(SortedWord(Bits(n)));
    LastBits();
    SortedAt(Bits(n), 14);
    forall j: nat | j < WIDTH ensures q.slots[j] == p.slots[j] {
      BitsBelow(j);
      BitsOrder(j, n);
      SortedAt(Bits(n), Bits(j));
      if j >= n { DownFrom(n, j); }
    }
  }

  lemma DownFrom(n: nat, j: nat)
    requires n <= j < WIDTH
    ensures ToNat(14 - (Bits(j) - Bits(n))) == 14 - (j - n)
  {
    hide ToNat, Bits;
    if j > n {
      BitsStep(j - 1);
      DownFrom(n, j - 1);
      DownStep(n, j);
    } else {
      LastBits();
    }
  }

  lemma DownStep(n: nat, j: nat)
    requires n < j < WIDTH && Bits(j) == Bits(j - 1) + 1 && ToNat(14 - (Bits(j - 1) - Bits(n))) == 14 - (j - 1 - n)
    ensures ToNat(14 - (Bits(j) - Bits(n))) == 14 - (j - n)
  {
  }

  function Swapped(s: seq<nat>, i: nat, j: nat): seq<nat>
    requires i < |s| && j < |s|
  {
    s[i := s[j]][j := s[i]]
  }

  /** exchange. */
  lemma ExchangeRefines(x: bv64, i: nat, j: nat)
    requires i < WIDTH && j < WIDTH
    ensures Bits(i) < 15 && Bits(j) < 15
      && Abs(ExchangeWord(x, Bits(i), Bits(j))) == Perm(Abs(x).size, Swapped(Abs(x).slots, i, j))
  {
    hide ExchangeWord, Elem, Size, Bits, ToNat;
    BitsBelow(i);
    BitsBelow(j);
    ExchangeSize(x, Bits(i), Bits(j));
    var q := Abs(ExchangeWord(x, Bits(i), Bits(j)));
    forall k: nat | k < WIDTH ensures q.slots[k] == Swapped(Abs(x).slots, i, j)[k] { ExchangeSlotRefines(x, i, j, k); }
  }

  lemma ExchangeSlotRefines(x: bv64, i: nat, j: nat, k: nat)
    requires i < WIDTH && j < WIDTH && k < WIDTH
    ensures Bits(i) < 15 && Bits(j) < 15
      && SlotOf(ExchangeWord(x, Bits(i), Bits(j)), k) == if k == j then SlotOf(x, i) else if k == i then SlotOf(x, j)
      else SlotOf(x, k)
  {
    hide ExchangeWord, Elem, Size, Bits, ToNat;
    BitsBelow(i);
    BitsBelow(j);
    BitsBelow(k);
    BitsOrder(i, k);
    BitsOrder(j, k);
    if k == j { ExchangeThere(x, Bits(i), Bits(j)); }
    else if k == i { ExchangeHere(x, Bits(i), Bits(j)); }
    else { ExchangeOther(x, Bits(i), Bits(j), Bits(k)); }
  }

  lemma ExchangeThere(x: bv64, i: bv64, j: bv64)
    requires i < 15 && j < 15
    ensures Elem(ExchangeWord(x, i, j), j) == Elem(x, i)
  {
    hide Elem;
    assert ExchangeWord(x, i, j) == ExchangeWord(x, j, i);
    ExchangeHere(x, j, i);
  }

  lemma ExchangeSize(x: bv64, i: bv64, j: bv64)
    requires i < 15 && j < 15
    ensures Size(ExchangeWord(x, i, j)) == Size(x)
  {
  }

  /** The element at position i moved to position d, one more in use. */
  function Selected(p: Perm, d: nat, i: nat): Perm
    requires d <= i < |p.slots|
  {
    Perm(p.size + 1, p.slots[..d] + [p.slots[i]] + p.slots[d..i] + p.slots[i + 1..])
  }

  /** insert_selected. */
  lemma SelectRefines(x: bv64, d: nat, i: nat)
    requires Abs(x).size < WIDTH && d <= i < WIDTH
    ensures Bits(d) < 15 && Bits(i) < 15 && Abs(SelectWord(x, Bits(d), Bits(i))) == Selected(Abs(x), d, i)
  {
    hide SelectWord, Elem, Size, Bits, ToNat, SlotOf;
    SelectSizeRefines(x, d, i);
    var p, q := Selected(Abs(x), d, i), Abs(SelectWord(x, Bits(d), Bits(i)));
    forall j: nat | j < WIDTH ensures q.slots[j] == p.slots[j] { SelectSlotRefines(x, d, i, j); }
  }

  lemma SelectSizeRefines(x: bv64, d: nat, i: nat)
    requires Abs(x).size < WIDTH && d <= i < WIDTH
    ensures Size(x) < 15 && Bits(d) < 15 && Bits(i) < 15 && Abs(SelectWord(x, Bits(d), Bits(i))).size == Abs(x).size + 1
  {
    hide SelectWord, Elem, Size, Bits, ToNat, SlotOf;
    BitsBelow(i);
    BitsBelow(d);
    BitsOrder(i, d);
    SizeIs(x);
    BitsBelow(Abs(x).size);
    SelectSize(x, Bits(d), Bits(i));
    StepToNat(Size(x));
  }

  lemma SelectSlotRefines(x: bv64, d: nat, i: nat, j: nat)
    requires Size(x) < 15 && d <= i < WIDTH && j < WIDTH
    ensures Bits(d) < 15 && Bits(i) < 15
    ensures SlotOf(SelectWord(x, Bits(d), Bits(i)), j) == if j < d then SlotOf(x, j) else if j == d then SlotOf(x, i)
      else if j <= i then SlotOf(x, j - 1) else SlotOf(x, j)
  {
    hide SelectWord, Elem, Size, Bits, ToNat;
    BitsBelow(i);
    BitsBelow(d);
    BitsBelow(j);
    BitsOrder(i, d);
    BitsOrder(j, d);
    BitsOrder(d, j);
    BitsOrder(i, j);
    if j < d { SelectBelow(x, Bits(d), Bits(i), Bits(j)); }
    else if j == d { SelectHere(x, Bits(d), Bits(i)); }
    else {
      SelectAbove(x, Bits(d), Bits(i), Bits(j));
      if j <= i { BitsStep(j - 1); }
    }
  }

  /** insert_selected moves the element, and leaves a permutation, if and only if the target is not above the source. */
  lemma SelectIffOrdered(x: bv64, d: nat, i: nat)
    requires PermOk(Abs(x)) && Abs(x).size < WIDTH && d < WIDTH && i < WIDTH
    ensures Bits(d) < 15 && Bits(i) < 15
    ensures var q := Abs(SelectWord(x, Bits(d), Bits(i))); PermOk(q) && q.slots[d] == Abs(x).slots[i] <==> d <= i
  {
    hide SelectWord, Elem, Size, Bits, ToNat;
    BitsBelow(i);
    BitsBelow(d);
    if d <= i {
      SelectRefines(x, d, i);
      SelectedOk(Abs(x), d, i);
    } else {
      BitsOrder(i, d);
      SizeIs(x);
      BitsBelow(Abs(x).size);
      SelectBeyond(x, Bits(d), Bits(i));
      var q := Abs(SelectWord(x, Bits(d), Bits(i)));
      assert q.slots[i] == Abs(x).slots[i];
      if q.slots[d] == Abs(x).slots[i] { assert !NoDup(q.slots); }
    }
  }

  /** The element at position i moved behind the used ones, one fewer in use. */
  function Dropped(p: Perm, i: nat): Perm
    requires i < p.size <= |p.slots|
  {
    Perm(p.size - 1, p.slots[..i] + p.slots[i + 1..p.size] + [p.slots[i]] + p.slots[p.size..])
  }

  /** remove. */
  lemma DropRefines(x: bv64, i: nat)
    requires i < Abs(x).size
    ensures Bits(i) < Size(x) && Abs(DropWord(x, Bits(i))) == Dropped(Abs(x), i)
  {
    hide DropWord, Elem, Size, Bits, ToNat;
    SizeIs(x);
    SizePositive(x);
    BitsOrder(i, Abs(x).size);
    DropSize(x, Bits(i));
    StepDown(Size(x));
    var p, q := Dropped(Abs(x), i), Abs(DropWord(x, Bits(i)));
    forall j: nat | j < WIDTH ensures q.slots[j] == p.slots[j] { DropSlotRefines(x, i, j); }
  }

  lemma DropSlotRefines(x: bv64, i: nat, j: nat)
    requires i < Abs(x).size && j < WIDTH
    ensures Bits(i) < Size(x)
    ensures
      var n := Abs(x).size;
      SlotOf(DropWord(x, Bits(i)), j) == if j < i
        || j >= n then SlotOf(x, j) else if j + 1 < n then SlotOf(x, j + 1) else SlotOf(x, i)
  {
    hide DropWord, Elem, Size, Bits, ToNat, Abs;
    var n := Abs(x).size;
    SizeIs(x);
    SizePositive(x);
    BitsOrder(i, n);
    BitsBelow(i);
    BitsBelow(j);
    if j < i || j >= n {
      BitsOrder(j, i);
      BitsOrder(j, n);
      DropOutside(x, Bits(i), Bits(j));
    } else if j + 1 < n {
      DropMiddle(x, i, j, n);
    } else if i == j {
      BitsStep(j);
      DropLastOne(x, Bits(i));
    } else {
      DropBack(x, i, j, n);
    }
  }

  lemma DropMiddle(x: bv64, i: nat, j: nat, n: nat)
    requires n <= WIDTH && Size(x) == Bits(n) && i <= j && j + 1 < n
    ensures Bits(i) < Size(x) && SlotOf(DropWord(x, Bits(i)), j) == SlotOf(x, j + 1)
  {
    hide DropWord, Elem, Size, Bits, ToNat;
    BitsOrder(i, n);
    BitsOrder(j, i);
    BitsBelow(j);
    BitsStep(j);
    BitsOrder(j + 1, n);
    LastBits();
    BitsOrder(j, 14);
    DropInside(x, Bits(i), Bits(n), Bits(j));
  }

  lemma DropBack(x: bv64, i: nat, j: nat, n: nat)
    requires n <= WIDTH && Size(x) == Bits(n) && i < j && j + 1 == n
    ensures Bits(i) < Size(x) && SlotOf(DropWord(x, Bits(i)), j) == SlotOf(x, i)
  {
    hide DropWord, Elem, Size, Bits, ToNat;
    BitsOrder(i, n);
    BitsBelow(i);
    BitsBelow(j);
    BitsStep(j);
    BitsStep(i);
    BitsOrder(i + 1, n);
    DropEnd(x, Bits(i), Bits(n));
  }

  lemma DropLastOne(x: bv64, i: bv64)
    requires i < Size(x) && Size(x) == i + 1 && i < 15
    ensures Elem(DropWord(x, i), i) == Elem(x, i)
  {
    hide *;
    DropLast(x, i, i);
  }

  // ---- exchange_values ----

  /** Nibble n of a word; element j is nibble j + 1. */
  function Nib(w: bv64, n: nat): bv64
    requires n <= 15
  {
    (w >> (Bits(n) << 2)) & 15
  }

  lemma ShiftUp(w: bv64, n: bv64)
    requires n < 15
    ensures ((w << 4) >> ((n + 1) << 2)) & 15 == (w >> (n << 2)) & 15
  {
  }

  lemma ShiftIn(w: bv64)
    ensures (w << 4) & 15 == 0
  {
  }

  lemma XorLow(w: bv64, v: bv64, n: bv64)
    requires v < 16 && 0 < n <= 15
    ensures ((w ^ v) >> (n << 2)) & 15 == (w >> (n << 2)) & 15
  {
  }

  lemma XorNib(w: bv64, u: bv64, n: bv64)
    requires n <= 15
    ensures ((w ^ u) >> (n << 2)) & 15 == ((w >> (n << 2)) & 15) ^ ((u >> (n << 2)) & 15)
  {
  }

  lemma NibShifted(w: bv64, n: nat)
    requires n < 15
    ensures Nib(w << 4, n + 1) == Nib(w, n)
  {
    BitsStep(n);
    BitsBelow(n);
    hide Bits;
    ShiftUp(w, Bits(n));
  }

  lemma NibZero(w: bv64)
    ensures Nib(w << 4, 0) == 0
  {
    ShiftIn(w);
  }

  lemma NibXorLow(w: bv64, v: bv64, n: nat)
    requires v < 16 && 0 < n <= 15
    ensures Nib(w ^ v, n) == Nib(w, n)
  {
    BitsOrder(0, n);
    hide Bits;
    XorLow(w, v, Bits(n));
  }

  lemma NibXorZero(w: bv64, v: bv64)
    requires v < 16 && Nib(w, 0) == 0
    ensures Nib(w ^ v, 0) == v
  {
    LowXor(w, v);
  }

  lemma LowXor(w: bv64, v: bv64)
    requires v < 16 && w & 15 == 0
    ensures (w ^ v) & 15 == v
  {
  }

  /** What exchange_values flips in an element with value v. */
  function Flip(v: bv64, a: bv64, b: bv64): (r: bv64)
    requires a < 16 && b < 16
    ensures r < 16
  {
    if v == a || v == b then XorSmall(a, b); a ^ b else 0
  }

  lemma XorSmall(a: bv64, b: bv64)
    requires a < 16 && b < 16
    ensures a ^ b < 16
  {
  }

  /** After i rounds, the flips of the top i elements are gathered, the last of them in nibble 1. */
  predicate Gathered(x: bv64, diff: bv64, i: nat, a: bv64, b: bv64)
    requires i <= 15 && a < 16 && b < 16
  {
    Nib(diff, 0) == 0 && forall n: nat :: 0 < n <= i ==> Nib(diff, n) == Flip(Nib(x, 15 - i + n), a, b)
  }

  lemma GatherStep(x: bv64, diff: bv64, i: nat, a: bv64, b: bv64)
    requires i < 15 && a < 16 && b < 16 && Gathered(x, diff, i, a, b)
    ensures Gathered(x, (diff ^ Flip(Nib(x, 15 - i), a, b)) << 4, i + 1, a, b)
  {
    hide Nib, Flip;
    var f := Flip(Nib(x, 15 - i), a, b);
    var d := diff ^ f;
    var up := d << 4;
    NibZero(d);
    NibXorZero(diff, f);
    forall n: nat | 0 < n <= i + 1 ensures Nib(up, n) == Flip(Nib(x, 15 - (i + 1) + n), a, b) {
      NibShifted(d, n - 1);
      if n > 1 { NibXorLow(diff, f, n - 1); }
    }
  }

  lemma TopNib(p: bv64)
    ensures (p >> 60) & 15 == Nib(p, 15)
  {
  }

  function Renamed(v: nat, a: nat, b: nat): nat { if v == a then b else if v == b then a else v }

  lemma FlipRenames(v: bv64, a: bv64, b: bv64)
    requires a < 16 && b < 16 && v < 16
    ensures v ^ Flip(v, a, b) == if v == a then b else if v == b then a else v
  {
    XorTwice(a, b);
    XorZero(v);
  }

  lemma XorTwice(a: bv64, b: bv64)
    ensures a ^ (a ^ b) == b && b ^ (a ^ b) == a
  {
  }

  lemma XorZero(a: bv64)
    ensures a ^ 0 == a
  {
  }

  lemma ElemIsNib(x: bv64, j: nat)
    requires j < WIDTH
    ensures Bits(j) < 15 && Elem(x, Bits(j)) == Nib(x, j + 1) && Nib(x, j + 1) < 16
  {
    BitsBelow(j);
    BitsStep(j);
    hide Bits;
    ElemAt(x, Bits(j));
  }

  lemma ElemAt(x: bv64, j: bv64)
    requires j < 15
    ensures Elem(x, j) == (x >> ((j + 1) << 2)) & 15 && Elem(x, j) < 16
  {
  }

  /** Exchanging two values everywhere. */
  lemma ValuesRefine(x: bv64, diff: bv64, a: nat, b: nat)
    requires a <= WIDTH && b <= WIDTH && Gathered(x, diff, 15, Bits(a), Bits(b))
    ensures Abs(x ^ diff).size == Abs(x).size
    ensures forall j: nat :: j < WIDTH ==> Abs(x ^ diff).slots[j] == Renamed(Abs(x).slots[j], a, b)
  {
    hide Elem, Bits, ToNat, Nib, Flip, Size, SlotOf;
    SizeStays(x, diff);
    forall j: nat | j < WIDTH ensures Abs(x ^ diff).slots[j] == Renamed(Abs(x).slots[j], a, b) {
      ValueRefines(x, diff, a, b, j);
    }
  }

  lemma ValueRefines(x: bv64, diff: bv64, a: nat, b: nat, j: nat)
    requires a <= WIDTH && b <= WIDTH && j < WIDTH && Gathered(x, diff, 15, Bits(a), Bits(b))
    ensures SlotOf(x ^ diff, j) == Renamed(SlotOf(x, j), a, b)
  {
    hide Elem, Bits, ToNat, Nib, Flip, Size, SlotOf, Gathered, Renamed;
    FlipAt(x, diff, j + 1, Bits(a), Bits(b));
    SlotIsNib(x, j);
    SlotIsNib(x ^ diff, j);
    NibsXor(x, diff, j + 1);
    RenameNib(Nib(x, j + 1), Nib(x ^ diff, j + 1), a, b);
  }

  lemma FlipAt(x: bv64, diff: bv64, n: nat, a: bv64, b: bv64)
    requires 0 < n <= 15 && a < 16 && b < 16 && Gathered(x, diff, 15, a, b)
    ensures Nib(diff, n) == Flip(Nib(x, n), a, b)
  {
    hide Nib, Flip;
  }

  lemma SlotIsNib(x: bv64, j: nat)
    requires j < WIDTH
    ensures SlotOf(x, j) == ToNat(Nib(x, j + 1)) && Nib(x, j + 1) < 16
  {
    hide Elem, ToNat, Nib;
    ElemIsNib(x, j);
  }

  lemma RenameNib(v: bv64, v': bv64, a: nat, b: nat)
    requires v < 16 && a <= WIDTH && b <= WIDTH && v' == v ^ Flip(v, Bits(a), Bits(b))
    ensures ToNat(v') == Renamed(ToNat(v), a, b)
  {
    hide Bits, ToNat, Flip;
    FlipRenames(v, Bits(a), Bits(b));
    ToNatOf(v, a);
    ToNatOf(v, b);
  }

  lemma ToNatOf(v: bv64, a: nat)
    requires v < 16 && a <= WIDTH
    ensures v == Bits(a) <==> ToNat(v) == a
  {
    BitsOf(v);
  }

  lemma NibsXor(x: bv64, d: bv64, n: nat)
    requires n <= 15
    ensures Nib(x ^ d, n) == Nib(x, n) ^ Nib(d, n)
  {
    hide Bits;
    XorNib(x, d, Bits(n));
  }

  lemma SizeStays(x: bv64, diff: bv64)
    requires Nib(diff, 0) == 0
    ensures Size(x ^ diff) == Size(x)
  {
    LowStays(x, diff);
  }

  lemma LowStays(x: bv64, d: bv64)
    requires d & 15 == 0
    ensures (x ^ d) & 15 == x & 15
  {
  }

  lemma RenamedOk(p: Perm, q: Perm, a: nat, b: nat)
    requires PermOk(p) && a < WIDTH && b < WIDTH && |q.slots| == WIDTH && q.size == p.size
    requires forall j: nat :: j < WIDTH ==> q.slots[j] == Renamed(p.slots[j], a, b)
    ensures PermOk(q)
  {
    forall j: nat | j < WIDTH ensures q.slots[j] < WIDTH { assert p.slots[j] in p.slots; }
  }

  /** p is x shifted up by i nibbles. */
  predicate Shifted(x: bv64, p: bv64, i: nat) { forall n: nat :: i <= n <= 15 ==> Nib(p, n) == Nib(x, n - i) }

  lemma ShiftTop(x: bv64, p: bv64, i: nat)
    requires i < 15 && Shifted(x, p, i)
    ensures (p >> 60) & 15 == Nib(x, 15 - i) && Shifted(x, p << 4, i + 1)
  {
    TopNib(p);
    hide Nib;
    var up := p << 4;
    forall n: nat | i + 1 <= n <= 15 ensures Nib(up, n) == Nib(x, n - (i + 1)) { NibShifted(p, n - 1); }
  }

  lemma GatherStart(x: bv64, a: nat, b: nat)
    requires a <= WIDTH && b <= WIDTH
    ensures Bits(a) < 16 && Bits(b) < 16 && Gathered(x, 0, 0, Bits(a), Bits(b)) && Shifted(x, x, 0)
  {
    assert Nib(0, 0) == 0;
  }

  // ---- permutations stay permutations ----

  lemma SelectedOk(p: Perm, d: nat, i: nat)
    requires PermOk(p) && p.size < WIDTH && d <= i < WIDTH
    ensures PermOk(Selected(p, d, i))
  {
    var q := Selected(p, d, i).slots;
    forall j: nat
      ensures j < WIDTH ==>
        q[j] == if j < d then p.slots[j] else if j == d then p.slots[i] else if j <= i then p.slots[j - 1]
        else p.slots[j]
    {
    }
    forall y | y in q ensures y in p.slots { }
  }

  /** Where remove takes its j-th slot from. */
  function DropFrom(n: nat, i: nat, j: nat): nat { if j < i || j >= n then j else if j + 1 < n then j + 1 else i }

  lemma DroppedAt(p: Perm, i: nat, j: nat)
    requires PermOk(p) && i < p.size && j < WIDTH
    ensures DropFrom(p.size, i, j) < WIDTH && |Dropped(p, i).slots| == WIDTH
    ensures Dropped(p, i).slots[j] == p.slots[DropFrom(p.size, i, j)]
  {
    hide NoDup;
  }

  lemma DroppedOk(p: Perm, i: nat)
    requires PermOk(p) && i < p.size
    ensures PermOk(Dropped(p, i))
  {
    var q := Dropped(p, i).slots;
    hide Dropped;
    DroppedAt(p, i, 0);
    forall a, b | 0 <= a < b < |q| ensures q[a] != q[b] { DroppedAt(p, i, a); DroppedAt(p, i, b); }
    forall y | y in q ensures y in p.slots {
      var j :| 0 <= j < |q| && q[j] == y;
      DroppedAt(p, i, j);
    }
  }

  lemma SwappedOk(p: Perm, i: nat, j: nat)
    requires PermOk(p) && i < WIDTH && j < WIDTH
    ensures PermOk(Perm(p.size, Swapped(p.slots, i, j)))
  {
    var q := Swapped(p.slots, i, j);
    forall y | y in q ensures y in p.slots { }
  }

  // ---- the class ----

  class PermuterWord {
    var x: bv64

    ghost predicate Valid()
      reads this
    {
      PermOk(Abs(x))
    }

    constructor MakeSorted(n: nat)
      requires n <= WIDTH
      ensures Valid() && Abs(x) == MassNode.MakeSorted(n)
    {
      x := SortedWord(Bits(n));
      SortedRefines(n);
    }

    method InsertFromBack(i: nat) returns (value: nat)
      requires Valid() && Abs(x).size < WIDTH && i < WIDTH
      modifies this
      ensures Valid() && Abs(x) == MassNode.InsertFromBack(old(Abs(x)), i) && value == Back(old(Abs(x)))
    {
      InsertRefines(x, i);
      InsertOk(Abs(x), i);
      value := SlotOf(x, WIDTH - 1);
      x := InsertWord(x, Bits(i));
    }

    method RemoveToBack(i: nat)
      requires Valid() && i < Abs(x).size
      modifies this
      ensures Valid() && Abs(x) == MassNode.RemoveToBack(old(Abs(x)), i)
    {
      RemoveRefines(x, i);
      RemoveOk(Abs(x), i);
      x := RemoveWord(x, Bits(i));
    }

    method SetSize(n: nat)
      requires Valid() && n <= WIDTH
      modifies this
      ensures Valid() && Abs(x) == MassNode.SetSize(old(Abs(x)), n)
    {
      SizeRefines(x, n);
      x := SizeWord(x, Bits(n));
    }

    method InsertSelected(d: nat, i: nat)
      requires Valid() && Abs(x).size <= i < WIDTH && d < WIDTH
      modifies this
      ensures d <= i ==> Valid() && Abs(x) == Selected(old(Abs(x)), d, i)
      ensures d > i ==> !(Valid() && Abs(x).slots[d] == old(Abs(x)).slots[i])
    {
      if d <= i {
        SelectRefines(x, d, i);
        SelectedOk(Abs(x), d, i);
      }
      SelectIffOrdered(x, d, i);
      x := SelectWord(x, Bits(d), Bits(i));
    }

    method Remove(i: nat)
      requires Valid() && i < Abs(x).size
      modifies this
      ensures Valid() && Abs(x) == Dropped(old(Abs(x)), i)
    {
      DropRefines(x, i);
      DroppedOk(Abs(x), i);
      x := DropWord(x, Bits(i));
    }

    method Exchange(i: nat, j: nat)
      requires Valid() && i < WIDTH && j < WIDTH
      modifies this
      ensures Valid() && Abs(x) == Perm(old(Abs(x)).size, Swapped(old(Abs(x)).slots, i, j))
    {
      ExchangeRefines(x, i, j);
      SwappedOk(Abs(x), i, j);
      x := ExchangeWord(x, Bits(i), Bits(j));
    }

    method ExchangeValues(a: nat, b: nat)
      requires Valid() && a < WIDTH && b < WIDTH
      modifies this
      ensures Valid() && Abs(x).size == old(Abs(x)).size
      ensures forall j: nat :: j < WIDTH ==> Abs(x).slots[j] == Renamed(old(Abs(x)).slots[j], a, b)
    {
      hide Nib, Bits, Elem, ToNat, Gathered, Shifted, Abs, Flip;
      var w := x;
      var diff: bv64, p, i := 0, w, 0;
      GatherStart(w, a, b);
      while i < 15
        invariant i <= 15 && Gathered(w, diff, i, Bits(a), Bits(b)) && Shifted(w, p, i) && x == w
      {
        var v := (p >> 60) & 15;
        ShiftTop(w, p, i);
        GatherStep(w, diff, i, Bits(a), Bits(b));
        diff, p, i := (diff ^ Flip(v, Bits(a), Bits(b))) << 4, p << 4, i + 1;
      }
      ValuesRefine(w, diff, a, b);
      RenamedOk(Abs(w), Abs(w ^ diff), a, b);
      x := w ^ diff;
    }
  }
}
