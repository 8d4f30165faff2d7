/**
 Bit masks as natural numbers: bit tests, updates and population counts. Shift drops the low bits, so
 that scanning a mask upwards is recursion on the number.
 */
module Bits {

  function Pow2(i: nat): (p: nat)
    ensures p > 0
  {
    if i == 0 then 1 else 2 * Pow2(i - 1)
  }

  lemma {:induction false} Pow2Monotone(a: nat, b: nat)
    requires a <= b
    ensures Pow2(a) <= Pow2(b)
  {
    if a < b {
      Pow2Monotone(a, b - 1);
    }
  }

  predicate Bit(m: nat, i: nat) {
    if i == 0 then m % 2 == 1 else Bit(m / 2, i - 1)
  }

  function PopCount(m: nat): nat {
    if m == 0 then 0 else m % 2 + PopCount(m / 2)
  }

  lemma {:induction false} PopZero(m: nat)
    ensures PopCount(m) == 0 <==> m == 0
  {
    if m > 0 {
      PopZero(m / 2);
    }
  }

  /** m | (1 << i) */
  function SetBit(m: nat, i: nat): nat {
    if i == 0 then m / 2 * 2 + 1 else m % 2 + 2 * SetBit(m / 2, i - 1)
  }

  /** m ^ (1 << i) */
  function ToggleBit(m: nat, i: nat): nat {
    if i == 0 then m / 2 * 2 + 1 - m % 2 else m % 2 + 2 * ToggleBit(m / 2, i - 1)
  }

  /** a | b */
  function Or(a: nat, b: nat): nat
    decreases a + b
  {
    if a == 0 then b else if b == 0 then a
    else (if a % 2 == 1 || b % 2 == 1 then 1 else 0) + 2 * Or(a / 2, b / 2)
  }

  /** m >> i */
  function Shift(m: nat, i: nat): nat {
    if i == 0 then m else Shift(m / 2, i - 1)
  }

  /** The number of set bits below position i: the rank of position i. */
  function Rank(m: nat, i: nat): nat {
    if i == 0 then 0 else Rank(m, i - 1) + (if Bit(m, i - 1) then 1 else 0)
  }

  lemma {:induction false} BitZero(i: nat)
    ensures !Bit(0, i)
  {
    if i > 0 {
      BitZero(i - 1);
    }
  }

  lemma {:induction false} BitSet(m: nat, i: nat, j: nat)
    ensures Bit(SetBit(m, i), j) <==> i == j || Bit(m, j)
  {
    if i == 0 {
      assert SetBit(m, 0) / 2 == m / 2;
    } else {
      assert SetBit(m, i) / 2 == SetBit(m / 2, i - 1) && SetBit(m, i) % 2 == m % 2;
      if j > 0 {
        BitSet(m / 2, i - 1, j - 1);
      }
    }
  }

  lemma {:induction false} PopSet(m: nat, i: nat)
    ensures PopCount(SetBit(m, i)) == PopCount(m) + (if Bit(m, i) then 0 else 1)
  {
    if i == 0 {
      assert SetBit(m, 0) / 2 == m / 2;
    } else {
      assert SetBit(m, i) / 2 == SetBit(m / 2, i - 1) && SetBit(m, i) % 2 == m % 2;
      PopSet(m / 2, i - 1);
    }
  }

  lemma {:induction false} BitToggle(m: nat, i: nat, j: nat)
    ensures Bit(ToggleBit(m, i), j) <==> if i == j then !Bit(m, j) else Bit(m, j)
  {
    if i == 0 {
      assert ToggleBit(m, 0) / 2 == m / 2 && ToggleBit(m, 0) % 2 == 1 - m % 2;
    } else {
      assert ToggleBit(m, i) / 2 == ToggleBit(m / 2, i - 1) && ToggleBit(m, i) % 2 == m % 2;
      if j > 0 {
        BitToggle(m / 2, i - 1, j - 1);
      }
    }
  }

  lemma {:induction false} PopToggle(m: nat, i: nat)
    ensures PopCount(ToggleBit(m, i)) == PopCount(m) + (if Bit(m, i) then -1 else 1)
  {
    if i == 0 {
      assert ToggleBit(m, 0) / 2 == m / 2 && ToggleBit(m, 0) % 2 == 1 - m % 2;
    } else {
      assert ToggleBit(m, i) / 2 == ToggleBit(m / 2, i - 1) && ToggleBit(m, i) % 2 == m % 2;
      PopToggle(m / 2, i - 1);
    }
  }

  lemma {:induction false} BitOr(a: nat, b: nat, i: nat)
    ensures Bit(Or(a, b), i) <==> Bit(a, i) || Bit(b, i)
    decreases i
  {
    BitZero(i);
    if a > 0 && b > 0 {
      assert Or(a, b) / 2 == Or(a / 2, b / 2);
      if i > 0 {
        BitOr(a / 2, b / 2, i - 1);
      }
    }
  }

  lemma {:induction false} ShiftStep(m: nat, i: nat)
    ensures Shift(m, i + 1) == Shift(m, i) / 2
    ensures Bit(m, i) <==> Shift(m, i) % 2 == 1
  {
    if i > 0 {
      ShiftStep(m / 2, i - 1);
    }
  }

  /** Set bits split at position i. */
  lemma {:induction false} PopSplit(m: nat, i: nat)
    ensures PopCount(m) == Rank(m, i) + PopCount(Shift(m, i))
  {
    if i > 0 {
      PopSplit(m, i - 1);
      ShiftStep(m, i - 1);
    }
  }

  lemma {:induction false} ShiftOut(m: nat, w: nat)
    requires m < Pow2(w)
    ensures Shift(m, w) == 0
  {
    if w > 0 {
      ShiftOut(m / 2, w - 1);
    }
  }

  /** A mask of w bits has all its set bits below w. */
  lemma {:induction false} RankAll(m: nat, w: nat)
    requires m < Pow2(w)
    ensures Rank(m, w) == PopCount(m)
  {
    PopSplit(m, w);
    ShiftOut(m, w);
  }

  lemma {:induction false} RankMonotone(m: nat, i: nat, j: nat)
    requires i <= j
    ensures Rank(m, i) <= Rank(m, j)
    ensures i < j && Bit(m, i) ==> Rank(m, i) < Rank(m, j)
  {
    if i < j {
      RankMonotone(m, i, j - 1);
    }
  }

  /** A set bit is determined by its rank. */
  lemma {:induction false} RankInjective(m: nat, i: nat, j: nat)
    requires Bit(m, i) && Bit(m, j) && Rank(m, i) == Rank(m, j)
    ensures i == j
  {
    if i < j {
      RankMonotone(m, i, j);
    } else {
      RankMonotone(m, j, i);
    }
  }

  /** Every rank below the population count is taken by a set bit below w. */
  lemma {:induction false} RankReached(m: nat, w: nat, r: nat) returns (i: nat)
    requires r < Rank(m, w)
    ensures i < w && Bit(m, i) && Rank(m, i) == r
  {
    if Bit(m, w - 1) && Rank(m, w - 1) == r {
      i := w - 1;
    } else {
      i := RankReached(m, w - 1, r);
    }
  }

  lemma {:induction false} SetBitBound(m: nat, i: nat, w: nat)
    requires m < Pow2(w) && i < w
    ensures SetBit(m, i) < Pow2(w)
  {
    if i > 0 {
      SetBitBound(m / 2, i - 1, w - 1);
    }
  }

  lemma {:induction false} OrBound(a: nat, b: nat, w: nat)
    requires a < Pow2(w) && b < Pow2(w)
    ensures Or(a, b) < Pow2(w)
  {
    if a > 0 && b > 0 {
      OrBound(a / 2, b / 2, w - 1);
    }
  }

  /** n ones from position lo upwards. */
  function Ones(lo: nat, n: nat): nat {
    if lo > 0 then 2 * Ones(lo - 1, n) else if n == 0 then 0 else 1 + 2 * Ones(0, n - 1)
  }

  lemma {:induction false} BitOnes(lo: nat, n: nat, j: nat)
    ensures Bit(Ones(lo, n), j) <==> lo <= j < lo + n
    decreases j
  {
    if lo > 0 {
      if j > 0 {
        BitOnes(lo - 1, n, j - 1);
      }
    } else if n == 0 {
      BitZero(j);
    } else if j > 0 {
      assert Ones(0, n) / 2 == Ones(0, n - 1);
      BitOnes(0, n - 1, j - 1);
    }
  }

  lemma {:induction false} PopOnes(lo: nat, n: nat)
    ensures PopCount(Ones(lo, n)) == n
  {
    if lo > 0 {
      PopOnes(lo - 1, n);
    } else if n > 0 {
      PopOnes(0, n - 1);
      assert Ones(0, n) / 2 == Ones(0, n - 1);
    }
  }

  /** Masks without a common bit: the union has as many bits as the two together. */
  lemma {:induction false} PopOr(a: nat, b: nat)
    requires forall i: nat :: !(Bit(a, i) && Bit(b, i))
    ensures PopCount(Or(a, b)) == PopCount(a) + PopCount(b)
    decreases a + b
  {
    if a > 0 && b > 0 {
      assert !(Bit(a, 0) && Bit(b, 0));
      forall i: nat ensures !(Bit(a / 2, i) && Bit(b / 2, i)) {
        assert !(Bit(a, i + 1) && Bit(b, i + 1));
      }
      PopOr(a / 2, b / 2);
      assert Or(a, b) / 2 == Or(a / 2, b / 2);
    }
  }

  lemma {:induction false} BitShift(m: nat, k: nat, i: nat)
    ensures Bit(Shift(m, k), i) <==> Bit(m, i + k)
  {
    if k > 0 {
      BitShift(m / 2, k - 1, i);
    }
  }

  ghost predicate Ahead(m: nat, i: nat) {
    exists j: nat :: i <= j && Bit(m, j)
  }

  /** A set bit lies at or above a position exactly if not all set bits lie below it. */
  lemma {:induction false} BitAhead(m: nat, i: nat)
    ensures Ahead(m, i) <==> Rank(m, i) < PopCount(m)
  {
    if Rank(m, i) < PopCount(m) {
      var j := NextBit(m, i);
    }
    if Ahead(m, i) {
      var j: nat :| i <= j && Bit(m, j);
      RankMonotone(m, i, j);
      RankBound(m, j + 1);
      assert Rank(m, j + 1) == Rank(m, j) + 1;
    }
  }

  /** The set bit a scan upwards from position i stops at. */
  lemma {:induction false} NextBit(m: nat, i: nat) returns (j: nat)
    requires Rank(m, i) < PopCount(m)
    ensures i <= j && Bit(m, j) && Rank(m, j) == Rank(m, i)
  {
    PopBound(m);
    RankAll(m, m);
    j := RankReached(m, m, Rank(m, i));
    if j < i {
      RankMonotone(m, j, i);
    }
  }

  lemma {:induction false} PopBound(m: nat)
    ensures m < Pow2(m)
  {
    if m > 0 {
      PopBound(m - 1);
    }
  }

  lemma {:induction false} RankBound(m: nat, i: nat)
    ensures Rank(m, i) <= PopCount(m)
  {
    PopSplit(m, i);
  }
}
