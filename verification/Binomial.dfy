/**
 n_choose_k: a recursion whose every step divides, and must divide exactly. NChooseK is the recursion
 on unbounded integers, NChooseKInt the program on 32-bit ones.
 */
module Binomial {
  import opened Arithmetic

  /** C's integer division: truncates toward zero. */
  function TruncDiv(x: int, y: int): int
    requires y != 0
  {
    if x >= 0 then x / y else -((-x) / y)
  }

  /** The recursion of the program; a negative k never reaches its base case. */
  function NChooseK(a: int, b: nat): int
    decreases b
  {
    if b == 0 then 1 else TruncDiv(a * NChooseK(a - 1, b - 1), b)
  }

  lemma ExactTruncDiv(b: int, q: int)
    requires b > 0
    ensures TruncDiv(b * q, b) == q
  {
    ExactDiv(b, q);
    ExactDiv(b, -q);
    assert b * (-q) == -(b * q);
  }

  lemma NumeratorAlgebra(a: int, b: int, g: int, g': int, h: int)
    requires g == h + g' && (b - 1) * g == (a - 1) * h
    ensures a * g == (a - 1) * g' + b * g
  {
    assert (a - 1) * g' == (a - 1) * g - (a - 1) * h by {
      assert (a - 1) * (g - h) == (a - 1) * g - (a - 1) * h;
    }
    assert a * g == (a - 1) * g + g;
    assert b * g == (b - 1) * g + g;
  }

  /** Neighbouring numerators differ by the divisor times a coefficient. */
  lemma {:induction false} NumeratorStep(a: int, b: nat)
    requires b > 0
    ensures a * NChooseK(a - 1, b - 1) == (a - 1) * NChooseK(a - 2, b - 1) + b * NChooseK(a - 1, b - 1)
    decreases b, 1, 0
  {
    if b > 1 {
      PascalRule(a - 1, b - 1);
      Absorption(a - 1, b - 1);
      NumeratorAlgebra(a, b, NChooseK(a - 1, b - 1), NChooseK(a - 2, b - 1), NChooseK(a - 2, b - 2));
    }
  }

  lemma MulSum(b: int, p: int, q: int)
    ensures b * (p + q) == b * p + b * q
  {
  }

  /** The numerator of every division is a multiple of its divisor. */
  lemma {:induction false} Numerator(a: int, b: nat) returns (q: int)
    requires b > 0
    ensures a * NChooseK(a - 1, b - 1) == b * q
    decreases b, 2, if a < 0 then -a else a
  {
    if a == 0 {
      q := 0;
    } else if a > 0 {
      var p := Numerator(a - 1, b);
      NumeratorStep(a, b);
      q := p + NChooseK(a - 1, b - 1);
      MulSum(b, p, NChooseK(a - 1, b - 1));
    } else {
      var p := Numerator(a + 1, b);
      NumeratorStep(a + 1, b);
      q := p - NChooseK(a, b - 1);
      MulSum(b, q, NChooseK(a, b - 1));
    }
  }

  /** Every division in the recursion is exact, for every integer a and natural b. */
  lemma DivisionIsExact(a: int, b: nat)
    requires b > 0
    ensures (a * NChooseK(a - 1, b - 1)) % b == 0
  {
    var q := Numerator(a, b);
    ExactDiv(b, q);
  }

  /** Nothing is lost to rounding: multiplying back gives the numerator. */
  lemma {:induction false} Absorption(a: int, b: nat)
    requires b > 0
    ensures b * NChooseK(a, b) == a * NChooseK(a - 1, b - 1)
    decreases b, 3, 0
  {
    var q := Numerator(a, b);
    ExactTruncDiv(b, q);
    assert NChooseK(a, b) == TruncDiv(b * q, b);
  }

  /** Pascal's rule, for every integer a. */
  lemma {:induction false} PascalRule(a: int, b: nat)
    requires b > 0
    ensures NChooseK(a, b) == NChooseK(a - 1, b - 1) + NChooseK(a - 1, b)
    decreases b, 4, 0
  {
    Absorption(a, b);
    Absorption(a - 1, b);
    NumeratorStep(a, b);
    MulSum(b, NChooseK(a - 1, b - 1), NChooseK(a - 1, b));
    SameQuotient(b, NChooseK(a, b), NChooseK(a - 1, b - 1) + NChooseK(a - 1, b));
  }

  /** Pascal's triangle. */
  function Pascal(a: nat, b: nat): nat {
    if b == 0 then 1 else if a == 0 then 0 else Pascal(a - 1, b - 1) + Pascal(a - 1, b)
  }

  lemma {:induction false} PascalAbove(a: nat, b: nat)
    requires b > a
    ensures Pascal(a, b) == 0
  {
    if a > 0 {
      PascalAbove(a - 1, b - 1);
      PascalAbove(a - 1, b);
    }
  }

  /** The program computes the binomial coefficient, and 0 when k exceeds n. */
  lemma {:induction false} IsBinomial(a: nat, b: nat)
    ensures NChooseK(a, b) == Pascal(a, b)
    ensures b > a ==> NChooseK(a, b) == 0
  {
    if b > 0 && a > 0 {
      PascalRule(a, b);
      IsBinomial(a - 1, b - 1);
      IsBinomial(a - 1, b);
    } else if b > 0 {
      ExactTruncDiv(b, 0);
    }
    if b > a {
      PascalAbove(a, b);
    }
  }

  // ----- exactly when the products stay ints -----

  const INT_MAX := 0x7fff_ffff

  predicate Fits(x: int) {
    -INT_MAX - 1 <= x <= INT_MAX
  }

  /** Every product that the recursion forms is an int. */
  predicate ProductsFit(a: int, b: nat)
    decreases b
  {
    b == 0 || (ProductsFit(a - 1, b - 1) && Fits(a * NChooseK(a - 1, b - 1)))
  }

  lemma ProductIs(a: nat, b: nat)
    requires 0 < b
    ensures a * NChooseK(a - 1, b - 1) == b * Pascal(a, b)
  {
    Absorption(a, b);
    IsBinomial(a, b);
  }

  /** Up to the diagonal the last product is the largest. */
  lemma {:induction false} FitsBelow(a: nat, b: nat)
    requires b <= a
    ensures ProductsFit(a, b) <==> b * Pascal(a, b) <= INT_MAX
  {
    if b > 0 {
      FitsBelow(a - 1, b - 1);
      ProductIs(a, b);
      MulMonotone(b - 1, Pascal(a - 1, b - 1), Pascal(a, b));
      assert b * Pascal(a, b) == (b - 1) * Pascal(a, b) + Pascal(a, b);
    }
  }

  /** Above it every product is 0 until the first argument has become negative. */
  lemma {:induction false} FitsAbove(a: nat, b: nat)
    requires b > a
    ensures ProductsFit(a, b) <==> ProductsFit(-1, b - a - 1)
  {
    if a > 0 {
      IsBinomial(a - 1, b - 1);
      FitsAbove(a - 1, b - 1);
    }
  }

  lemma Difference(x: int, y: int, p: int)
    ensures x * p - y * p == (x - y) * p
  {
  }

  lemma NextInRow(n: nat, k: nat)
    requires 0 < k <= n
    ensures k * Pascal(n, k) == (n - k + 1) * Pascal(n, k - 1)
  {
    hide NChooseK, Pascal;
    NumeratorStep(n + 1, k);
    Absorption(n, k);
    IsBinomial(n, k);
    IsBinomial(n, k - 1);
    Difference(n + 1, k, Pascal(n, k - 1));
  }

  function Sign(k: nat): int {
    if k % 2 == 0 then 1 else -1
  }

  lemma SignStep(k: nat, j: int, p: int, q: int)
    requires k > 0 && k * q == j * p
    ensures k * (Sign(k) * q) == Sign(k) * (k * q) == -j * (Sign(k - 1) * p)
  {
    assert Sign(k) == -Sign(k - 1);
  }

  /** On a negative first argument the results alternate between the two signs. */
  lemma {:induction false} NegativeIs(j: int, k: nat)
    requires j >= 1
    ensures NChooseK(-j, k) == Sign(k) * Pascal(j + k - 1, k)
    decreases k
  {
    if k > 0 {
      hide NChooseK, Pascal, Sign;
      NegativeIs(j + 1, k - 1);
      NextInRow(j + k - 1, k);
      Absorption(-j, k);
      SignStep(k, j, Pascal(j + k - 1, k - 1), Pascal(j + k - 1, k));
      SameQuotient(k, NChooseK(-j, k), Sign(k) * Pascal(j + k - 1, k));
    }
  }

  lemma NegativeProduct(j: int, k: nat)
    requires j >= 1 && k >= 1
    ensures -j * NChooseK(-j - 1, k - 1) == Sign(k) * (k * Pascal(j + k - 1, k))
  {
    hide NChooseK, Pascal, Sign;
    Absorption(-j, k);
    NegativeIs(j, k);
    NextInRow(j + k - 1, k);
    SignStep(k, j, Pascal(j + k - 1, k - 1), Pascal(j + k - 1, k));
  }

  lemma {:induction false} FitsFurtherDown(j: int, k: nat, i: nat)
    requires i <= k && ProductsFit(-j, k)
    ensures ProductsFit(-(j + k - i), i)
    decreases k
  {
    if i < k {
      hide NChooseK;
      FitsFurtherDown(j + 1, k - 1, i);
    }
  }

  function Pow2(n: nat): nat {
    if n == 0 then 1 else 2 * Pow2(n - 1)
  }

  lemma FirstInRow(n: nat)
    ensures Pascal(n, 0) == 1
  {
  }

  lemma Row8(k: nat)
    ensures Pascal(8, k) <= 70
  {
    hide Pascal;
    if k > 8 {
      PascalAbove(8, k);
    } else {
      FirstInRow(8);
      NextInRow(8, 1);
      NextInRow(8, 2);
      NextInRow(8, 3);
      NextInRow(8, 4);
      NextInRow(8, 5);
      NextInRow(8, 6);
      NextInRow(8, 7);
      NextInRow(8, 8);
    }
  }

  /** A row is at most twice the one before it. */
  lemma {:induction false} RowBound(n: nat, k: nat)
    requires n >= 8
    ensures Pascal(n, k) <= 70 * Pow2(n - 8)
  {
    if n == 8 {
      Row8(k);
    } else if k > 0 {
      RowBound(n - 1, k - 1);
      RowBound(n - 1, k);
    } else {
      RowBound(n - 1, 0);
    }
  }

  lemma {:induction false} ColumnGrows(n: nat, m: nat, k: nat)
    requires n <= m
    ensures Pascal(n, k) <= Pascal(m, k)
    decreases m
  {
    if n < m {
      ColumnGrows(n, m - 1, k);
    }
  }

  lemma Row28(k: nat)
    ensures Pascal(28, k) <= 70 * 1048576
  {
    hide Pascal;
    RowBound(28, k);
    assert Pow2(2) == 4 && Pow2(4) == 16 && Pow2(6) == 64 && Pow2(8) == 256 && Pow2(10) == 1024;
    assert Pow2(12) == 4096 && Pow2(14) == 16384 && Pow2(16) == 65536 && Pow2(18) == 262144 && Pow2(20) == 1048576;
  }

  lemma SmallProduct(n: nat, k: nat)
    requires 1 <= k && 1 <= n <= 29
    ensures 0 <= k * Pascal(n, k) <= INT_MAX
  {
    hide NChooseK, Pascal;
    ProductIs(n, k);
    IsBinomial(n - 1, k - 1);
    ColumnGrows(n - 1, 28, k - 1);
    Row28(k - 1);
    MulMonotone(n, Pascal(n - 1, k - 1), 70 * 1048576);
  }

  lemma SignFits(k: nat, x: int)
    requires 0 <= x <= INT_MAX
    ensures Fits(Sign(k) * x)
  {
  }

  lemma {:induction false} SmallFits(j: int, k: nat)
    requires j >= 1 && j + k <= 30
    ensures ProductsFit(-j, k)
    decreases k
  {
    if k > 0 {
      hide NChooseK, Pascal, Sign, Fits;
      SmallFits(j + 1, k - 1);
      NegativeProduct(j, k);
      SmallProduct(j + k - 1, k);
      SignFits(k, k * Pascal(j + k - 1, k));
    }
  }

  lemma Climb(a: nat, b: nat, v: int)
    requires 0 < b <= a && b * v == a * Pascal(a - 1, b - 1)
    ensures Pascal(a, b) == v
  {
    hide NChooseK, Pascal;
    ProductIs(a, b);
    IsBinomial(a - 1, b - 1);
    SameQuotient(b, Pascal(a, b), v);
  }

  lemma Middle30()
    ensures Pascal(30, 15) == 155117520
  {
    hide Pascal;
    FirstInRow(15);
    Climb(16, 1, 16);
    Climb(17, 2, 136);
    Climb(18, 3, 816);
    Climb(19, 4, 3876);
    Climb(20, 5, 15504);
    Climb(21, 6, 54264);
    Climb(22, 7, 170544);
    Climb(23, 8, 490314);
    Climb(24, 9, 1307504);
    Climb(25, 10, 3268760);
    Climb(26, 11, 7726160);
    Climb(27, 12, 17383860);
    Climb(28, 13, 37442160);
    Climb(29, 14, 77558760);
    Climb(30, 15, 155117520);
  }

  /** The 16th product from the end is positive, and no int from row 30 on. */
  lemma LargeProduct(m: nat)
    requires m >= 30
    ensures 16 * Pascal(m, 16) > INT_MAX
  {
    hide Pascal;
    Middle30();
    NextInRow(30, 16);
    ColumnGrows(30, m, 16);
  }

  lemma LargeOverflows(m: nat)
    requires m >= 30
    ensures !ProductsFit(-1, m)
  {
    hide NChooseK, Pascal;
    LargeProduct(m);
    NegativeProduct(m - 15, 16);
    if ProductsFit(-1, m) {
      FitsFurtherDown(1, m, 16);
    }
  }

  /**
   For all naturals, exactly when no int overflows: up to the diagonal when k times the result is an
   int, and above it, where the result is 0, when k exceeds n by at most 30.
   */
  lemma OverflowsExactly(a: nat, b: nat)
    ensures ProductsFit(a, b) <==> if b <= a then b * Pascal(a, b) <= INT_MAX else b - a <= 30
  {
    if b <= a {
      FitsBelow(a, b);
    } else {
      FitsAbove(a, b);
      if b - a <= 30 {
        SmallFits(1, b - a - 1);
      } else {
        LargeOverflows(b - a - 1);
      }
    }
  }

  // ----- the program on ints -----

  datatype Result = Overflow | Value(value: int)

  function NChooseKInt(a: int, b: nat): Result
    decreases b
  {
    if b == 0 then Value(1)
    else
      match NChooseKInt(a - 1, b - 1)
      case Overflow => Overflow
      case Value(v) => if Fits(a * v) then Value(TruncDiv(a * v, b)) else Overflow
  }

  lemma {:induction false} IntIs(a: int, b: nat)
    ensures NChooseKInt(a, b) == if ProductsFit(a, b) then Value(NChooseK(a, b)) else Overflow
    decreases b
  {
    if b > 0 {
      IntIs(a - 1, b - 1);
    }
  }

  /** On ints, for all naturals: the binomial coefficient, or an overflow, and exactly when which. */
  lemma ComputesExactly(a: nat, b: nat)
    ensures NChooseKInt(a, b) == if (if b <= a then b * Pascal(a, b) <= INT_MAX else b - a <= 30) then Value(Pascal(a, b)) else Overflow
  {
    hide NChooseK, Pascal, ProductsFit, NChooseKInt;
    IntIs(a, b);
    OverflowsExactly(a, b);
    IsBinomial(a, b);
  }

  /** The results 155117520 and 0 are ints, and still the products on the way to them overflow. */
  lemma OverflowOnSmallResults()
    ensures Pascal(30, 15) == 155117520 && NChooseKInt(30, 15) == Overflow
    ensures Pascal(0, 31) == 0 && NChooseKInt(0, 31) == Overflow
  {
    hide NChooseK, Pascal, ProductsFit, NChooseKInt;
    Middle30();
    PascalAbove(0, 31);
    ComputesExactly(30, 15);
    ComputesExactly(0, 31);
  }
}
