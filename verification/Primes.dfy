/**
 Prime enumeration by trial division with odd divisors up to the square root, the products i * i
 computed in a 32-bit int, and the list of primes extended only while SIGALRM is masked.
 */
module Primes {
  import opened Arithmetic

  const INT_MAX := 0x7fff_ffff
  const UINT_MAX := 0xffff_ffff

  ghost predicate Prime(n: int) {
    n >= 2 && forall d :: 2 <= d < n ==> n % d != 0
  }

  datatype Verdict = IsPrime | NotPrime | IntOverflow

  /** No odd number from 3 up to, but not including, bound divides n. */
  ghost predicate NoOddDivisorBelow(n: int, bound: int) {
    forall d :: 3 <= d < bound && d % 2 == 1 ==> n % d != 0
  }

  /** The numbers on which i * i overflows before the loop decides: 46339 is the largest odd i whose square is an int. */
  ghost predicate Overflows(n: int) {
    n >= 46339 * 46339 && n % 2 == 1 && NoOddDivisorBelow(n, 46341)
  }

  lemma DivisorPair(n: int, d: int) returns (e: int)
    requires 2 <= d < n && n % d == 0
    ensures d * e == n && 2 <= e < n
  {
    e := n / d;
    MulMonotone(d, e, 1);
    MulMonotone(e, 2, d);
  }

  lemma OddFactors(d: int, e: int)
    requires d >= 0 && (d * e) % 2 == 1
    ensures d % 2 == 1
  {
    var h, r := d / 2, d % 2;
    assert d * e == 2 * (h * e) + r * e;
  }

  lemma SmallerSquare(c: int, d: int, i: int)
    requires 0 < c <= d && c * d < i * i && i > 0
    ensures c < i
  {
    SquareMonotone(i, c);
    MulMonotone(c, c, d);
  }

  /** The smaller of two factors of an odd number is an odd divisor below the square root. */
  lemma SmallOddDivisor(n: int, i: int, d: int) returns (c: int)
    requires n % 2 == 1 && i >= 3 && i * i > n && 2 <= d < n && n % d == 0
    ensures 3 <= c < i && c % 2 == 1 && n % c == 0
  {
    var e := DivisorPair(n, d);
    c := if d <= e then d else e;
    var f := if d <= e then e else d;
    assert c * f == n;
    OddFactors(c, f);
    SmallerSquare(c, f, i);
    ExactDiv(c, f);
  }

  /** Odd divisors below the square root suffice for an odd number. */
  lemma TrialDivisionSuffices(n: int, i: int)
    requires n >= 3 && n % 2 == 1 && i >= 3 && i * i > n && NoOddDivisorBelow(n, i)
    ensures Prime(n)
  {
    forall d | 2 <= d < n ensures n % d != 0 {
      if n % d == 0 {
        var c := SmallOddDivisor(n, i, d);
      }
    }
  }

  /** is_prime: decides primality of every number on which i * i stays an int. */
  method IsPrimeTrial(num: nat) returns (v: Verdict)
    requires num <= UINT_MAX
    ensures v == IntOverflow <==> Overflows(num)
    ensures v != IntOverflow ==> (v == IsPrime <==> Prime(num))
  {
    if num < 2 {
      return NotPrime;
    } else if num == 2 {
      return IsPrime;
    } else if num % 2 == 0 {
      return NotPrime;
    }
    var i := 3;
    while true
      invariant 3 <= i <= 46341 && i % 2 == 1
      invariant i > 3 ==> (i - 2) * (i - 2) <= num
      invariant NoOddDivisorBelow(num, i)
      decreases 46341 - i
    {
      SquareIsInt(i);
      if i * i > INT_MAX {
        return IntOverflow;
      }
      if i * i > num {
        SquareMonotone(i, 46339);
        TrialDivisionSuffices(num, i);
        return IsPrime;
      }
      if num % i == 0 {
        DivisorIsProper(num, i);
        return NotPrime;
      }
      i := i + 2;
    }
  }

  /** Among the odd numbers tried, only the last has a square that is no int. */
  lemma SquareIsInt(i: int)
    requires 3 <= i <= 46341 && i % 2 == 1
    ensures i * i > INT_MAX <==> i == 46341
  {
    SquareMonotone(i, 46340);
  }

  lemma DivisorIsProper(n: int, i: int)
    requires 3 <= i && i * i <= n && n % i == 0
    ensures !Prime(n)
  {
    assert i < n by {
      assert i * i >= 3 * i;
    }
  }

  // ----- numbers the program cannot decide -----

  lemma Multiple(x: int, k: int, y: int, p: int)
    requires p > 0 && (x * y) % p == 0
    ensures ((p - k * x) * y) % p == 0
  {
    var q := (x * y) / p;
    assert x * y == p * q;
    assert (p - k * x) * y == p * y - k * (x * y) == p * (y - k * q) by {
      assert k * (x * y) == p * (k * q);
    }
    ExactDiv(p, y - k * q);
  }

  /** Euclid's lemma, for a factor smaller than the prime. */
  lemma {:induction false} Euclid(p: int, x: int, y: int)
    requires Prime(p) && 0 < x < p && (x * y) % p == 0
    ensures y % p == 0
    decreases x
  {
    if x > 1 {
      var k, r := p / x, p % x;
      assert r != 0 && r == p - k * x;
      Multiple(x, k, y, p);
      Euclid(p, r, y);
    }
  }

  /** The square of a prime has no smaller divisor than the prime. */
  lemma SquareOfPrime(p: int, d: int)
    requires Prime(p) && 2 <= d < p
    ensures (p * p) % d != 0
  {
    if (p * p) % d == 0 {
      var e := (p * p) / d;
      assert d * e == p * p;
      ExactDiv(p, p);
      Euclid(p, d, e);
      var f := e / p;
      assert e == p * f;
      assert d * e == p * (d * f);
      SameQuotient(p, d * f, p);
      ExactDiv(d, f);
      assert false;
    }
  }

  /** The square of any prime from 46341 on is composite, and overflows before a divisor is found. */
  lemma SquaresOverflow(p: int)
    requires Prime(p) && 46341 <= p <= 65535
    ensures Overflows(p * p) && p * p <= UINT_MAX && !Prime(p * p)
  {
    SquareMonotone(46339, p);
    SquareMonotone(p, 65535);
    forall d | 3 <= d < 46341 && d % 2 == 1 ensures (p * p) % d != 0 {
      SquareOfPrime(p, d);
    }
    SquareOfPrime(p, 2);
    ExactDiv(p, p);
    assert p < p * p;
  }

  predicate NoneOfEight(n: int, d: nat)
    requires d > 0
  {
    && n % d != 0 && n % (d + 2) != 0 && n % (d + 4) != 0 && n % (d + 6) != 0
    && n % (d + 8) != 0 && n % (d + 10) != 0 && n % (d + 12) != 0 && n % (d + 14) != 0
  }

  lemma EightMore(n: int, d: nat)
    requires d >= 3 && d % 2 == 1 && NoOddDivisorBelow(n, d) && NoneOfEight(n, d)
    ensures NoOddDivisorBelow(n, d + 16)
  {
    forall c | d <= c < d + 16 && c % 2 == 1 ensures n % c != 0 {
      assert c == d || c == d + 2 || c == d + 4 || c == d + 6 || c == d + 8 || c == d + 10 || c == d + 12 || c == d + 14;
    }
  }

  lemma NoneBelow83()
    ensures NoOddDivisorBelow(46349, 83)
  {
    EightMore(46349, 3);
    EightMore(46349, 19);
    EightMore(46349, 35);
    EightMore(46349, 51);
    EightMore(46349, 67);
  }

  lemma NoneBelow163()
    ensures NoOddDivisorBelow(46349, 163)
  {
    NoneBelow83();
    EightMore(46349, 83);
    EightMore(46349, 99);
    EightMore(46349, 115);
    EightMore(46349, 131);
    EightMore(46349, 147);
  }

  lemma Prime46349()
    ensures Prime(46349)
  {
    NoneBelow163();
    EightMore(46349, 163);
    EightMore(46349, 179);
    EightMore(46349, 195);
    EightMore(46349, 211);
    TrialDivisionSuffices(46349, 227);
  }

  /** There is a number on which the program overflows: 46349 * 46349. */
  lemma OverflowHappens()
    ensures Overflows(2148229801) && 2148229801 <= UINT_MAX && !Prime(2148229801)
  {
    Prime46349();
    SquaresOverflow(46349);
  }

  /** All primes below n, in increasing order. */
  ghost function PrimesBelow(n: nat): seq<int> {
    if n == 0 then [] else PrimesBelow(n - 1) + if Prime(n - 1) then [n - 1] else []
  }

  /** The list is strictly increasing and holds exactly the primes below n. */
  lemma {:induction false} PrimesBelowExact(n: nat)
    ensures forall j, k :: 0 <= j < k < |PrimesBelow(n)| ==> PrimesBelow(n)[j] < PrimesBelow(n)[k]
    ensures forall p :: p in PrimesBelow(n) <==> Prime(p) && p < n
  {
    if n > 0 {
      PrimesBelowExact(n - 1);
      var q := PrimesBelow(n - 1);
      if Prime(n - 1) {
        assert PrimesBelow(n) == q + [n - 1];
        assert forall k :: 0 <= k < |q| ==> q[k] in q;
      } else {
        assert PrimesBelow(n) == q;
      }
    }
  }

  /** The enumeration: what may be seen whenever SIGALRM is unmasked. */
  class Search {
    const primes: array<int>
    var numFound: nat
    var candidate: nat
    var stopped: bool     // is_prime overflowed, or the unsigned counter is about to wrap

    ghost predicate Valid()
      reads this, primes
    {
      && numFound <= primes.Length && candidate <= UINT_MAX
      && primes[..numFound] == PrimesBelow(candidate)
    }

    constructor (size: nat)
      ensures Valid() && candidate == 0 && !stopped && primes.Length == size && fresh(primes)
    {
      primes := new int[size];
      numFound, candidate, stopped := 0, 0, false;
    }

    /** The section between masking and unmasking the signal. */
    method TryNext()
      requires Valid() && numFound < primes.Length && !stopped
      modifies this, primes
      ensures Valid()
      ensures stopped ==> Overflows(old(candidate)) || old(candidate) == UINT_MAX
      ensures stopped ==> candidate == old(candidate) && numFound == old(numFound)
      ensures !stopped ==> candidate == old(candidate) + 1
    {
      var v := IsPrimeTrial(candidate);
      if v == IntOverflow || candidate == UINT_MAX {
        stopped := true;
        return;
      }
      ghost var before := primes[..numFound];
      if v == IsPrime {
        primes[numFound] := candidate;
        numFound := numFound + 1;
        assert primes[..numFound] == before + [candidate];
      }
      candidate := candidate + 1;
    }

    /** The whole loop; unless it stops early it fills the array with the first primes, in order and with none missing. */
    method Run()
      requires Valid() && !stopped
      modifies this, primes
      ensures Valid()
      ensures !stopped ==> numFound == primes.Length
    {
      while numFound < primes.Length && !stopped
        invariant Valid()
        decreases if stopped then 0 else 1 + UINT_MAX - candidate
      {
        TryNext();
      }
    }
  }
}
