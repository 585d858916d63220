/**
 * Statistics of a dataset: extremes, range (at least 1), average and the
 * "prime-adjusted length" that bumps a prime length above 20 by one so the
 * horizontal label count can be divided evenly.
 */
module GraphProperties {
  import opened Js
  import opened Numeric

  datatype GraphProperties = GraphProperties(
    max: int,
    min: int,
    range: int,
    average: real,
    primeAdjustedLength: nat)
  {
    /** What every constructed value satisfies. */
    predicate Valid() {
      && min <= max
      && range == Numeric.Max(max - min, 1)
      && min as real <= average <= max as real
      && primeAdjustedLength >= 1
    }
  }

  /** `Math.max(...s)` for a non-empty list. */
  function MaxOf(s: seq<int>): (m: int)
    requires |s| > 0
    ensures exists i :: 0 <= i < |s| && s[i] == m
    ensures forall i :: 0 <= i < |s| ==> s[i] <= m
  {
    if |s| == 1 then s[0]
    else
      var m := MaxOf(s[1..]);
      assert forall i :: 1 <= i < |s| ==> s[i] == s[1..][i - 1];
      if s[0] >= m then s[0] else m
  }

  /** `Math.min(...s)` for a non-empty list. */
  function MinOf(s: seq<int>): (m: int)
    requires |s| > 0
    ensures exists i :: 0 <= i < |s| && s[i] == m
    ensures forall i :: 0 <= i < |s| ==> m <= s[i]
  {
    if |s| == 1 then s[0]
    else
      var m := MinOf(s[1..]);
      assert forall i :: 1 <= i < |s| ==> s[i] == s[1..][i - 1];
      if s[0] <= m then s[0] else m
  }

  /** `s.reduce((acc, v) => acc + v, 0)`, accumulating from the left. */
  function Sum(s: seq<int>): int {
    if |s| == 0 then 0 else Sum(s[..|s| - 1]) + s[|s| - 1]
  }

  /** The sum lies between |s| copies of any lower bound and |s| copies of any upper bound. */
  lemma {:induction false} SumBetween(s: seq<int>, lo: int, hi: int)
    requires forall i :: 0 <= i < |s| ==> lo <= s[i] <= hi
    ensures |s| * lo <= Sum(s) <= |s| * hi
  {
    if |s| > 0 {
      var init := s[..|s| - 1];
      assert forall i :: 0 <= i < |init| ==> init[i] == s[i];
      SumBetween(init, lo, hi);
      assert |s| * lo == |init| * lo + lo;
      assert |s| * hi == |init| * hi + hi;
    }
  }

  function Average(s: seq<int>): real
    requires |s| > 0
  {
    Sum(s) as real / |s| as real
  }

  lemma QuotientBetween(total: int, n: int, lo: int, hi: int)
    requires n > 0 && n * lo <= total <= n * hi
    ensures lo as real <= total as real / n as real <= hi as real
  {
    var q := total as real / n as real;
    assert q * n as real == total as real;
  }

  /** min <= average <= max for every non-empty dataset. */
  lemma AverageBetweenExtremes(s: seq<int>)
    requires |s| > 0
    ensures MinOf(s) as real <= Average(s) <= MaxOf(s) as real
  {
    SumBetween(s, MinOf(s), MaxOf(s));
    QuotientBetween(Sum(s), |s|, MinOf(s), MaxOf(s));
  }

  // ---------------------------------------------------------------------------
  // Primality

  /** The mathematical definition. */
  predicate IsPrimeNumber(n: int) {
    n >= 2 && forall d :: 2 <= d < n ==> n % d != 0
  }

  /** d is one of i, i + 2, i + 4, … */
  predicate Steps(i: int, d: int) {
    i <= d && (d - i) % 2 == 0
  }

  /** No divisor among i, i + 2, i + 4, … while the candidate's square stays within n. */
  function NoOddDivisorFrom(n: nat, i: nat): bool
    requires i >= 1
    decreases n + 2 - i
  {
    if i * i > n then true
    else
      assert i <= i * i;
      n % i != 0 && NoOddDivisorFrom(n, i + 2)
  }

  /** What `isPrime` computes: 2 and 3, otherwise odd with no odd divisor up to the square root. */
  function TrialDivision(n: nat): bool {
    n == 2 || n == 3 || (n % 2 != 0 && NoOddDivisorFrom(n, 3))
  }

  lemma {:induction false} NoOddDivisorFromMeaning(n: nat, i: nat)
    requires i >= 1
    ensures NoOddDivisorFrom(n, i) <==> NoDivisorAmong(n, i)
    decreases n + 2 - i
  {
    if i * i > n {
      forall d | Steps(i, d)
        ensures d * d > n
      {
        SquareMonotone(i, d);
      }
    } else {
      NoOddDivisorStep(n, i);
      NoOddDivisorFromMeaning(n, i + 2);
      NoDivisorAmongStep(n, i);
    }
  }

  /** No divisor among i, i + 2, i + 4, … whose square stays within n. */
  ghost predicate NoDivisorAmong(n: nat, i: nat)
    requires i >= 1
  {
    forall d :: Steps(i, d) && d * d <= n ==> n % d != 0
  }

  /** The candidates from i are i itself and the candidates from i + 2. */
  lemma NoDivisorAmongStep(n: nat, i: nat)
    requires i >= 1 && i * i <= n
    ensures NoDivisorAmong(n, i) <==> n % i != 0 && NoDivisorAmong(n, i + 2)
  {
    if NoDivisorAmong(n, i) {
      assert Steps(i, i);
      forall d | Steps(i + 2, d) && d * d <= n
        ensures n % d != 0
      {
        StepsFromNext(i, d);
      }
    }
    if n % i != 0 && NoDivisorAmong(n, i + 2) {
      forall d | Steps(i, d) && d * d <= n
        ensures n % d != 0
      {
        if d != i {
          StepsToNext(i, d);
        }
      }
    }
  }

  lemma StepsFromNext(i: int, d: int)
    requires Steps(i + 2, d)
    ensures Steps(i, d)
  {
  }

  lemma StepsToNext(i: int, d: int)
    requires Steps(i, d) && d != i
    ensures Steps(i + 2, d)
  {
  }

  /** A number with a proper divisor has one whose square does not exceed it. */
  lemma SmallDivisor(n: nat, d: nat) returns (a: nat)
    requires 2 <= d < n && n % d == 0
    ensures 2 <= a && a * a <= n && n % a == 0
  {
    var e := n / d;
    assert n == d * e;
    assert e >= 2 by {
      if e <= 1 {
        MulMonotone(e, 1, d);
      }
    }
    if d <= e {
      MulMonotone(d, e, d);
      a := d;
    } else {
      MulMonotone(e, d, e);
      MulModZero(d, e);
      assert n == d * e;
      a := e;
    }
  }

  /** Trial division agrees with primality for every n except 1, which it also accepts. */
  lemma TrialDivisionIsPrimality(n: nat)
    ensures TrialDivision(n) <==> n == 1 || IsPrimeNumber(n)
  {
    if n == 2 || n == 3 {
      assert IsPrimeNumber(n);
    } else if n % 2 == 0 {
      if n >= 2 {
        assert n % 2 == 0;
      }
    } else if n == 1 {
      assert NoOddDivisorFrom(1, 3);
    } else {
      assert n >= 5;
      NoOddDivisorFromMeaning(n, 3);
      if !IsPrimeNumber(n) {
        var d :| 2 <= d < n && n % d == 0;
        var a := SmallDivisor(n, d);
        OddDivisorOfOdd(n, a);
        assert Steps(3, a);
      } else {
        forall d | Steps(3, d) && d * d <= n
          ensures n % d != 0
        {
          MulMonotone(2, d, d);
        }
      }
    }
  }

  /** An odd number has only odd divisors. */
  lemma OddDivisorOfOdd(n: int, a: int)
    requires a > 0 && n % a == 0
    ensures n % 2 == 1 ==> a % 2 == 1
  {
    if a % 2 == 0 {
      EvenDivisor(n, a);
    }
  }

  /** `isPrime`: early answers for 2, 3 and even numbers, then odd trial divisors i with i·i <= n. */
  method IsPrime(number: nat) returns (r: bool)
    ensures r == TrialDivision(number)
    ensures r <==> number == 1 || IsPrimeNumber(number)
  {
    TrialDivisionIsPrimality(number);
    if number == 2 || number == 3 {
      return true;
    }
    if number % 2 == 0 {
      return false;
    }
    var i := 3;
    while i * i <= number
      invariant i >= 3 && i % 2 == 1
      invariant NoOddDivisorFrom(number, 3) == NoOddDivisorFrom(number, i)
      decreases number + 2 - i
    {
      NoOddDivisorStep(number, i);
      if number % i == 0 {
        return false;
      }
      i := i + 2;
    }
    return true;
  }

  /** One unfolding of the trial-division recursion, for a candidate within the square root. */
  lemma NoOddDivisorStep(n: nat, i: nat)
    requires i >= 1 && i * i <= n
    ensures i <= n
    ensures NoOddDivisorFrom(n, i) == (n % i != 0 && NoOddDivisorFrom(n, i + 2))
  {
    MulMonotone(1, i, i);
  }

  // ---------------------------------------------------------------------------
  // Construction

  /** `#calculatePrimeAdjustedLength` */
  function PrimeAdjustedLength(length: nat): nat {
    if length < 20 then length
    else if length > 20 && TrialDivision(length) then length + 1
    else length
  }

  /** The adjusted length is the length, plus one exactly for a prime above 20. */
  lemma PrimeAdjustedLengthSpec(length: nat)
    ensures PrimeAdjustedLength(length) == length || PrimeAdjustedLength(length) == length + 1
    ensures PrimeAdjustedLength(length) == length + 1 <==> length > 20 && IsPrimeNumber(length)
    ensures PrimeAdjustedLength(length) >= length
  {
    TrialDivisionIsPrimality(length);
  }

  /** The examples in the class's own documentation and tests. */
  lemma PrimeAdjustedLengthFixtures()
    ensures PrimeAdjustedLength(3) == 3 && PrimeAdjustedLength(4) == 4
    ensures PrimeAdjustedLength(20) == 20 && PrimeAdjustedLength(21) == 21
    ensures PrimeAdjustedLength(22) == 22 && PrimeAdjustedLength(23) == 24
    ensures PrimeAdjustedLength(59) == 60
  {
    assert NoOddDivisorFrom(23, 3) by {
      assert NoOddDivisorFrom(23, 5);
    }
    assert NoOddDivisorFrom(59, 3) by {
      assert NoOddDivisorFrom(59, 9);
      assert NoOddDivisorFrom(59, 7);
      assert NoOddDivisorFrom(59, 5);
    }
  }

  /** The statistics of a non-empty list of numbers. */
  function Of(values: seq<int>): (g: GraphProperties)
    requires |values| > 0
    ensures g.Valid()
    ensures exists i :: 0 <= i < |values| && values[i] == g.max
    ensures exists i :: 0 <= i < |values| && values[i] == g.min
    ensures forall i :: 0 <= i < |values| ==> g.min <= values[i] <= g.max
    ensures g.range >= 1 && (g.max - g.min >= 1 ==> g.range == g.max - g.min)
    ensures g.average == Sum(values) as real / |values| as real
    ensures g.primeAdjustedLength == PrimeAdjustedLength(|values|)
  {
    AverageBetweenExtremes(values);
    var mx := MaxOf(values);
    var mn := MinOf(values);
    GraphProperties(mx, mn, Numeric.Max(mx - mn, 1), Average(values), PrimeAdjustedLength(|values|))
  }

  lemma StatisticsFixtures()
    ensures Of([1, 2, 3]) == GraphProperties(3, 1, 2, 2.0, 3)
    ensures Of([1, 2, 3, 4]).average == 2.5
    ensures Of([5, 5]).range == 1
  {
    assert [1, 2, 3][1..] == [2, 3];
    assert [2, 3][1..] == [3];
    assert [1, 2, 3, 4][1..] == [2, 3, 4];
    assert [2, 3, 4][1..] == [3, 4];
    assert [3, 4][1..] == [4];
    assert [5, 5][1..] == [5];
    assert [1, 2, 3][..2] == [1, 2];
    assert [1, 2][..1] == [1];
    assert [1][..0] == [];
    assert [1, 2, 3, 4][..3] == [1, 2, 3];
    assert [5, 5][..1] == [5];
    assert [5][..0] == [];
    assert Sum([1, 2, 3]) == 6;
    assert Sum([1, 2, 3, 4]) == 10;
  }

  /** Every element of a dataset is a number other than NaN. */
  predicate AllNumbers(elems: seq<JsValue>) {
    forall i :: 0 <= i < |elems| ==> elems[i].Num?
  }

  function Numbers(elems: seq<JsValue>): (values: seq<int>)
    requires AllNumbers(elems)
    ensures |values| == |elems|
    ensures forall i :: 0 <= i < |elems| ==> elems[i] == Num(values[i])
  {
    if |elems| == 0 then [] else [elems[0].n] + Numbers(elems[1..])
  }

  /** `new GraphProperties(dataset)`: `#validateDataset`, then the statistics. */
  function Create(dataset: JsValue): (r: Result<GraphProperties>)
    ensures r.Success? <==> dataset.Arr? && |dataset.elems| > 0 && AllNumbers(dataset.elems)
    ensures !dataset.Arr? ==> r == Failure(TypeError("The dataset must be an array."))
    ensures dataset.Arr? && |dataset.elems| == 0 ==> r == Failure(Error("The dataset must not be empty."))
    ensures dataset.Arr? && |dataset.elems| > 0 && !AllNumbers(dataset.elems) ==>
              r == Failure(TypeError("The dataset must only contain numbers."))
    ensures r.Success? ==> r.value.Valid() && r.value == Of(Numbers(dataset.elems))
  {
    if !dataset.Arr? then Failure(TypeError("The dataset must be an array."))
    else if |dataset.elems| == 0 then Failure(Error("The dataset must not be empty."))
    else if !AllNumbers(dataset.elems) then Failure(TypeError("The dataset must only contain numbers."))
    else Success(Of(Numbers(dataset.elems)))
  }
}
