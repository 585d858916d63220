/** `Math.floor`, `Math.ceil`, powers of two and a few facts about products and remainders. */
module Numeric {

  /** `Math.floor` */
  function Floor(x: real): (r: int)
    ensures r as real <= x < r as real + 1.0
  {
    x.Floor
  }

  /** `Math.ceil` */
  function Ceil(x: real): (r: int)
    ensures x <= r as real < x + 1.0
  {
    -((-x).Floor)
  }

  lemma FloorOfInt(i: int)
    ensures Floor(i as real) == i
  {
  }

  lemma CeilOfInt(i: int)
    ensures Ceil(i as real) == i
  {
  }

  function Pow2(k: nat): (r: nat)
    ensures r >= 1
  {
    if k == 0 then 1 else 2 * Pow2(k - 1)
  }

  function Max(a: int, b: int): (m: int)
    ensures m >= a && m >= b && (m == a || m == b)
  {
    if a >= b then a else b
  }

  lemma MulMonotone(a: int, b: int, c: int)
    requires 0 <= a <= b && 0 <= c
    ensures a * c <= b * c
  {
  }

  lemma SquareMonotone(a: int, b: int)
    requires 0 <= a <= b
    ensures a * a <= b * b
  {
    MulMonotone(a, b, a);
    MulMonotone(a, b, b);
  }

  lemma MulModZero(a: int, b: int)
    requires b > 0
    ensures (a * b) % b == 0
  {
    var q, r := (a * b) / b, (a * b) % b;
    assert a * b == b * q + r;
    assert r == b * (a - q);
    if a - q >= 1 {
      MulMonotone(1, a - q, b);
    } else if a - q <= -1 {
      MulMonotone(1, q - a, b);
    }
  }

  /** A multiple of an even number is even. */
  lemma EvenDivisor(n: int, a: int)
    requires a > 0 && n % a == 0 && a % 2 == 0
    ensures n % 2 == 0
  {
    var k := n / a;
    assert n == a * k;
    var h := a / 2;
    assert a == 2 * h;
    assert n == (h * k) * 2;
    MulModZero(h * k, 2);
  }

  /** Adding a whole number moves the floor by that number. */
  lemma FloorShift(x: real, n: int)
    ensures Floor(x + n as real) == Floor(x) + n
  {
    var f := Floor(x);
    assert (f + n) as real <= x + n as real < (f + n) as real + 1.0;
    FloorUnique(x + n as real, f + n);
  }

  lemma FloorUnique(x: real, k: int)
    requires k as real <= x < k as real + 1.0
    ensures Floor(x) == k
  {
  }

  lemma FloorMonotone(x: real, y: real)
    requires x <= y
    ensures Floor(x) <= Floor(y)
  {
  }

  /** The quotient of integer division is the one whole number of steps that fits. */
  lemma DivIsStepCount(a: nat, s: nat, j: nat)
    requires s >= 1 && j * s <= a < (j + 1) * s
    ensures a / s == j
  {
    var q := a / s;
    assert q * s <= a < (q + 1) * s;
    if q < j {
      MulMonotone(q + 1, j, s);
    } else if q > j {
      MulMonotone(j + 1, q, s);
    }
  }

  lemma DivStepBounds(a: nat, s: nat)
    requires s >= 1
    ensures (a / s) * s <= a < (a / s + 1) * s
  {
  }

  lemma DivBelow(a: real, b: real, c: real)
    requires b > 0.0 && a < c * b
    ensures a / b < c
  {
  }

  lemma DivAtMost(a: real, b: real, c: real)
    requires b > 0.0 && a <= c * b
    ensures a / b <= c
  {
  }

  lemma ScaleMonotone(x: real, y: real, h: real)
    requires x <= y && h >= 0.0
    ensures x * h <= y * h
  {
  }
}
