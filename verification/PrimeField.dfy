/** Arithmetic modulo a prime group order.

    The ceremony works in the two source groups of a pairing of prime order. A group
    element is represented by its discrete logarithm, a number in `[0, p)`; the pairing is
    then multiplication, and "is the identity of the target group" is `IsZero`.

    Divisibility is hidden wherever only the laws below are needed, which keeps remainders
    and products of variables out of one proof. */
module PrimeField {

  ghost predicate Divides(d: nat, n: nat)
    requires d > 0
  {
    n % d == 0
  }

  ghost predicate IsPrime(p: nat) {
    p >= 2 && forall d | 2 <= d < p :: !Divides(d, p)
  }

  /** The order of the groups. */
  type Order = p: nat | p >= 2 && IsPrime(p) witness 2

  predicate IsZero(p: Order, x: int) {
    x % p == 0
  }

  /** The canonical representative of a scalar or of a discrete logarithm. */
  function Reduce(p: Order, x: int): (r: nat)
    ensures r < p && IsZero(p, r - x)
  {
    RemainderIsZero(p, x);
    x % p
  }

  /** Every entry is a canonical representative. */
  ghost predicate InRange(p: Order, xs: seq<nat>) {
    forall i | 0 <= i < |xs| :: xs[i] < p
  }

  /** Integer powers; `Reduce` of one is a power in the field. */
  function Pow(b: int, n: nat): int {
    if n == 0 then 1 else b * Pow(b, n - 1)
  }

  // ---- Laws of zero ----

  /** A nonzero multiple of the order is at least as far from zero as the order. */
  lemma MultipleBound(p: nat, k: int)
    ensures k >= 1 ==> k * p >= p
    ensures k <= -1 ==> k * p <= 0 - p
  {
    if k >= 1 {
      assert (k - 1) * p >= 0;
    } else if k <= -1 {
      assert (-1 - k) * p >= 0;
      assert (-1 - k) * p == 0 - p - k * p;
    }
  }

  lemma MultipleIsZero(p: Order, k: int)
    ensures IsZero(p, k * p)
  {
    var q, r := (k * p) / p, (k * p) % p;
    assert (k - q) * p == r;
    MultipleBound(p, k - q);
  }

  lemma RemainderIsZero(p: Order, x: int)
    ensures IsZero(p, x % p - x)
  {
    MultipleIsZero(p, -(x / p));
    assert x % p - x == -(x / p) * p;
  }

  lemma ZeroIsZero(p: Order)
    ensures IsZero(p, 0)
  {
    MultipleIsZero(p, 0);
  }

  lemma ZeroAdd(p: Order, x: int, y: int)
    requires IsZero(p, x) && IsZero(p, y)
    ensures IsZero(p, x + y) && IsZero(p, x - y)
  {
    var a, b := x / p, y / p;
    MultipleIsZero(p, a + b);
    MultipleIsZero(p, a - b);
    assert (a + b) * p == x + y;
    assert (a - b) * p == x - y;
  }

  lemma ZeroMul(p: Order, x: int, y: int)
    requires IsZero(p, x)
    ensures IsZero(p, x * y) && IsZero(p, y * x)
  {
    var a := x / p;
    MultipleIsZero(p, a * y);
    assert (a * y) * p == x * y by { assert x == a * p; }
  }

  lemma ZeroNegate(p: Order, x: int)
    requires IsZero(p, x)
    ensures IsZero(p, -x)
  {
    ZeroIsZero(p);
    ZeroAdd(p, 0, x);
  }

  /** Congruence is transitive. */
  lemma ZeroChain(p: Order, a: int, b: int, c: int)
    requires IsZero(p, a - b) && IsZero(p, b - c)
    ensures IsZero(p, a - c)
  {
    hide IsZero;
    ZeroAdd(p, a - b, b - c);
  }

  /** The product of congruent numbers is congruent. */
  lemma ZeroProduct(p: Order, a: int, a': int, b: int, b': int)
    requires IsZero(p, a - a') && IsZero(p, b - b')
    ensures IsZero(p, a * b - a' * b')
  {
    hide IsZero;
    ZeroMul(p, a - a', b);
    ZeroMul(p, b - b', a');
    ZeroAdd(p, (a - a') * b, (b - b') * a');
    assert (a - a') * b + (b - b') * a' == a * b - a' * b';
  }

  /** Congruent numbers are zero together. */
  lemma ZeroTransfer(p: Order, a: int, b: int)
    requires IsZero(p, a - b)
    ensures IsZero(p, a) <==> IsZero(p, b)
  {
    hide IsZero;
    if IsZero(p, a) {
      ZeroAdd(p, a, a - b);
    }
    if IsZero(p, b) {
      ZeroAdd(p, a - b, b);
    }
  }

  /** A canonical representative is determined by its class. */
  lemma CanonicalUnique(p: Order, a: nat, b: nat)
    requires a < p && b < p && IsZero(p, a - b)
    ensures a == b
  {
    var k := (a - b) / p;
    assert a - b == k * p;
    MultipleBound(p, k);
  }

  /** Congruent numbers have the same canonical representative. */
  lemma SameReduce(p: Order, a: int, b: int)
    requires IsZero(p, a - b)
    ensures Reduce(p, a) == Reduce(p, b)
  {
    hide IsZero;
    var r, s := Reduce(p, a), Reduce(p, b);
    ZeroChain(p, r, a, b);
    ZeroNegate(p, s - b);
    ZeroChain(p, r, b, s);
    CanonicalUnique(p, r, s);
  }

  lemma CanonicalReduce(p: Order, a: nat)
    requires a < p
    ensures Reduce(p, a) == a
  {
    hide IsZero;
    CanonicalUnique(p, Reduce(p, a), a);
  }

  lemma CanonicalNonzero(p: Order, a: nat)
    requires a < p
    ensures IsZero(p, a) <==> a == 0
  {
    hide IsZero;
    ZeroIsZero(p);
    if IsZero(p, a) {
      assert IsZero(p, a - 0);
      CanonicalUnique(p, a, 0);
    }
  }

  // ---- Congruence ----

  ghost predicate Congruent(p: Order, a: int, b: int) {
    IsZero(p, a - b)
  }

  lemma CongruentSelf(p: Order, a: int)
    ensures Congruent(p, a, a)
  {
    hide IsZero;
    ZeroIsZero(p);
  }

  lemma CongruentChain(p: Order, a: int, b: int, c: int)
    requires Congruent(p, a, b) && Congruent(p, b, c)
    ensures Congruent(p, a, c)
  {
    hide IsZero;
    ZeroChain(p, a, b, c);
  }

  lemma CongruentZero(p: Order, a: int, b: int)
    requires Congruent(p, a, b)
    ensures IsZero(p, a) <==> IsZero(p, b)
  {
    hide IsZero;
    ZeroTransfer(p, a, b);
  }

  lemma CongruentAdd(p: Order, a: int, b: int, c: int, d: int)
    requires Congruent(p, a, b) && Congruent(p, c, d)
    ensures Congruent(p, a + c, b + d)
  {
    hide IsZero;
    ZeroAdd(p, a - b, c - d);
    assert (a - b) + (c - d) == (a + c) - (b + d);
  }

  // ---- The field ----

  /** The inverse of a small nonzero number, by descent on remainders of the order. */
  function InverseOfSmall(p: Order, a: nat): (r: int)
    requires 0 < a < p
    ensures IsZero(p, a * r - 1)
  {
    if a == 1 then
      ZeroIsZero(p);
      1
    else
      assert IsPrime(p) && !Divides(a, p);
      var q, b := p / a, p % a;
      var c := InverseOfSmall(p, b);
      InverseStep(p, a, q, b, c);
      -q * c
  }

  lemma InverseStep(p: Order, a: int, q: int, b: int, c: int)
    requires p == q * a + b && IsZero(p, b * c - 1)
    ensures IsZero(p, a * (-q * c) - 1)
  {
    hide IsZero;
    MultipleIsZero(p, -c);
    ZeroAdd(p, b * c - 1, -c * p);
    calc {
      b * c - 1 + -c * p;
      b * c - 1 - c * (q * a + b);
      b * c - 1 - c * (q * a) - c * b;
      { assert c * b == b * c; }
      - c * (q * a) - 1;
      { assert c * (q * a) == a * (q * c); assert a * (-q * c) == -(a * (q * c)); }
      a * (-q * c) - 1;
    }
  }

  /** The canonical inverse of a number that is not zero in the field. */
  function Inverse(p: Order, a: int): (r: nat)
    requires !IsZero(p, a)
    ensures r < p && IsZero(p, a * r - 1)
  {
    NonzeroReduce(p, a);
    var s := InverseOfSmall(p, Reduce(p, a));
    InverseOfReduced(p, a, s);
    Reduce(p, s)
  }

  lemma NonzeroReduce(p: Order, a: int)
    ensures IsZero(p, a) <==> Reduce(p, a) == 0
  {
    hide IsZero;
    ZeroTransfer(p, Reduce(p, a), a);
    CanonicalNonzero(p, Reduce(p, a));
  }

  lemma InverseOfReduced(p: Order, a: int, s: int)
    requires IsZero(p, Reduce(p, a) * s - 1)
    ensures IsZero(p, a * Reduce(p, s) - 1)
  {
    hide IsZero;
    var b, t := Reduce(p, a), Reduce(p, s);
    ZeroNegate(p, b - a);
    ZeroProduct(p, a, b, t, s);
    ZeroChain(p, a * t, b * s, 1);
  }

  /** There are no zero divisors in the field. */
  lemma {:induction false} NoZeroDivisors(p: Order, x: int, y: int)
    requires IsZero(p, x * y)
    ensures IsZero(p, x) || IsZero(p, y)
  {
    hide IsZero;
    if !IsZero(p, x) {
      var r := Inverse(p, x);
      ZeroMul(p, x * y, r);
      ZeroMul(p, x * r - 1, y);
      ZeroAdd(p, (x * y) * r, (x * r - 1) * y);
      assert (x * y) * r - (x * r - 1) * y == y by {
        assert (x * y) * r == (x * r) * y;
      }
    }
  }

  /** A nonzero factor can be cancelled. */
  lemma Cancel(p: Order, x: int, a: int, b: int)
    requires !IsZero(p, x) && IsZero(p, x * a - x * b)
    ensures IsZero(p, a - b)
  {
    hide IsZero;
    assert x * a - x * b == x * (a - b);
    NoZeroDivisors(p, x, a - b);
  }

  lemma {:induction false} PowNonzero(p: Order, b: int, n: nat)
    requires !IsZero(p, b)
    ensures !IsZero(p, Pow(b, n))
  {
    hide IsZero;
    if n == 0 {
      CanonicalNonzero(p, 1);
    } else {
      PowNonzero(p, b, n - 1);
      if IsZero(p, Pow(b, n)) {
        NoZeroDivisors(p, b, Pow(b, n - 1));
      }
    }
  }

  /** Powers of congruent numbers are congruent. */
  lemma {:induction false} PowCongruent(p: Order, b: int, c: int, n: nat)
    requires IsZero(p, b - c)
    ensures IsZero(p, Pow(b, n) - Pow(c, n))
  {
    hide IsZero;
    if n == 0 {
      ZeroIsZero(p);
    } else {
      PowCongruent(p, b, c, n - 1);
      ZeroProduct(p, b, c, Pow(b, n - 1), Pow(c, n - 1));
    }
  }

  lemma Regroup(a: int, b: int, c: int, d: int)
    ensures (a * b) * (c * d) == (a * c) * (b * d)
  {
    calc {
      (a * b) * (c * d);
      a * (b * (c * d));
      a * (c * (b * d));
      (a * c) * (b * d);
    }
  }

  lemma {:induction false} PowOfProduct(b: int, c: int, n: nat)
    ensures Pow(b * c, n) == Pow(b, n) * Pow(c, n)
  {
    if n > 0 {
      PowOfProduct(b, c, n - 1);
      Regroup(b, c, Pow(b, n - 1), Pow(c, n - 1));
    }
  }
}
