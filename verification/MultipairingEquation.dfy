/** Multipairing equations and their batching by random linear combination. */
module MultipairingEquations {
  import opened PrimeField

  /** A product of pairings, claimed to be the identity. */
  datatype Equation = Equation(g1s: seq<nat>, g2s: seq<nat>)

  ghost predicate Balanced(eq: Equation) {
    |eq.g1s| == |eq.g2s|
  }

  function Dot(xs: seq<int>, ys: seq<int>): int
    requires |xs| == |ys|
  {
    if xs == [] then 0 else xs[0] * ys[0] + Dot(xs[1..], ys[1..])
  }

  /** The discrete logarithm of the product of the pairings. */
  function Value(eq: Equation): int
    requires Balanced(eq)
  {
    Dot(eq.g1s, eq.g2s)
  }

  predicate EqualsZero(p: Order, eq: Equation)
    requires Balanced(eq)
  {
    IsZero(p, Value(eq))
  }

  /** The negation of a group element. */
  function Negate(p: Order, x: nat): (r: nat)
    ensures r < p && IsZero(p, r + x)
  {
    Reduce(p, 0 - x)
  }

  /** A group element times a scalar. */
  function Times(p: Order, x: nat, s: int): (r: nat)
    ensures r < p && IsZero(p, r - x * s)
  {
    Reduce(p, x * s)
  }

  // ---- Dot products ----

  lemma {:induction false} DotAppend(xs: seq<int>, xs': seq<int>, ys: seq<int>, ys': seq<int>)
    requires |xs| == |ys| && |xs'| == |ys'|
    ensures Dot(xs + xs', ys + ys') == Dot(xs, ys) + Dot(xs', ys')
  {
    if xs == [] {
      assert xs + xs' == xs' && ys + ys' == ys';
    } else {
      DotAppend(xs[1..], xs', ys[1..], ys');
      assert (xs + xs')[1..] == xs[1..] + xs' && (ys + ys')[1..] == ys[1..] + ys';
    }
  }

  lemma {:induction false} DotCongruent(p: Order, xs: seq<int>, xs': seq<int>, ys: seq<int>)
    requires |xs| == |xs'| == |ys|
    requires forall i | 0 <= i < |xs| :: Congruent(p, xs[i], xs'[i])
    ensures Congruent(p, Dot(xs, ys), Dot(xs', ys))
  {
    hide IsZero, Congruent;
    if xs == [] {
      CongruentSelf(p, 0);
    } else {
      DotCongruent(p, xs[1..], xs'[1..], ys[1..]);
      CongruentTimes(p, xs[0], xs'[0], ys[0]);
      CongruentAdd(p, xs[0] * ys[0], xs'[0] * ys[0], Dot(xs[1..], ys[1..]), Dot(xs'[1..], ys[1..]));
    }
  }

  lemma CongruentTimes(p: Order, x: int, x': int, y: int)
    requires Congruent(p, x, x')
    ensures Congruent(p, x * y, x' * y)
  {
    hide IsZero;
    ZeroMul(p, x - x', y);
    assert (x - x') * y == x * y - x' * y;
  }

  lemma DotStep(xs: seq<int>, ys: seq<int>)
    requires |xs| == |ys| > 0
    ensures Dot(xs, ys) == xs[0] * ys[0] + Dot(xs[1..], ys[1..])
  {
  }

  ghost function Scaled(xs: seq<int>, s: int): (r: seq<int>)
    ensures |r| == |xs| && forall i | 0 <= i < |xs| :: r[i] == xs[i] * s
  {
    seq(|xs|, i requires 0 <= i < |xs| => xs[i] * s)
  }

  lemma {:induction false} DotScaled(xs: seq<int>, ys: seq<int>, s: int)
    requires |xs| == |ys|
    ensures Dot(Scaled(xs, s), ys) == s * Dot(xs, ys)
  {
    if xs != [] {
      var x, y, rest := xs[0], ys[0], Dot(xs[1..], ys[1..]);
      DotScaled(xs[1..], ys[1..], s);
      assert Scaled(xs, s)[1..] == Scaled(xs[1..], s);
      assert (x * s) * y + s * rest == s * (x * y + rest);
    }
  }

  /** The dot product with a vector of zeros of the field. */
  lemma {:induction false} DotZeros(p: Order, xs: seq<int>, ys: seq<int>)
    requires |xs| == |ys|
    requires forall i | 0 <= i < |xs| :: IsZero(p, xs[i])
    ensures IsZero(p, Dot(xs, ys))
  {
    hide IsZero;
    if xs == [] {
      ZeroIsZero(p);
    } else {
      DotZeros(p, xs[1..], ys[1..]);
      ZeroMul(p, xs[0], ys[0]);
      ZeroAdd(p, xs[0] * ys[0], Dot(xs[1..], ys[1..]));
    }
  }

  lemma {:induction false} DotSymmetric(xs: seq<int>, ys: seq<int>)
    requires |xs| == |ys|
    ensures Dot(xs, ys) == Dot(ys, xs)
  {
    if xs != [] {
      DotSymmetric(xs[1..], ys[1..]);
    }
  }

  // ---- Building equations ----

  function Simple(g1s: seq<nat>, g2s: seq<nat>): Equation {
    Equation(g1s, g2s)
  }

  function Column(g1s: seq<seq<nat>>, i: nat): (c: seq<nat>)
    requires forall row | row in g1s :: i < |row|
    ensures |c| == |g1s|
  {
    seq(|g1s|, j requires 0 <= j < |g1s| => g1s[j][i])
  }

  /** Equations with the same second halves, batched by a challenge into one. */
  function WithSharedG2s(p: Order, challenge: seq<nat>, g1s: seq<seq<nat>>, sharedG2s: seq<nat>): (eq: Equation)
    requires g1s != [] && |challenge| == |g1s|
    requires forall row | row in g1s :: |row| == |g1s[0]|
    requires |sharedG2s| == |g1s[0]|
    ensures Balanced(eq)
  {
    Equation(
      seq(|g1s[0]|, i requires 0 <= i < |g1s[0]| => Reduce(p, Dot(Column(g1s, i), challenge))),
      sharedG2s)
  }

  function ScalarMul(p: Order, eq: Equation, scalar: nat): (r: Equation)
    ensures Balanced(eq) ==> Balanced(r)
  {
    Equation(seq(|eq.g1s|, i requires 0 <= i < |eq.g1s| => Times(p, eq.g1s[i], scalar)), eq.g2s)
  }

  function Combine(p: Order, eq: Equation, other: Equation, scalar: nat): (r: Equation)
    ensures Balanced(eq) && Balanced(other) ==> Balanced(r)
  {
    var scaled := ScalarMul(p, other, scalar);
    Equation(eq.g1s + scaled.g1s, eq.g2s + scaled.g2s)
  }

  /** What `compact` builds once its scalars are drawn. */
  function CompactWith(p: Order, eqs: seq<Equation>, scalars: seq<nat>): (r: Equation)
    requires |scalars| == |eqs|
    ensures (forall eq | eq in eqs :: Balanced(eq)) ==> Balanced(r)
  {
    if eqs == [] then Equation([], [])
    else
      var first := ScalarMul(p, eqs[0], scalars[0]);
      var rest := CompactWith(p, eqs[1..], scalars[1..]);
      Equation(first.g1s + rest.g1s, first.g2s + rest.g2s)
  }

  /** The source of randomness: the next draws of a tape. */
  class Rng {
    const tape: seq<nat>
    var pos: nat

    constructor (tape: seq<nat>)
      ensures this.tape == tape && pos == 0
    {
      this.tape := tape;
      pos := 0;
    }

    method Rand() returns (x: nat)
      requires pos < |tape|
      modifies this
      ensures x == tape[old(pos)] && pos == old(pos) + 1
    {
      x := tape[pos];
      pos := pos + 1;
    }
  }

  /** `compact`: draw one scalar an equation, then scale and concatenate. */
  method Compact(p: Order, eqs: seq<Equation>, rng: Rng) returns (r: Equation)
    requires rng.pos + |eqs| <= |rng.tape|
    modifies rng
    ensures rng.pos == old(rng.pos) + |eqs|
    ensures r == CompactWith(p, eqs, rng.tape[old(rng.pos)..rng.pos])
  {
    var scalars: seq<nat> := [];
    for i := 0 to |eqs|
      invariant rng.pos == old(rng.pos) + i
      invariant scalars == rng.tape[old(rng.pos)..rng.pos]
    {
      var s := rng.Rand();
      scalars := scalars + [s];
    }
    r := CompactWith(p, eqs, scalars);
  }

  // ---- What batching does to values ----

  lemma ScalarMulValue(p: Order, eq: Equation, s: nat)
    requires Balanced(eq)
    ensures Congruent(p, Value(ScalarMul(p, eq, s)), s * Value(eq))
  {
    hide IsZero, Dot;
    DotCongruent(p, ScalarMul(p, eq, s).g1s, Scaled(eq.g1s, s), eq.g2s);
    DotScaled(eq.g1s, eq.g2s, s);
  }

  /** A value plus a scaled second value. */
  function Accumulate(a: int, s: int, b: int): int {
    a + s * b
  }

  /** `combine` adds a scaled copy of the other equation. */
  lemma CombineValue(p: Order, eq: Equation, other: Equation, s: nat)
    requires Balanced(eq) && Balanced(other)
    ensures Congruent(p, Value(Combine(p, eq, other, s)), Accumulate(Value(eq), s, Value(other)))
  {
    hide IsZero, Dot;
    var scaled := ScalarMul(p, other, s);
    DotAppend(eq.g1s, scaled.g1s, eq.g2s, scaled.g2s);
    ScalarMulValue(p, other, s);
    CongruentSelf(p, Value(eq));
    CongruentAdd(p, Value(eq), Value(eq), Value(scaled), s * Value(other));
  }

  /** Accumulating congruent values gives congruent values. */
  lemma AccumulateCongruent(p: Order, a: int, a': int, s: int, b: int, b': int)
    requires Congruent(p, a, a') && Congruent(p, b, b')
    ensures Congruent(p, Accumulate(a, s, b), Accumulate(a', s, b'))
  {
    hide IsZero;
    CongruentTimes(p, b, b', s);
    assert b * s == s * b && b' * s == s * b';
    CongruentAdd(p, a, a', b * s, b' * s);
  }

  ghost function Values(eqs: seq<Equation>): (vs: seq<int>)
    requires forall eq | eq in eqs :: Balanced(eq)
    ensures |vs| == |eqs|
  {
    seq(|eqs|, i requires 0 <= i < |eqs| => Value(eqs[i]))
  }

  lemma CompactStep(p: Order, eqs: seq<Equation>, scalars: seq<nat>)
    requires |scalars| == |eqs| > 0
    requires forall eq | eq in eqs :: Balanced(eq)
    ensures Value(CompactWith(p, eqs, scalars))
         == Value(ScalarMul(p, eqs[0], scalars[0])) + Value(CompactWith(p, eqs[1..], scalars[1..]))
  {
    var first, rest := ScalarMul(p, eqs[0], scalars[0]), CompactWith(p, eqs[1..], scalars[1..]);
    hide Dot;
    DotAppend(first.g1s, rest.g1s, first.g2s, rest.g2s);
  }

  ghost function Term(eq: Equation, s: nat): int
    requires Balanced(eq)
  {
    Value(eq) * s
  }

  lemma ValuesStep(p: Order, eqs: seq<Equation>, scalars: seq<nat>)
    requires |scalars| == |eqs| > 0
    requires forall eq | eq in eqs :: Balanced(eq)
    ensures Dot(Values(eqs), scalars) == Term(eqs[0], scalars[0]) + Dot(Values(eqs[1..]), scalars[1..])
    ensures Congruent(p, Value(ScalarMul(p, eqs[0], scalars[0])), Term(eqs[0], scalars[0]))
  {
    hide Dot, IsZero;
    assert Values(eqs)[1..] == Values(eqs[1..]);
    DotStep(Values(eqs), scalars);
    ScalarMulValue(p, eqs[0], scalars[0]);
    assert scalars[0] * Value(eqs[0]) == Value(eqs[0]) * scalars[0];
  }

  lemma CompactOfNone(p: Order)
    ensures Congruent(p, Value(CompactWith(p, [], [])), Dot(Values([]), []))
  {
    CongruentSelf(p, 0);
  }

  /** `compact` evaluates to the random linear combination of the equations. */
  lemma {:induction false} CompactValue(p: Order, eqs: seq<Equation>, scalars: seq<nat>)
    requires |scalars| == |eqs|
    requires forall eq | eq in eqs :: Balanced(eq)
    ensures Congruent(p, Value(CompactWith(p, eqs, scalars)), Dot(Values(eqs), scalars))
  {
    hide Congruent, Value, ScalarMul, CompactWith, Dot, Term;
    if eqs == [] {
      CompactOfNone(p);
    } else {
      CompactValue(p, eqs[1..], scalars[1..]);
      CompactStep(p, eqs, scalars);
      ValuesStep(p, eqs, scalars);
      CongruentAdd(p, Value(ScalarMul(p, eqs[0], scalars[0])), Term(eqs[0], scalars[0]),
        Value(CompactWith(p, eqs[1..], scalars[1..])), Dot(Values(eqs[1..]), scalars[1..]));
    }
  }

  ghost function RowValues(g1s: seq<seq<nat>>, g2s: seq<nat>): (vs: seq<int>)
    requires forall row | row in g1s :: |row| == |g2s|
    ensures |vs| == |g1s|
  {
    seq(|g1s|, j requires 0 <= j < |g1s| => Dot(g1s[j], g2s))
  }

  ghost function ColumnSums(g1s: seq<seq<nat>>, challenge: seq<nat>, width: nat): (vs: seq<int>)
    requires |challenge| == |g1s|
    requires forall row | row in g1s :: |row| == width
    ensures |vs| == width
  {
    seq(width, i requires 0 <= i < width => Dot(Column(g1s, i), challenge))
  }

  /** Exchange of the double sum: first by columns, or first by rows. */
  lemma {:induction false} ExchangeSums(g1s: seq<seq<nat>>, challenge: seq<nat>, g2s: seq<nat>)
    requires |challenge| == |g1s|
    requires forall row | row in g1s :: |row| == |g2s|
    ensures Dot(ColumnSums(g1s, challenge, |g2s|), g2s) == Dot(RowValues(g1s, g2s), challenge)
  {
    if g1s == [] {
      DotAllZero(ColumnSums(g1s, challenge, |g2s|), g2s);
    } else {
      ExchangeSums(g1s[1..], challenge[1..], g2s);
      assert RowValues(g1s, g2s)[1..] == RowValues(g1s[1..], g2s);
      FirstRow(g1s, challenge, g2s);
    }
  }

  lemma FirstRow(g1s: seq<seq<nat>>, challenge: seq<nat>, g2s: seq<nat>)
    requires |challenge| == |g1s| > 0
    requires forall row | row in g1s :: |row| == |g2s|
    ensures Dot(ColumnSums(g1s, challenge, |g2s|), g2s)
         == Dot(g1s[0], g2s) * challenge[0] + Dot(ColumnSums(g1s[1..], challenge[1..], |g2s|), g2s)
  {
    var scaled := Scaled(g1s[0], challenge[0]);
    var tails := ColumnSums(g1s[1..], challenge[1..], |g2s|);
    var cols := ColumnSums(g1s, challenge, |g2s|);
    forall i | 0 <= i < |g2s| ensures cols[i] == scaled[i] + tails[i] {
      assert Column(g1s, i)[1..] == Column(g1s[1..], i);
      DotStep(Column(g1s, i), challenge);
    }
    hide Dot;
    DotSum(scaled, tails, cols, g2s);
    DotScaled(g1s[0], g2s, challenge[0]);
    assert challenge[0] * Dot(g1s[0], g2s) == Dot(g1s[0], g2s) * challenge[0];
  }

  lemma {:induction false} DotAllZero(xs: seq<int>, ys: seq<int>)
    requires |xs| == |ys| && forall i | 0 <= i < |xs| :: xs[i] == 0
    ensures Dot(xs, ys) == 0
  {
    if xs != [] {
      DotAllZero(xs[1..], ys[1..]);
    }
  }

  lemma {:induction false} DotSum(us: seq<int>, vs: seq<int>, ws: seq<int>, ys: seq<int>)
    requires |us| == |vs| == |ws| == |ys|
    requires forall i | 0 <= i < |us| :: ws[i] == us[i] + vs[i]
    ensures Dot(ws, ys) == Dot(us, ys) + Dot(vs, ys)
  {
    if us != [] {
      DotSum(us[1..], vs[1..], ws[1..], ys[1..]);
      assert ws[0] * ys[0] == us[0] * ys[0] + vs[0] * ys[0];
    }
  }

  /** `with_shared_g2s` also evaluates to a random linear combination, of its rows. */
  lemma SharedValue(p: Order, challenge: seq<nat>, g1s: seq<seq<nat>>, sharedG2s: seq<nat>)
    requires g1s != [] && |challenge| == |g1s|
    requires forall row | row in g1s :: |row| == |g1s[0]|
    requires |sharedG2s| == |g1s[0]|
    ensures Congruent(p, Value(WithSharedG2s(p, challenge, g1s, sharedG2s)), Dot(RowValues(g1s, sharedG2s), challenge))
  {
    hide IsZero, Dot;
    var eq := WithSharedG2s(p, challenge, g1s, sharedG2s);
    var cols := ColumnSums(g1s, challenge, |sharedG2s|);
    ExchangeSums(g1s, challenge, sharedG2s);
    DotCongruent(p, eq.g1s, cols, sharedG2s);
  }
}
