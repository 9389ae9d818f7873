/** How many challenges a single batching step accepts, exactly. */
module ExactBatching {
  import opened PrimeField
  import opened Counting
  import opened MultipairingEquations
  import Batching

  /** The challenges whose combination of the values is zero. */
  ghost function ZeroChallenges(p: Order, values: seq<int>): set<seq<nat>> {
    set s | s in Tapes(p, |values|) && Cancels(p, values, s)
  }

  ghost predicate Cancels(p: Order, values: seq<int>, s: seq<nat>) {
    |s| == |values| && IsZero(p, Dot(values, s))
  }

  function Insert(w: seq<nat>, i: nat, x: nat): seq<nat>
    requires i <= |w|
  {
    w[..i] + [x] + w[i..]
  }

  /** The scalar that cancels `rest` against a nonzero value. */
  ghost function CancellingScalar(p: Order, rest: int, e: int): (x: nat)
    requires !IsZero(p, e)
    ensures x < p && IsZero(p, Accumulate(rest, x, e))
  {
    var inv := Inverse(p, e);
    var x := Reduce(p, -rest * inv);
    CancellingLaw(p, rest, e, inv, x);
    x
  }

  lemma CancellingLaw(p: Order, rest: int, e: int, inv: int, x: int)
    requires IsZero(p, e * inv - 1) && IsZero(p, x - -rest * inv)
    ensures IsZero(p, Accumulate(rest, x, e))
  {
    hide IsZero;
    ZeroMul(p, e * inv - 1, rest);
    ZeroMul(p, x - -rest * inv, e);
    ZeroAdd(p, (x - -rest * inv) * e, (e * inv - 1) * rest);
    calc {
      (x - -rest * inv) * e - (e * inv - 1) * rest;
      { assert (x - -rest * inv) * e == x * e + (rest * inv) * e; }
      x * e + (rest * inv) * e - (e * inv - 1) * rest;
      { assert (e * inv - 1) * rest == (e * inv) * rest - rest; assert (rest * inv) * e == (e * inv) * rest; }
      x * e + rest;
    }
  }

  /** Whatever the other draws, exactly one value of the scalar of a wrong equation cancels. */
  lemma OneCompletion(p: Order, values: seq<int>, i: nat, w: seq<nat>, cut: seq<nat> -> seq<nat>)
    requires i < |values| && !IsZero(p, values[i])
    requires IsTape(p, |values| - 1, w)
    requires forall t :: cut(t) == Without(t, i, i + 1)
    ensures |Fibre(ZeroChallenges(p, values), cut, w)| == 1
  {
    hide IsZero, Dot, Without;
    var t := Completion(p, values, i, w);
    TapesExact(p, |values|);
    var F := Fibre(ZeroChallenges(p, values), cut, w);
    forall u | u in F ensures u == t {
      Batching.AgreeElsewhere(t, u, i);
      Batching.ScalarFromDot(p, values, t, u, i);
    }
    assert F == {t};
  }

  lemma Completion(p: Order, values: seq<int>, i: nat, w: seq<nat>) returns (t: seq<nat>)
    requires i < |values| && !IsZero(p, values[i])
    requires IsTape(p, |values| - 1, w)
    ensures IsTape(p, |values|, t) && Cancels(p, values, t) && Without(t, i, i + 1) == w
  {
    hide IsZero, Dot;
    var base := Insert(w, i, 0);
    var x := CancellingScalar(p, Dot(values, base), values[i]);
    t := Insert(w, i, x);
    CompletionDot(values, t, base, i, x);
  }

  lemma CompletionDot(values: seq<int>, t: seq<nat>, base: seq<nat>, i: nat, x: nat)
    requires |values| == |t| == |base| && i < |values| && base[i] == 0 && t[i] == x
    requires forall j | 0 <= j < |t| && j != i :: t[j] == base[j]
    ensures Dot(values, t) == Dot(values, base) + x * values[i]
  {
    hide Dot;
    Batching.DotOneChanged(values, t, base, i);
  }

  /** If some value is not zero, exactly one in `p` of all challenges cancels. */
  lemma WrongValueCount(p: Order, values: seq<int>)
    requires exists i | 0 <= i < |values| :: !IsZero(p, values[i])
    ensures |ZeroChallenges(p, values)| == Power(p, |values| - 1)
  {
    hide IsZero, Dot, Tapes, IsTape, Fibre;
    var i :| 0 <= i < |values| && !IsZero(p, values[i]);
    var cut := (t: seq<nat>) => Without(t, i, i + 1);
    var n: nat := |values| - 1;
    var Z := ZeroChallenges(p, values);
    TapesExact(p, n + 1);
    TapesExact(p, n);
    forall t | t in Z ensures cut(t) in Tapes(p, n) {
      WithoutIsTape(p, n + 1, t, i, i + 1);
    }
    forall w | w in Tapes(p, n) ensures |Fibre(Z, cut, w)| == 1 {
      OneCompletion(p, values, i, w, cut);
    }
    FibreExact(Z, Tapes(p, n), cut, 1);
    TapeCount(p, n);
  }

  /** If all values are zero, every challenge cancels. */
  lemma RightValuesCount(p: Order, values: seq<int>)
    requires forall i | 0 <= i < |values| :: IsZero(p, values[i])
    ensures ZeroChallenges(p, values) == Tapes(p, |values|)
    ensures |ZeroChallenges(p, values)| == Power(p, |values|)
  {
    hide IsZero, Dot;
    TapesExact(p, |values|);
    forall s | s in Tapes(p, |values|) ensures s in ZeroChallenges(p, values) {
      DotZeros(p, values, s);
    }
    TapeCount(p, |values|);
  }

  ghost predicate AllValuesZero(p: Order, values: seq<int>) {
    forall i | 0 <= i < |values| :: IsZero(p, values[i])
  }

  lemma ChallengeCount(p: Order, values: seq<int>)
    ensures |ZeroChallenges(p, values)|
         == if AllValuesZero(p, values) then Power(p, |values|) else Power(p, |values| - 1)
  {
    hide IsZero, ZeroChallenges;
    if AllValuesZero(p, values) {
      RightValuesCount(p, values);
    } else {
      WrongValueCount(p, values);
    }
  }

  // ---- The three batching steps of the verifier ----

  ghost predicate AllEqualZero(p: Order, eqs: seq<Equation>)
    requires forall eq | eq in eqs :: Balanced(eq)
  {
    forall i | 0 <= i < |eqs| :: EqualsZero(p, eqs[i])
  }

  ghost function CompactAccepts(p: Order, eqs: seq<Equation>): (accepted: set<seq<nat>>)
    requires forall eq | eq in eqs :: Balanced(eq)
  {
    set s | s in Tapes(p, |eqs|) && |s| == |eqs| && EqualsZero(p, CompactWith(p, eqs, s))
  }

  /** `compact`: all of the scalar vectors are accepted if every equation holds, and exactly
      one in `p` of them if some equation does not. */
  lemma CompactCount(p: Order, eqs: seq<Equation>)
    requires forall eq | eq in eqs :: Balanced(eq)
    ensures |CompactAccepts(p, eqs)| == if AllEqualZero(p, eqs) then Power(p, |eqs|) else Power(p, |eqs| - 1)
  {
    hide IsZero, Dot, CompactWith;
    TapesExact(p, |eqs|);
    forall s | s in Tapes(p, |eqs|) ensures EqualsZero(p, CompactWith(p, eqs, s)) <==> Cancels(p, Values(eqs), s) {
      CompactValue(p, eqs, s);
      CongruentZero(p, Value(CompactWith(p, eqs, s)), Dot(Values(eqs), s));
    }
    assert CompactAccepts(p, eqs) == ZeroChallenges(p, Values(eqs));
    assert forall i | 0 <= i < |eqs| :: Values(eqs)[i] == Value(eqs[i]);
    ChallengeCount(p, Values(eqs));
  }

  ghost predicate RowsEqualZero(p: Order, g1s: seq<seq<nat>>, g2s: seq<nat>)
    requires forall row | row in g1s :: |row| == |g2s|
  {
    forall j | 0 <= j < |g1s| :: EqualsZero(p, Equation(g1s[j], g2s))
  }

  ghost function SharedAccepts(p: Order, g1s: seq<seq<nat>>, g2s: seq<nat>): (accepted: set<seq<nat>>)
    requires g1s != [] && forall row | row in g1s :: |row| == |g2s|
  {
    set s | s in Tapes(p, |g1s|) && |s| == |g1s| && EqualsZero(p, WithSharedG2s(p, s, g1s, g2s))
  }

  /** `with_shared_g2s`: the same count, over the rows it batches. */
  lemma SharedCount(p: Order, g1s: seq<seq<nat>>, g2s: seq<nat>)
    requires g1s != [] && forall row | row in g1s :: |row| == |g2s|
    ensures |SharedAccepts(p, g1s, g2s)| == if RowsEqualZero(p, g1s, g2s) then Power(p, |g1s|) else Power(p, |g1s| - 1)
  {
    hide IsZero, Dot, WithSharedG2s;
    var vs := RowValues(g1s, g2s);
    TapesExact(p, |g1s|);
    forall s | s in Tapes(p, |g1s|) ensures EqualsZero(p, WithSharedG2s(p, s, g1s, g2s)) <==> Cancels(p, vs, s) {
      SharedValue(p, s, g1s, g2s);
      CongruentZero(p, Value(WithSharedG2s(p, s, g1s, g2s)), Dot(vs, s));
    }
    assert SharedAccepts(p, g1s, g2s) == ZeroChallenges(p, vs);
    assert forall j | 0 <= j < |g1s| :: vs[j] == Value(Equation(g1s[j], g2s));
    ChallengeCount(p, vs);
  }

  ghost predicate CombineHolds(p: Order, eq: Equation, other: Equation, s: nat)
    requires Balanced(eq) && Balanced(other)
  {
    EqualsZero(p, Combine(p, eq, other, s))
  }

  lemma CombineHoldsIff(p: Order, eq: Equation, other: Equation, s: nat, sum: int)
    requires Balanced(eq) && Balanced(other) && sum == Accumulate(Value(eq), s, Value(other))
    ensures CombineHolds(p, eq, other, s) <==> IsZero(p, sum)
  {
    hide IsZero, Value, Combine;
    CombineValue(p, eq, other, s);
    CongruentZero(p, Value(Combine(p, eq, other, s)), sum);
  }

  /** `combine` with a second equation that holds: the result holds exactly when the first does. */
  lemma CombineRight(p: Order, eq: Equation, other: Equation, s: nat)
    requires Balanced(eq) && Balanced(other) && EqualsZero(p, other)
    ensures CombineHolds(p, eq, other, s) <==> EqualsZero(p, eq)
  {
    hide IsZero, Value, CombineHolds, Accumulate;
    CombineHoldsIff(p, eq, other, s, Accumulate(Value(eq), s, Value(other)));
    Batching.AccumulateZero(p, Value(eq), s, Value(other));
  }

  /** `combine` with a second equation that does not hold: exactly one scalar hides it. */
  lemma CombineWrong(p: Order, eq: Equation, other: Equation) returns (x: nat)
    requires Balanced(eq) && Balanced(other) && !EqualsZero(p, other)
    ensures x < p
    ensures forall s: nat | s < p :: CombineHolds(p, eq, other, s) <==> s == x
  {
    hide IsZero, Value, CombineHolds, Accumulate;
    var a, b := Value(eq), Value(other);
    x := CancellingScalar(p, a, b);
    forall s: nat | s < p ensures CombineHolds(p, eq, other, s) <==> s == x {
      CombineHoldsIff(p, eq, other, s, Accumulate(a, s, b));
      if IsZero(p, Accumulate(a, s, b)) {
        Batching.ScalarUnique(p, a, b, s, x);
      }
    }
  }
}
