/** The powers-of-tau contribution. */
module PowersOfTau {
  import opened PrimeField
  import opened Outcomes
  import opened MultipairingEquations
  import opened Batching
  import opened Refinement
  import opened BlsSok

  datatype Powers = Powers(powers: seq<nat>, tauG2: nat, sok: nat)

  /** Group elements are canonical. */
  ghost predicate Canonical(p: Order, c: Powers) {
    InRange(p, c.powers) && c.tauG2 < p && c.sok < p
  }

  /** The i-th power of tau, as a group element. */
  function PowerOf(p: Order, tau: nat, i: nat): (x: nat)
    ensures x < p
  {
    Reduce(p, Pow(tau, i))
  }

  lemma PowerOfZero(p: Order, tau: nat)
    ensures PowerOf(p, tau, 0) == 1
  {
    hide IsZero;
    CanonicalReduce(p, 1);
  }

  lemma PowerOfNext(p: Order, tau: nat, i: nat)
    ensures PowerOf(p, tau, i + 1) == Times(p, PowerOf(p, tau, i), tau)
  {
    hide IsZero;
    ZeroIsZero(p);
    ZeroProduct(p, PowerOf(p, tau, i), Pow(tau, i), tau, tau);
    assert Pow(tau, i + 1) == Pow(tau, i) * tau;
    SameReduce(p, PowerOf(p, tau, i) * tau, Pow(tau, i + 1));
  }

  // ---- Generating ----

  function FirstContribution(p: Order, hash: Hasher, maxPower: nat): (c: Powers)
    ensures |c.powers| == maxPower + 1
  {
    Powers(seq(maxPower + 1, _ => 1), 1, Sign(p, hash, 1, EmptyString))
  }

  /** `successors`, cut after `n` elements. */
  function SecretPowers(p: Order, tau: nat, n: nat): (xs: seq<nat>)
    ensures |xs| == n
  {
    if n == 0 then []
    else if n == 1 then [1]
    else
      var xs := SecretPowers(p, tau, n - 1);
      xs + [Times(p, xs[n - 2], tau)]
  }

  lemma {:induction false} SecretPowersAre(p: Order, tau: nat, n: nat, i: nat)
    requires i < n
    ensures SecretPowers(p, tau, n)[i] == PowerOf(p, tau, i)
  {
    hide IsZero, PowerOf;
    if n == 1 {
      PowerOfZero(p, tau);
    } else if i < n - 1 {
      SecretPowersAre(p, tau, n - 1, i);
    } else {
      SecretPowersAre(p, tau, n - 1, i - 1);
      PowerOfNext(p, tau, i - 1);
    }
  }

  function Min(a: nat, b: nat): nat {
    if a <= b then a else b
  }

  /** Multiply a vector of elements by a vector of scalars; the longer one is cut. */
  function ScaleEach(p: Order, scalars: seq<nat>, points: seq<nat>): (r: seq<nat>)
    ensures |r| == Min(|scalars|, |points|)
  {
    seq(Min(|scalars|, |points|), i requires 0 <= i < Min(|scalars|, |points|) => Times(p, points[i], scalars[i]))
  }

  function Generate(p: Order, hash: Hasher, previous: Powers, tau: nat, maxPower: nat): Outcome<(Powers, seq<nat>)> {
    if |previous.powers| != maxPower + 1 then Err(ParamsMismatch)
    else
      var tauPowers := SecretPowers(p, tau, maxPower + 1);
      var newTauG2 := Times(p, previous.tauG2, tau);
      Ok((Powers(
        ScaleEach(p, tauPowers, previous.powers),
        newTauG2,
        Sign(p, hash, tau, TauPreimage(previous.tauG2, newTauG2))), tauPowers))
  }

  // ---- Verifying ----

  /** The checks made before any equation is built. With `maxPower` zero there is no pair of
      successive powers, and `with_shared_g2s` asserts that there is one. */
  function Check(c: Powers, maxPower: nat): Outcome<Unit> {
    if |c.powers| != maxPower + 1 then Err(ParamsMismatch)
    else if c.powers[0] != 1 then Err(ShapeMismatch)
    else if c.tauG2 == 0 then Err(TrivialContribution)
    else if maxPower == 0 then Panic
    else Ok(Unit)
  }

  function SokEquation(p: Order, hash: Hasher, c: Powers, previous: Powers): (eq: Equation)
    ensures Balanced(eq)
  {
    Verify(p, hash, c.sok, previous.tauG2, c.tauG2, TauPreimage(previous.tauG2, c.tauG2))
  }

  /** Each power paired with the one before it. */
  function SuccessivePairs(powers: seq<nat>): (rows: seq<seq<nat>>)
    requires powers != []
    ensures |rows| == |powers| - 1 && forall row | row in rows :: |row| == 2
  {
    seq(|powers| - 1, i requires 0 <= i < |powers| - 1 => [powers[i + 1], powers[i]])
  }

  function TauG2s(p: Order, c: Powers): seq<nat> {
    [1, Negate(p, c.tauG2)]
  }

  /** The batched equation, given the challenge and the scalar of `combine`. */
  function BatchedEquation(p: Order, hash: Hasher, c: Powers, previous: Powers, tape: seq<nat>): (eq: Equation)
    requires |c.powers| >= 2 && |tape| == |c.powers|
    ensures Balanced(eq)
  {
    var n := |tape| - 1;
    var shared := WithSharedG2s(p, tape[..n], SuccessivePairs(c.powers), TauG2s(p, c));
    Combine(p, SokEquation(p, hash, c, previous), shared, tape[n])
  }

  // ---- The unbatched equations ----

  ghost function PowerValues(p: Order, c: Powers): seq<int>
    requires c.powers != []
  {
    RowValues(SuccessivePairs(c.powers), TauG2s(p, c))
  }

  ghost function EquationTree(p: Order, hash: Hasher, c: Powers, previous: Powers): Tree
    requires c.powers != []
  {
    Combined(Leaf(Value(SokEquation(p, hash, c, previous))), Compacted(Leaves(PowerValues(p, c))))
  }

  lemma TreeDraws(p: Order, hash: Hasher, c: Powers, previous: Powers)
    requires c.powers != []
    ensures Draws(EquationTree(p, hash, c, previous)) == |c.powers|
    ensures Layers(EquationTree(p, hash, c, previous)) == 2
  {
    LeavesDraw(PowerValues(p, c));
  }

  /** The equation of the verifier is the batching of the unbatched equations. */
  lemma BatchedValue(p: Order, hash: Hasher, c: Powers, previous: Powers, tape: seq<nat>)
    requires |c.powers| >= 2 && |tape| == |c.powers|
    ensures Draws(EquationTree(p, hash, c, previous)) == |tape|
    ensures Congruent(p, Value(BatchedEquation(p, hash, c, previous, tape)), Eval(EquationTree(p, hash, c, previous), tape))
  {
    hide Congruent, Value, Dot, WithSharedG2s, Combine, Eval;
    var n := |tape| - 1;
    var values := PowerValues(p, c);
    var sok := SokEquation(p, hash, c, previous);
    var shared := WithSharedG2s(p, tape[..n], SuccessivePairs(c.powers), TauG2s(p, c));
    TreeDraws(p, hash, c, previous);
    SharedValue(p, tape[..n], SuccessivePairs(c.powers), TauG2s(p, c));
    CombineRefines(p, sok, shared, values, tape);
  }

  // ---- Structure ----

  /** Every power is a power of the tau of the second group. */
  ghost predicate ArePowers(p: Order, c: Powers) {
    forall i | 0 <= i < |c.powers| :: c.powers[i] == PowerOf(p, c.tauG2, i)
  }

  ghost predicate Structured(p: Order, c: Powers, maxPower: nat) {
    && |c.powers| == maxPower + 1
    && 0 < c.tauG2 < p
    && ArePowers(p, c)
  }

  ghost predicate SokHolds(p: Order, hash: Hasher, c: Powers, previous: Powers) {
    EqualsZero(p, SokEquation(p, hash, c, previous))
  }

  /** A row of the power check compares a power with tau times the power before it. */
  lemma RowMeaning(p: Order, x: nat, y: nat, a: nat)
    requires x < p
    ensures IsZero(p, Dot([x, y], [1, Negate(p, a)])) <==> x == Times(p, y, a)
  {
    hide IsZero;
    TwoTerms(p, x, y, 1, a);
    var t := Times(p, y, a);
    if IsZero(p, x * 1 - y * a) {
      ZeroNegate(p, t - y * a);
      ZeroChain(p, x, y * a, t);
      CanonicalUnique(p, x, t);
    }
  }

  ghost predicate StepsByTau(p: Order, c: Powers) {
    forall i | 0 <= i < |c.powers| - 1 :: c.powers[i + 1] == Times(p, c.powers[i], c.tauG2)
  }

  ghost predicate PowersHold(p: Order, c: Powers)
    requires c.powers != []
  {
    forall i | 0 <= i < |c.powers| - 1 :: IsZero(p, PowerValues(p, c)[i])
  }

  lemma PowersHoldIff(p: Order, c: Powers)
    requires c.powers != [] && InRange(p, c.powers)
    ensures PowersHold(p, c) <==> StepsByTau(p, c)
  {
    hide IsZero, Dot;
    forall i | 0 <= i < |c.powers| - 1
      ensures IsZero(p, PowerValues(p, c)[i]) <==> c.powers[i + 1] == Times(p, c.powers[i], c.tauG2)
    {
      RowMeaning(p, c.powers[i + 1], c.powers[i], c.tauG2);
    }
  }

  lemma {:induction false} StepsArePowers(p: Order, c: Powers, i: nat)
    requires c.powers != [] && c.powers[0] == 1 && StepsByTau(p, c) && i < |c.powers|
    ensures c.powers[i] == PowerOf(p, c.tauG2, i)
  {
    hide IsZero, PowerOf;
    if i == 0 {
      PowerOfZero(p, c.tauG2);
    } else {
      StepsArePowers(p, c, i - 1);
      PowerOfNext(p, c.tauG2, i - 1);
    }
  }

  lemma PowersAreSteps(p: Order, c: Powers)
    requires ArePowers(p, c)
    ensures StepsByTau(p, c)
    ensures c.powers != [] ==> c.powers[0] == 1
  {
    hide IsZero, PowerOf;
    PowerOfZero(p, c.tauG2);
    forall i | 0 <= i < |c.powers| - 1 ensures c.powers[i + 1] == Times(p, c.powers[i], c.tauG2) {
      PowerOfNext(p, c.tauG2, i);
    }
  }

  /** The checks and all unbatched equations hold exactly when the powers are those of one
      nonzero tau and the proof of knowledge holds. */
  lemma StructuredIff(p: Order, hash: Hasher, c: Powers, previous: Powers, maxPower: nat)
    requires Canonical(p, c) && maxPower > 0
    ensures Check(c, maxPower).Ok? && AllZero(p, EquationTree(p, hash, c, previous))
       <==> Structured(p, c, maxPower) && SokHolds(p, hash, c, previous)
  {
    hide IsZero, PowerOf;
    if |c.powers| == maxPower + 1 {
      LeavesZero(p, PowerValues(p, c));
      PowersHoldIff(p, c);
      if c.powers[0] == 1 && StepsByTau(p, c) {
        forall i | 0 <= i < |c.powers| ensures c.powers[i] == PowerOf(p, c.tauG2, i) {
          StepsArePowers(p, c, i);
        }
      }
      if ArePowers(p, c) {
        PowersAreSteps(p, c);
      }
    }
  }

  // ---- Completeness ----

  /** Scaling the powers of a nonzero tau by those of a secret gives the powers of their product. */
  lemma ScaledPower(p: Order, tau: nat, secret: nat, i: nat)
    ensures Times(p, PowerOf(p, tau, i), PowerOf(p, secret, i)) == PowerOf(p, Times(p, tau, secret), i)
  {
    hide IsZero;
    var t := Times(p, tau, secret);
    var x, y := Pow(tau, i), Pow(secret, i);
    ZeroProduct(p, PowerOf(p, tau, i), x, PowerOf(p, secret, i), y);
    PowOfProduct(tau, secret, i);
    PowCongruent(p, t, tau * secret, i);
    ZeroNegate(p, Pow(t, i) - x * y);
    ZeroChain(p, PowerOf(p, tau, i) * PowerOf(p, secret, i), x * y, Pow(t, i));
    SameReduce(p, PowerOf(p, tau, i) * PowerOf(p, secret, i), Pow(t, i));
  }

  lemma ProductNonzero(p: Order, a: nat, b: nat)
    requires a < p && b < p
    ensures Times(p, a, b) == 0 <==> a == 0 || b == 0
  {
    hide IsZero;
    CanonicalNonzero(p, a);
    CanonicalNonzero(p, b);
    CanonicalNonzero(p, Times(p, a, b));
    ZeroTransfer(p, Times(p, a, b), a * b);
    if IsZero(p, a * b) {
      NoZeroDivisors(p, a, b);
    }
    if a == 0 {
      assert a * b == 0;
    }
    if b == 0 {
      assert a * b == 0;
    }
    ZeroIsZero(p);
  }

  /** An honest step on structured powers multiplies tau by the secret and keeps everything
      else in place; it is accepted exactly when the secret is not zero. */
  lemma HonestStep(p: Order, hash: Hasher, previous: Powers, secret: nat, maxPower: nat)
    requires Structured(p, previous, maxPower) && maxPower > 0 && secret < p
    ensures Generate(p, hash, previous, secret, maxPower).Ok?
    ensures var c := Generate(p, hash, previous, secret, maxPower).value.0;
      && c.tauG2 == Times(p, previous.tauG2, secret)
      && ArePowers(p, c) && Canonical(p, c) && |c.powers| == maxPower + 1
      && (secret != 0 ==>
            Structured(p, c, maxPower) && Check(c, maxPower).Ok? && AllZero(p, EquationTree(p, hash, c, previous)))
      && (secret == 0 ==> Check(c, maxPower) == Err(TrivialContribution))
  {
    hide IsZero, PowerOf, Dot;
    var c := Generate(p, hash, previous, secret, maxPower).value.0;
    forall i | 0 <= i < |c.powers| ensures c.powers[i] == PowerOf(p, c.tauG2, i) {
      SecretPowersAre(p, secret, maxPower + 1, i);
      ScaledPower(p, previous.tauG2, secret, i);
    }
    PowersAreSteps(p, c);
    ProductNonzero(p, previous.tauG2, secret);
    HonestSignature(p, hash, secret, previous.tauG2, TauPreimage(previous.tauG2, c.tauG2));
    StructuredIff(p, hash, c, previous, maxPower);
  }

  lemma FirstIsStructured(p: Order, hash: Hasher, maxPower: nat)
    ensures var c := FirstContribution(p, hash, maxPower);
      Structured(p, c, maxPower) && c.tauG2 == 1 && Canonical(p, c)
  {
    hide IsZero;
    var c := FirstContribution(p, hash, maxPower);
    forall i | 0 <= i < |c.powers| ensures c.powers[i] == PowerOf(p, 1, i) {
      PowOfOne(i);
      CanonicalReduce(p, 1);
    }
  }

  lemma {:induction false} PowOfOne(n: nat)
    ensures Pow(1, n) == 1
  {
    if n > 0 {
      PowOfOne(n - 1);
    }
  }
}
