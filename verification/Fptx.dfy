/** The FPTX contribution: powers of tau, and for every round the same powers shifted by a
    secret alpha. */
module Fptx {
  import opened PrimeField
  import opened Counting
  import opened Outcomes
  import opened MultipairingEquations
  import opened BlsSok
  import PoT = PowersOfTau

  datatype Contribution = Contribution(
    pot: PoT.Powers,
    alphasG2: seq<nat>,
    soksAlphas: seq<nat>,
    randomized: seq<seq<nat>>)

  datatype Params = Params(batchSize: nat, numRounds: nat)

  datatype Secrets = Secrets(alphas: seq<nat>, tau: nat)

  ghost predicate Canonical(p: Order, c: Contribution) {
    && PoT.Canonical(p, c.pot)
    && InRange(p, c.alphasG2)
    && InRange(p, c.soksAlphas)
    && forall row | row in c.randomized :: InRange(p, row)
  }

  // ---- Params ----

  /** Accepted batch sizes: the powers of two, and zero. */
  ghost predicate HalvesToOne(n: nat) {
    n <= 1 || (n % 2 == 0 && HalvesToOne(n / 2))
  }

  lemma {:induction false} HalvesToOneIff(n: nat)
    ensures HalvesToOne(n) <==> n == 0 || exists k: nat :: n == Power(2, k)
  {
    if n == 1 {
      assert n == Power(2, 0);
    } else if n > 1 {
      HalvesToOneIff(n / 2);
      if HalvesToOne(n) {
        var k: nat :| n / 2 == Power(2, k);
        assert n == Power(2, k + 1);
      }
      if k: nat :| n == Power(2, k) {
        assert k > 0;
        assert n / 2 == Power(2, k - 1);
      }
    }
  }

  /** `FPTXParams::new`. */
  method NewParams(batchSize: nat, numRounds: nat) returns (r: Option<Params>)
    ensures r == if batchSize == 0 || exists k: nat :: batchSize == Power(2, k)
      then Some(Params(batchSize, numRounds)) else None
  {
    HalvesToOneIff(batchSize);
    var i := batchSize;
    while i > 1
      invariant HalvesToOne(i) <==> HalvesToOne(batchSize)
    {
      if i % 2 != 0 {
        return None;
      }
      i := i / 2;
    }
    return Some(Params(batchSize, numRounds));
  }

  // ---- Generating ----

  /** The powers of tau, once for every alpha and scaled by it. */
  function RandomizedPowers(p: Order, tauPowers: seq<nat>, alphas: seq<nat>): (rows: seq<seq<nat>>)
    ensures |rows| == |alphas|
    ensures forall j | 0 <= j < |rows| :: |rows[j]| == |tauPowers|
  {
    seq(|alphas|, j requires 0 <= j < |alphas| =>
      seq(|tauPowers|, i requires 0 <= i < |tauPowers| => Times(p, tauPowers[i], alphas[j])))
  }

  function FirstContribution(p: Order, hash: Hasher, params: Params): Contribution {
    var ones := seq(params.numRounds, _ => 1);
    Contribution(
      PoT.FirstContribution(p, hash, params.batchSize),
      ones,
      seq(params.numRounds, _ => Sign(p, hash, 1, EmptyString)),
      RandomizedPowers(p, seq(params.batchSize + 1, _ => 1), ones))
  }

  function NewAlphas(p: Order, previous: Contribution, alphas: seq<nat>): (r: seq<nat>)
    requires |previous.alphasG2| == |alphas|
    ensures |r| == |alphas|
  {
    seq(|alphas|, j requires 0 <= j < |alphas| => Times(p, previous.alphasG2[j], alphas[j]))
  }

  function NewSoks(p: Order, hash: Hasher, previous: Contribution, alphas: seq<nat>): (r: seq<nat>)
    requires |previous.alphasG2| == |alphas|
    ensures |r| == |alphas|
  {
    var new' := NewAlphas(p, previous, alphas);
    seq(|alphas|, j requires 0 <= j < |alphas| =>
      Sign(p, hash, alphas[j], AlphaPreimage(previous.alphasG2[j], new'[j], j)))
  }

  /** `generate`. The lengths of the rows of the previous contribution are not checked: a row
      is cut to the shorter of the two. */
  function Generate(p: Order, hash: Hasher, previous: Contribution, secrets: Secrets, params: Params): Outcome<Contribution>
    requires |secrets.alphas| == params.numRounds
  {
    if || |previous.alphasG2| != params.numRounds
       || |previous.soksAlphas| != params.numRounds
       || |previous.pot.powers| != params.batchSize + 1
       || |previous.randomized| != params.numRounds
    then Err(ParamsMismatch)
    else
      var (pot, tauPowers) :- PoT.Generate(p, hash, previous.pot, secrets.tau, params.batchSize);
      var scalars := RandomizedPowers(p, tauPowers, secrets.alphas);
      Ok(Contribution(
        pot,
        NewAlphas(p, previous, secrets.alphas),
        NewSoks(p, hash, previous, secrets.alphas),
        seq(params.numRounds, j requires 0 <= j < params.numRounds => PoT.ScaleEach(p, scalars[j], previous.randomized[j]))))
  }

  // ---- Verifying ----

  /** The checks of `verify`, in their order. */
  function Check(c: Contribution, params: Params): Outcome<Unit> {
    if || |c.alphasG2| != params.numRounds
       || |c.soksAlphas| != params.numRounds
       || |c.pot.powers| != params.batchSize + 1
       || |c.randomized| != params.numRounds
    then Err(ParamsMismatch)
    else if 0 in c.alphasG2 then Err(TrivialContribution)
    else if exists row | row in c.randomized :: |row| != params.batchSize + 1 then Err(ShapeMismatch)
    else PoT.Check(c.pot, params.batchSize)
  }

  ghost predicate SizesMatch(c: Contribution, params: Params) {
    |c.alphasG2| == |c.soksAlphas| == |c.randomized| == params.numRounds && |c.pot.powers| == params.batchSize + 1
  }

  ghost predicate RowsMatch(c: Contribution, params: Params) {
    forall j | 0 <= j < |c.randomized| :: |c.randomized[j]| == params.batchSize + 1
  }

  ghost predicate SomeZero(c: Contribution) {
    exists j :: 0 <= j < |c.alphasG2| && c.alphasG2[j] == 0
  }

  /** The checks as the source runs them: two loops with an early return. Each refusal has its one
      reason: the sizes; a zero alpha, or a zero tau when all shapes are right; a row or a first
      power that is wrong when no alpha is zero. */
  method RunChecks(c: Contribution, params: Params) returns (r: Outcome<Unit>)
    ensures r == Check(c, params)
    ensures r == Err(ParamsMismatch) <==> !SizesMatch(c, params)
    ensures r == Err(TrivialContribution) <==>
      SizesMatch(c, params) && (SomeZero(c) || (RowsMatch(c, params) && c.pot.powers[0] == 1 && c.pot.tauG2 == 0))
    ensures r == Err(ShapeMismatch) <==> SizesMatch(c, params) && !SomeZero(c) && (!RowsMatch(c, params) || c.pot.powers[0] != 1)
    ensures r.Err? ==> r.failure == ParamsMismatch || r.failure == TrivialContribution || r.failure == ShapeMismatch
  {
    if |c.alphasG2| != params.numRounds || |c.soksAlphas| != params.numRounds ||
       |c.pot.powers| != params.batchSize + 1 || |c.randomized| != params.numRounds {
      return Err(ParamsMismatch);
    }
    for i := 0 to |c.alphasG2|
      invariant forall k | 0 <= k < i :: c.alphasG2[k] != 0
    {
      if c.alphasG2[i] == 0 {
        return Err(TrivialContribution);
      }
    }
    for i := 0 to |c.randomized|
      invariant forall k | 0 <= k < i :: |c.randomized[k]| == params.batchSize + 1
    {
      if |c.randomized[i]| != params.batchSize + 1 {
        assert c.randomized[i] in c.randomized;
        return Err(ShapeMismatch);
      }
    }
    r := PoT.Check(c.pot, params.batchSize);
  }

  /** All rows are as long as the powers, and there is one for every alpha. */
  ghost predicate WellShaped(c: Contribution) {
    && |c.randomized| == |c.alphasG2| == |c.soksAlphas|
    && |c.pot.powers| >= 2
    && forall row | row in c.randomized :: |row| == |c.pot.powers|
  }

  lemma CheckedIsWellShaped(c: Contribution, params: Params)
    requires Check(c, params).Ok?
    ensures WellShaped(c) && |c.pot.powers| == params.batchSize + 1 && |c.alphasG2| == params.numRounds
  {
  }

  function AlphaSok(p: Order, hash: Hasher, c: Contribution, previous: Contribution, j: nat): (eq: Equation)
    requires j < |c.alphasG2| && j < |previous.alphasG2| && j < |c.soksAlphas|
    ensures Balanced(eq)
  {
    Verify(p, hash, c.soksAlphas[j], previous.alphasG2[j], c.alphasG2[j],
      AlphaPreimage(previous.alphasG2[j], c.alphasG2[j], j))
  }

  /** One proof of knowledge for each alpha of both contributions. */
  function SokEquations(p: Order, hash: Hasher, c: Contribution, previous: Contribution): (eqs: seq<Equation>)
    requires |c.alphasG2| == |c.soksAlphas|
    ensures |eqs| == PoT.Min(|c.alphasG2|, |previous.alphasG2|)
    ensures forall eq | eq in eqs :: Balanced(eq)
  {
    var n := PoT.Min(|c.alphasG2|, |previous.alphasG2|);
    seq(n, j requires 0 <= j < n => AlphaSok(p, hash, c, previous, j))
  }

  /** Each shifted power paired with the power itself. */
  function ShiftedPairs(row: seq<nat>, powers: seq<nat>): (rows: seq<seq<nat>>)
    requires |row| == |powers|
    ensures |rows| == |row| && forall pair | pair in rows :: |pair| == 2
  {
    seq(|row|, i requires 0 <= i < |row| => [row[i], powers[i]])
  }

  function AlphaG2s(p: Order, alpha: nat): seq<nat> {
    [1, Negate(p, alpha)]
  }

  /** Every round draws a challenge as long as its row. */
  function ShiftDraws(rows: seq<seq<nat>>, width: nat): (n: nat)
    ensures n == |rows| * width
  {
    if rows == [] then 0
    else
      assert |rows| * width == |rows[1..]| * width + width;
      width + ShiftDraws(rows[1..], width)
  }

  /** One batched equation a round; each round takes its challenge from the tape. */
  function ShiftEquations(p: Order, alphas: seq<nat>, rows: seq<seq<nat>>, powers: seq<nat>, tape: seq<nat>): (eqs: seq<Equation>)
    requires |alphas| == |rows| && powers != []
    requires forall row | row in rows :: |row| == |powers|
    requires |tape| == ShiftDraws(rows, |powers|)
    ensures |eqs| == |rows|
    ensures forall eq | eq in eqs :: Balanced(eq)
    decreases rows
  {
    if rows == [] then []
    else
      [WithSharedG2s(p, tape[..|powers|], ShiftedPairs(rows[0], powers), AlphaG2s(p, alphas[0]))]
      + ShiftEquations(p, alphas[1..], rows[1..], powers, tape[|powers|..])
  }

  /** How many challenges the parts draw: the powers of tau, then every round. */
  function PartsDrawCount(c: Contribution): nat {
    |c.pot.powers| + ShiftDraws(c.randomized, |c.pot.powers|)
  }

  function EquationCount(c: Contribution, previous: Contribution): nat {
    1 + PoT.Min(|c.alphasG2|, |previous.alphasG2|) + |c.randomized|
  }

  function Equations(p: Order, hash: Hasher, c: Contribution, previous: Contribution, tape: seq<nat>): (eqs: seq<Equation>)
    requires WellShaped(c) && |tape| == PartsDrawCount(c)
    ensures |eqs| == EquationCount(c, previous)
    ensures forall eq | eq in eqs :: Balanced(eq)
  {
    [PoT.BatchedEquation(p, hash, c.pot, previous.pot, tape[..|c.pot.powers|])]
    + SokEquations(p, hash, c, previous)
    + ShiftEquations(p, c.alphasG2, c.randomized, c.pot.powers, tape[|c.pot.powers|..])
  }

  /** How many field elements `verify` draws. */
  function DrawCount(c: Contribution, previous: Contribution): nat {
    PartsDrawCount(c) + EquationCount(c, previous)
  }

  function BatchedEquation(p: Order, hash: Hasher, c: Contribution, previous: Contribution, tape: seq<nat>): (eq: Equation)
    requires WellShaped(c) && |tape| == DrawCount(c, previous)
    ensures Balanced(eq)
  {
    var n := PartsDrawCount(c);
    CompactWith(p, Equations(p, hash, c, previous, tape[..n]), tape[n..])
  }
}
