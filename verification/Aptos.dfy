/** The inner contribution of the ceremony: an FPTX part and a hiding-KZG part. */
module Aptos {
  import opened PrimeField
  import opened Counting
  import opened Outcomes
  import opened MultipairingEquations
  import opened Batching
  import opened Refinement
  import opened BlsSok
  import Fptx
  import FptxLaws
  import Kzg = HidingKzg
  import PoT = PowersOfTau

  datatype Inner = Inner(fptx: Fptx.Contribution, kzg: Kzg.Contribution)

  datatype Params = Params(fptx: Fptx.Params, kzgMaxPower: nat)

  datatype Secrets = Secrets(fptx: Fptx.Secrets, kzg: Kzg.Secrets)

  ghost predicate Canonical(p: Order, c: Inner) {
    Fptx.Canonical(p, c.fptx) && Kzg.Canonical(p, c.kzg)
  }

  function FirstContribution(p: Order, hash: Hasher, params: Params): Inner {
    Inner(Fptx.FirstContribution(p, hash, params.fptx), Kzg.FirstContribution(p, hash, params.kzgMaxPower))
  }

  function Generate(p: Order, hash: Hasher, previous: Inner, secrets: Secrets, params: Params): Outcome<Inner>
    requires |secrets.fptx.alphas| == params.fptx.numRounds
  {
    var fptx :- Fptx.Generate(p, hash, previous.fptx, secrets.fptx, params.fptx);
    var kzg :- Kzg.Generate(p, hash, previous.kzg, secrets.kzg, params.kzgMaxPower);
    Ok(Inner(fptx, kzg))
  }

  /** The checks of both parts, in the order in which `verify` makes them. */
  function Check(c: Inner, params: Params): Outcome<Unit> {
    var _ :- Fptx.Check(c.fptx, params.fptx);
    Kzg.Check(c.kzg, params.kzgMaxPower)
  }

  ghost predicate WellShaped(c: Inner) {
    Fptx.WellShaped(c.fptx) && |c.kzg.pot.powers| >= 2
  }

  lemma CheckedIsWellShaped(c: Inner, params: Params)
    requires Check(c, params).Ok?
    ensures WellShaped(c) && params.fptx.batchSize > 0 && params.kzgMaxPower > 0
  {
    Fptx.CheckedIsWellShaped(c.fptx, params.fptx);
  }

  function PartsDrawCount(c: Inner, previous: Inner): nat {
    Fptx.DrawCount(c.fptx, previous.fptx) + Kzg.DrawCount(c.kzg)
  }

  /** How many field elements `verify` draws. */
  function DrawCount(c: Inner, previous: Inner): nat {
    PartsDrawCount(c, previous) + 2
  }

  function Equations(p: Order, hash: Hasher, c: Inner, previous: Inner, tape: seq<nat>): (eqs: seq<Equation>)
    requires WellShaped(c) && |tape| == PartsDrawCount(c, previous)
    ensures |eqs| == 2
    ensures forall eq | eq in eqs :: Balanced(eq)
  {
    var n := Fptx.DrawCount(c.fptx, previous.fptx);
    [Fptx.BatchedEquation(p, hash, c.fptx, previous.fptx, tape[..n])]
    + [Kzg.BatchedEquation(p, hash, c.kzg, previous.kzg, tape[n..])]
  }

  function BatchedEquation(p: Order, hash: Hasher, c: Inner, previous: Inner, tape: seq<nat>): (eq: Equation)
    requires WellShaped(c) && |tape| == DrawCount(c, previous)
    ensures Balanced(eq)
  {
    var n := PartsDrawCount(c, previous);
    CompactWith(p, Equations(p, hash, c, previous, tape[..n]), tape[n..])
  }

  /** `verify`, up to the evaluation of the equation it returns. */
  function VerifyContribution(p: Order, hash: Hasher, c: Inner, previous: Inner, params: Params, tape: seq<nat>): Outcome<Equation>
    requires Check(c, params).Ok? ==> |tape| == DrawCount(c, previous)
  {
    var _ :- Check(c, params);
    CheckedIsWellShaped(c, params);
    Ok(BatchedEquation(p, hash, c, previous, tape))
  }

  /** `verify(..)?.equals_zero()`. */
  function Accepts(p: Order, hash: Hasher, c: Inner, previous: Inner, params: Params, tape: seq<nat>): Outcome<Unit>
    requires Check(c, params).Ok? ==> |tape| == DrawCount(c, previous)
  {
    var equation :- VerifyContribution(p, hash, c, previous, params, tape);
    if EqualsZero(p, equation) then Ok(Unit) else Err(MultipairingEquationNonZeroResult)
  }

  // ---- The unbatched equations ----

  ghost function Parts(p: Order, hash: Hasher, c: Inner, previous: Inner): seq<Tree>
    requires WellShaped(c)
  {
    [FptxLaws.EquationTree(p, hash, c.fptx, previous.fptx)] + [Kzg.EquationTree(p, hash, c.kzg, previous.kzg)]
  }

  ghost function EquationTree(p: Order, hash: Hasher, c: Inner, previous: Inner): Tree
    requires WellShaped(c)
  {
    Compacted(Parts(p, hash, c, previous))
  }

  lemma PartsRefine(p: Order, hash: Hasher, c: Inner, previous: Inner, tape: seq<nat>)
    requires WellShaped(c) && |tape| == PartsDrawCount(c, previous)
    ensures Refines(p, Equations(p, hash, c, previous, tape), Parts(p, hash, c, previous), tape)
  {
    hide Refines, Congruent, Value, Eval, Draws, Fptx.BatchedEquation, Kzg.BatchedEquation, FptxLaws.EquationTree, Kzg.EquationTree, Fptx.DrawCount;
    var n := Fptx.DrawCount(c.fptx, previous.fptx);
    FptxLaws.BatchedValue(p, hash, c.fptx, previous.fptx, tape[..n]);
    Kzg.BatchedValue(p, hash, c.kzg, previous.kzg, tape[n..]);
    var e, f := Fptx.BatchedEquation(p, hash, c.fptx, previous.fptx, tape[..n]), Kzg.BatchedEquation(p, hash, c.kzg, previous.kzg, tape[n..]);
    var t, u := FptxLaws.EquationTree(p, hash, c.fptx, previous.fptx), Kzg.EquationTree(p, hash, c.kzg, previous.kzg);
    RefinesOne(p, e, t, tape[..n]);
    RefinesOne(p, f, u, tape[n..]);
    RefinesAppend(p, [e], [t], tape[..n], [f], [u], tape[n..]);
    assert tape[..n] + tape[n..] == tape;
  }

  /** The equation of the verifier is the batching of the unbatched equations. */
  lemma BatchedValue(p: Order, hash: Hasher, c: Inner, previous: Inner, tape: seq<nat>)
    requires WellShaped(c) && |tape| == DrawCount(c, previous)
    ensures Draws(EquationTree(p, hash, c, previous)) == |tape|
    ensures Congruent(p, Value(BatchedEquation(p, hash, c, previous, tape)), Eval(EquationTree(p, hash, c, previous), tape))
  {
    hide Refines, Congruent, Value, Eval, Draws, CompactWith, Equations, Parts, PartsDrawCount;
    var n := PartsDrawCount(c, previous);
    PartsRefine(p, hash, c, previous, tape[..n]);
    assert tape[..n] + tape[n..] == tape;
    CompactRefines(p, Equations(p, hash, c, previous, tape[..n]), Parts(p, hash, c, previous), tape[..n], tape[n..]);
  }

  lemma TreeLayers(p: Order, hash: Hasher, c: Inner, previous: Inner)
    requires WellShaped(c)
    ensures Layers(EquationTree(p, hash, c, previous)) == 4
  {
    hide FptxLaws.EquationTree, Kzg.EquationTree, Layers;
    FptxLaws.TreeLayers(p, hash, c.fptx, previous.fptx);
    Kzg.TreeLayers(p, hash, c.kzg, previous.kzg);
    var t, u := FptxLaws.EquationTree(p, hash, c.fptx, previous.fptx), Kzg.EquationTree(p, hash, c.kzg, previous.kzg);
    OneLayer(t);
    OneLayer(u);
    DrawsAppend([t], [u]);
    FptxLaws.CompactedLayers([t] + [u]);
  }

  lemma OneLayer(t: Tree)
    ensures LayersOfAll([t]) == Layers(t)
  {
    assert [t][1..] == [];
  }

  // ---- Structure ----

  ghost predicate Structured(p: Order, c: Inner, params: Params) {
    Fptx.Canonical(p, c.fptx) && Kzg.Canonical(p, c.kzg) && FptxLaws.Structured(p, c.fptx, params.fptx) && Kzg.Structured(p, c.kzg, params.kzgMaxPower)
  }

  ghost predicate SoksHold(p: Order, hash: Hasher, c: Inner, previous: Inner) {
    && |c.fptx.alphasG2| == |c.fptx.soksAlphas|
    && PoT.SokHolds(p, hash, c.fptx.pot, previous.fptx.pot)
    && FptxLaws.SoksHold(p, hash, c.fptx, previous.fptx)
    && PoT.SokHolds(p, hash, c.kzg.pot, previous.kzg.pot)
    && Kzg.SokHolds(p, hash, c.kzg, previous.kzg)
  }

  ghost predicate EquationsHold(p: Order, hash: Hasher, c: Inner, previous: Inner) {
    WellShaped(c) && AllZero(p, EquationTree(p, hash, c, previous))
  }

  lemma PartsZeroIff(p: Order, hash: Hasher, c: Inner, previous: Inner)
    requires WellShaped(c)
    ensures EquationsHold(p, hash, c, previous)
       <==> AllZero(p, FptxLaws.EquationTree(p, hash, c.fptx, previous.fptx)) && AllZero(p, Kzg.EquationTree(p, hash, c.kzg, previous.kzg))
  {
    hide FptxLaws.EquationTree, Kzg.EquationTree;
    var t, u := FptxLaws.EquationTree(p, hash, c.fptx, previous.fptx), Kzg.EquationTree(p, hash, c.kzg, previous.kzg);
    assert forall part :: part in [t] + [u] <==> part == t || part == u;
  }

  /** The checks and all unbatched equations hold exactly when both parts are structured and
      all proofs of knowledge hold. */
  lemma StructuredIff(p: Order, hash: Hasher, c: Inner, previous: Inner, params: Params)
    requires Canonical(p, c) && params.fptx.batchSize > 0 && params.kzgMaxPower > 0
    ensures Check(c, params).Ok? && EquationsHold(p, hash, c, previous)
       <==> Structured(p, c, params) && SoksHold(p, hash, c, previous)
  {
    hide FptxLaws.EquationTree, Kzg.EquationTree, AllZero, Fptx.Canonical, Kzg.Canonical, EquationsHold,
      FptxLaws.SoksHold, PoT.SokHolds, Kzg.SokHolds, Kzg.Check, Fptx.Check, FptxLaws.RoundsAreShifted;
    FptxLaws.StructuredIff(p, hash, c.fptx, previous.fptx, params.fptx);
    Kzg.StructuredIff(p, hash, c.kzg, previous.kzg, params.kzgMaxPower);
    if Check(c, params).Ok? {
      CheckedIsWellShaped(c, params);
      PartsZeroIff(p, hash, c, previous);
    }
    if Structured(p, c, params) && SoksHold(p, hash, c, previous) {
      CheckedIsWellShaped(c, params);
      PartsZeroIff(p, hash, c, previous);
    }
  }

  /** The tapes on which `verify` accepts. */
  ghost function AcceptingTapes(p: Order, hash: Hasher, c: Inner, previous: Inner, params: Params): set<seq<nat>> {
    set tape | tape in Tapes(p, DrawCount(c, previous)) && |tape| == DrawCount(c, previous) && Accepts(p, hash, c, previous, params, tape).Ok?
  }

  lemma AcceptsIff(p: Order, hash: Hasher, c: Inner, previous: Inner, params: Params, tape: seq<nat>)
    requires |tape| == DrawCount(c, previous)
    ensures Accepts(p, hash, c, previous, params, tape).Ok?
       <==> Check(c, params).Ok? && WellShaped(c) && Batching.Accepts(p, EquationTree(p, hash, c, previous), tape)
  {
    hide IsZero, Value, Eval, Draws, BatchedEquation, EquationTree, Congruent;
    if Check(c, params).Ok? {
      CheckedIsWellShaped(c, params);
      BatchedValue(p, hash, c, previous, tape);
      CongruentZero(p, Value(BatchedEquation(p, hash, c, previous, tape)), Eval(EquationTree(p, hash, c, previous), tape));
    }
  }

  /** A contribution whose equations hold is accepted whatever is drawn. */
  lemma HoldsOnEveryTape(p: Order, hash: Hasher, c: Inner, previous: Inner, params: Params, tape: seq<nat>)
    requires Check(c, params).Ok? && EquationsHold(p, hash, c, previous) && |tape| == DrawCount(c, previous)
    ensures Accepts(p, hash, c, previous, params, tape) == Ok(Unit)
  {
    hide IsZero, AllZero, Value, Eval, Draws, BatchedEquation, EquationTree, Congruent;
    BatchedValue(p, hash, c, previous, tape);
    ZeroOnEveryTape(p, EquationTree(p, hash, c, previous), tape);
    AcceptsIff(p, hash, c, previous, params, tape);
  }

  /** Soundness of the batched verifier: a contribution that is not structured, or whose
      proofs of knowledge do not hold, is accepted on at most four in `p` of all tapes. */
  lemma Soundness(p: Order, hash: Hasher, c: Inner, previous: Inner, params: Params)
    requires Canonical(p, c)
    requires !(Structured(p, c, params) && SoksHold(p, hash, c, previous))
    ensures |AcceptingTapes(p, hash, c, previous, params)| * p <= 4 * Power(p, DrawCount(c, previous))
  {
    var A := AcceptingTapes(p, hash, c, previous, params);
    if !Check(c, params).Ok? {
      assert A == {};
    } else {
      CheckedIsWellShaped(c, params);
      StructuredIff(p, hash, c, previous, params);
      WrongEquations(p, hash, c, previous, params);
    }
  }

  lemma WrongEquations(p: Order, hash: Hasher, c: Inner, previous: Inner, params: Params)
    requires WellShaped(c) && !AllZero(p, EquationTree(p, hash, c, previous))
    ensures |AcceptingTapes(p, hash, c, previous, params)| * p <= 4 * Power(p, DrawCount(c, previous))
  {
    hide IsZero, AllZero, Value, Eval, Draws, EquationTree, Accepts, Check, WellShaped, DrawCount, Batching.Accepts;
    var t := EquationTree(p, hash, c, previous);
    var A := AcceptingTapes(p, hash, c, previous, params);
    TapesExact(p, DrawCount(c, previous));
    TreeDrawCount(p, hash, c, previous);
    forall tape | tape in A ensures tape in Batching.AcceptingTapes(p, t) {
      AcceptsIff(p, hash, c, previous, params, tape);
    }
    SubsetBound(A, Batching.AcceptingTapes(p, t));
    WrongLeafBound(p, t);
    TreeLayers(p, hash, c, previous);
    MultiplyMonotone(|A|, |Batching.AcceptingTapes(p, t)|, p);
  }

  lemma TreeDrawCount(p: Order, hash: Hasher, c: Inner, previous: Inner)
    requires WellShaped(c)
    ensures Draws(EquationTree(p, hash, c, previous)) == DrawCount(c, previous)
  {
    hide DrawCount, EquationTree, Draws, Eval, Congruent;
    BatchedValue(p, hash, c, previous, seq(DrawCount(c, previous), _ => 0));
  }

  // ---- Completeness ----

  ghost predicate SecretsInRange(p: Order, secrets: Secrets, params: Params) {
    FptxLaws.SecretsInRange(p, secrets.fptx, params.fptx) && secrets.kzg.tau < p && secrets.kzg.xi < p
  }

  ghost predicate AllNonzero(secrets: Secrets) {
    FptxLaws.AllNonzero(secrets.fptx) && secrets.kzg.tau != 0 && secrets.kzg.xi != 0
  }

  /** An honest step on a structured contribution succeeds. With nonzero secrets the result is
      structured again and accepted on every tape; with a zero secret it is refused. */
  lemma HonestStep(p: Order, hash: Hasher, previous: Inner, secrets: Secrets, params: Params, tape: seq<nat>)
    requires Structured(p, previous, params) && SecretsInRange(p, secrets, params)
    requires params.fptx.batchSize > 0 && params.kzgMaxPower > 0
    ensures Generate(p, hash, previous, secrets, params).Ok?
    ensures var c := Generate(p, hash, previous, secrets, params).value;
      && c.fptx.pot.tauG2 == Times(p, previous.fptx.pot.tauG2, secrets.fptx.tau)
      && c.fptx.alphasG2 == Fptx.NewAlphas(p, previous.fptx, secrets.fptx.alphas)
      && c.kzg.pot.tauG2 == Times(p, previous.kzg.pot.tauG2, secrets.kzg.tau)
      && c.kzg.xiG2 == Times(p, previous.kzg.xiG2, secrets.kzg.xi)
      && (|tape| == DrawCount(c, previous) ==>
          Accepts(p, hash, c, previous, params, tape) == if AllNonzero(secrets) then Ok(Unit) else Err(TrivialContribution))
      && (AllNonzero(secrets) ==> Structured(p, c, params) && SoksHold(p, hash, c, previous))
  {
    hide IsZero, AllZero, FptxLaws.EquationTree, Kzg.EquationTree, Times, EquationsHold, SoksHold, FptxLaws.Structured,
      Kzg.Structured, Kzg.Check, Fptx.Check, Fptx.Canonical, Kzg.Canonical, DrawCount, FptxLaws.AllNonzero;
    FptxLaws.HonestStep(p, hash, previous.fptx, secrets.fptx, params.fptx);
    Kzg.HonestStep(p, hash, previous.kzg, secrets.kzg, params.kzgMaxPower);
    var c := Generate(p, hash, previous, secrets, params).value;
    if AllNonzero(secrets) {
      CheckedIsWellShaped(c, params);
      PartsZeroIff(p, hash, c, previous);
      StructuredIff(p, hash, c, previous, params);
      if |tape| == DrawCount(c, previous) {
        HoldsOnEveryTape(p, hash, c, previous, params, tape);
      }
    }
  }

  lemma FirstIsStructured(p: Order, hash: Hasher, params: Params)
    ensures Structured(p, FirstContribution(p, hash, params), params)
  {
    FptxLaws.FirstIsStructured(p, hash, params.fptx);
    Kzg.FirstIsStructured(p, hash, params.kzgMaxPower);
  }

  /** Some contribution makes the verifier fail its own assertion exactly when one of the
      largest powers is zero; the first contribution is then one of them. */
  lemma PanicsIff(p: Order, hash: Hasher, params: Params)
    ensures (exists c :: Check(c, params).Panic?) <==> params.fptx.batchSize == 0 || params.kzgMaxPower == 0
    ensures params.fptx.batchSize == 0 || params.kzgMaxPower == 0 ==>
      Check(FirstContribution(p, hash, params), params).Panic?
  {
    var c := FirstContribution(p, hash, params);
    if params.fptx.batchSize == 0 {
      FptxLaws.FirstIsStructured(p, hash, params.fptx);
      FptxLaws.NewRowLengths(p, c.fptx, params.fptx);
      assert Check(c, params).Panic?;
    } else if params.kzgMaxPower == 0 {
      FptxLaws.FirstIsStructured(p, hash, params.fptx);
      FptxLaws.StructuredIsChecked(p, c.fptx, params.fptx);
      assert Check(c, params).Panic?;
    }
  }
}
