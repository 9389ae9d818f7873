/** What the FPTX verifier establishes, and when an honest contributor passes it. */
module FptxLaws {
  import opened PrimeField
  import opened Outcomes
  import opened MultipairingEquations
  import opened Batching
  import opened Refinement
  import opened BlsSok
  import opened Fptx

  // ---- The unbatched equations ----

  ghost function ShiftValues(p: Order, alpha: nat, row: seq<nat>, powers: seq<nat>): (vs: seq<int>)
    requires |row| == |powers|
    ensures |vs| == |row|
  {
    RowValues(ShiftedPairs(row, powers), AlphaG2s(p, alpha))
  }

  ghost function ShiftTrees(p: Order, alphas: seq<nat>, rows: seq<seq<nat>>, powers: seq<nat>): (ts: seq<Tree>)
    requires |alphas| == |rows|
    requires forall row | row in rows :: |row| == |powers|
    ensures |ts| == |rows|
  {
    seq(|rows|, j requires 0 <= j < |rows| => Compacted(Leaves(ShiftValues(p, alphas[j], rows[j], powers))))
  }

  ghost function Parts(p: Order, hash: Hasher, c: Contribution, previous: Contribution): seq<Tree>
    requires WellShaped(c)
  {
    [PoT.EquationTree(p, hash, c.pot, previous.pot)]
    + Leaves(Values(SokEquations(p, hash, c, previous)))
    + ShiftTrees(p, c.alphasG2, c.randomized, c.pot.powers)
  }

  ghost function EquationTree(p: Order, hash: Hasher, c: Contribution, previous: Contribution): Tree
    requires WellShaped(c)
  {
    Compacted(Parts(p, hash, c, previous))
  }

  // ---- The batched equation refines them ----

  lemma OneShift(p: Order, alpha: nat, row: seq<nat>, powers: seq<nat>, tape: seq<nat>)
    requires |row| == |powers| == |tape| > 0
    ensures var eq := WithSharedG2s(p, tape, ShiftedPairs(row, powers), AlphaG2s(p, alpha));
      Refines(p, [eq], [Compacted(Leaves(ShiftValues(p, alpha, row, powers)))], tape)
  {
    hide Congruent, Value, Dot, WithSharedG2s, Refines, Eval;
    SharedValue(p, tape, ShiftedPairs(row, powers), AlphaG2s(p, alpha));
    LeavesTree(ShiftValues(p, alpha, row, powers), tape);
    RefinesOne(p, WithSharedG2s(p, tape, ShiftedPairs(row, powers), AlphaG2s(p, alpha)),
      Compacted(Leaves(ShiftValues(p, alpha, row, powers))), tape);
  }

  ghost function ShiftEquation(p: Order, alpha: nat, row: seq<nat>, powers: seq<nat>, tape: seq<nat>): (eq: Equation)
    requires |row| == |powers| && powers != [] && |tape| >= |powers|
    ensures Balanced(eq)
  {
    WithSharedG2s(p, tape[..|powers|], ShiftedPairs(row, powers), AlphaG2s(p, alpha))
  }

  lemma ShiftStep(p: Order, alphas: seq<nat>, rows: seq<seq<nat>>, powers: seq<nat>, tape: seq<nat>)
    requires |alphas| == |rows| > 0 && powers != []
    requires forall row | row in rows :: |row| == |powers|
    requires |tape| == ShiftDraws(rows, |powers|)
    ensures |tape| >= |powers| && |tape[|powers|..]| == ShiftDraws(rows[1..], |powers|)
    ensures ShiftEquations(p, alphas, rows, powers, tape)
         == [ShiftEquation(p, alphas[0], rows[0], powers, tape)]
            + ShiftEquations(p, alphas[1..], rows[1..], powers, tape[|powers|..])
    ensures ShiftTrees(p, alphas, rows, powers)
         == [Compacted(Leaves(ShiftValues(p, alphas[0], rows[0], powers)))] + ShiftTrees(p, alphas[1..], rows[1..], powers)
  {
    hide WithSharedG2s, ShiftValues;
  }

  lemma {:induction false} ShiftsRefine(p: Order, alphas: seq<nat>, rows: seq<seq<nat>>, powers: seq<nat>, tape: seq<nat>)
    requires |alphas| == |rows| && powers != []
    requires forall row | row in rows :: |row| == |powers|
    requires |tape| == ShiftDraws(rows, |powers|)
    ensures Refines(p, ShiftEquations(p, alphas, rows, powers, tape), ShiftTrees(p, alphas, rows, powers), tape)
    decreases rows
  {
    hide Refines, ShiftEquations, ShiftTrees;
    if rows == [] {
      NoShifts(p, alphas, rows, powers, tape);
    } else {
      var w := |powers|;
      ShiftStep(p, alphas, rows, powers, tape);
      OneShift(p, alphas[0], rows[0], powers, tape[..w]);
      ShiftsRefine(p, alphas[1..], rows[1..], powers, tape[w..]);
      RefinesAppend(p,
        [ShiftEquation(p, alphas[0], rows[0], powers, tape)],
        [Compacted(Leaves(ShiftValues(p, alphas[0], rows[0], powers)))], tape[..w],
        ShiftEquations(p, alphas[1..], rows[1..], powers, tape[w..]), ShiftTrees(p, alphas[1..], rows[1..], powers), tape[w..]);
      assert tape[..w] + tape[w..] == tape;
    }
  }

  lemma NoShifts(p: Order, alphas: seq<nat>, rows: seq<seq<nat>>, powers: seq<nat>, tape: seq<nat>)
    requires alphas == [] && rows == [] && tape == [] && powers != []
    ensures Refines(p, ShiftEquations(p, alphas, rows, powers, tape), ShiftTrees(p, alphas, rows, powers), tape)
  {
    RefinesNothing(p);
    assert ShiftTrees(p, alphas, rows, powers) == [];
  }

  lemma PotAndSoksRefine(p: Order, hash: Hasher, c: Contribution, previous: Contribution, tape: seq<nat>)
    requires WellShaped(c) && |tape| == |c.pot.powers|
    ensures Refines(p, [PoT.BatchedEquation(p, hash, c.pot, previous.pot, tape)] + SokEquations(p, hash, c, previous),
      [PoT.EquationTree(p, hash, c.pot, previous.pot)] + Leaves(Values(SokEquations(p, hash, c, previous))), tape)
  {
    hide Refines, Congruent, Value, Eval, Draws;
    var pot := PoT.BatchedEquation(p, hash, c.pot, previous.pot, tape);
    var soks := SokEquations(p, hash, c, previous);
    var potTree := PoT.EquationTree(p, hash, c.pot, previous.pot);
    PoT.BatchedValue(p, hash, c.pot, previous.pot, tape);
    hide PoT.BatchedEquation, PoT.EquationTree, SokEquations;
    RefinesOne(p, pot, potTree, tape);
    RefinesLeaves(p, soks);
    RefinesAppend(p, [pot], [potTree], tape, soks, Leaves(Values(soks)), []);
    assert tape + [] == tape;
  }

  lemma PartsRefine(p: Order, hash: Hasher, c: Contribution, previous: Contribution, tape: seq<nat>)
    requires WellShaped(c) && |tape| == PartsDrawCount(c)
    ensures Refines(p, Equations(p, hash, c, previous, tape), Parts(p, hash, c, previous), tape)
  {
    hide Refines, ShiftEquations, ShiftTrees, PoT.BatchedEquation, PoT.EquationTree, SokEquations;
    var n := |c.pot.powers|;
    var eqs := [PoT.BatchedEquation(p, hash, c.pot, previous.pot, tape[..n])] + SokEquations(p, hash, c, previous);
    var ts := [PoT.EquationTree(p, hash, c.pot, previous.pot)] + Leaves(Values(SokEquations(p, hash, c, previous)));
    PotAndSoksRefine(p, hash, c, previous, tape[..n]);
    ShiftsRefine(p, c.alphasG2, c.randomized, c.pot.powers, tape[n..]);
    RefinesAppend(p, eqs, ts, tape[..n],
      ShiftEquations(p, c.alphasG2, c.randomized, c.pot.powers, tape[n..]),
      ShiftTrees(p, c.alphasG2, c.randomized, c.pot.powers), tape[n..]);
    assert tape[..n] + tape[n..] == tape;
  }

  /** The equation of the verifier is the batching of the unbatched equations. */
  lemma BatchedValue(p: Order, hash: Hasher, c: Contribution, previous: Contribution, tape: seq<nat>)
    requires WellShaped(c) && |tape| == DrawCount(c, previous)
    ensures Draws(EquationTree(p, hash, c, previous)) == |tape|
    ensures Congruent(p, Value(BatchedEquation(p, hash, c, previous, tape)), Eval(EquationTree(p, hash, c, previous), tape))
  {
    hide Refines, Congruent, Value, Eval, Draws, CompactWith, Equations, Parts;
    var n := PartsDrawCount(c);
    PartsRefine(p, hash, c, previous, tape[..n]);
    assert tape[..n] + tape[n..] == tape;
    CompactRefines(p, Equations(p, hash, c, previous, tape[..n]), Parts(p, hash, c, previous), tape[..n], tape[n..]);
  }

  lemma {:induction false} ShiftLayers(p: Order, alphas: seq<nat>, rows: seq<seq<nat>>, powers: seq<nat>)
    requires |alphas| == |rows|
    requires forall row | row in rows :: |row| == |powers|
    ensures LayersOfAll(ShiftTrees(p, alphas, rows, powers)) <= 1
    decreases rows
  {
    if rows != [] {
      ShiftLayers(p, alphas[1..], rows[1..], powers);
      assert ShiftTrees(p, alphas, rows, powers)[1..] == ShiftTrees(p, alphas[1..], rows[1..], powers);
      LeavesDraw(ShiftValues(p, alphas[0], rows[0], powers));
    }
  }

  lemma TreeLayers(p: Order, hash: Hasher, c: Contribution, previous: Contribution)
    requires WellShaped(c)
    ensures Layers(EquationTree(p, hash, c, previous)) == 3
  {
    hide Layers;
    var potTree := PoT.EquationTree(p, hash, c.pot, previous.pot);
    var soks := Leaves(Values(SokEquations(p, hash, c, previous)));
    var shifts := ShiftTrees(p, c.alphasG2, c.randomized, c.pot.powers);
    PoT.TreeDraws(p, hash, c.pot, previous.pot);
    assert LayersOfAll([potTree]) == 2 by {
      assert [potTree][1..] == [];
    }
    LeavesDraw(Values(SokEquations(p, hash, c, previous)));
    ShiftLayers(p, c.alphasG2, c.randomized, c.pot.powers);
    DrawsAppend([potTree], soks);
    DrawsAppend([potTree] + soks, shifts);
    CompactedLayers(Parts(p, hash, c, previous));
  }

  lemma CompactedLayers(ts: seq<Tree>)
    ensures Layers(Compacted(ts)) == LayersOfAll(ts) + 1
  {
  }

  // ---- Structure ----

  /** Every round holds the powers of tau shifted by its alpha. */
  ghost predicate ShiftedByAlpha(p: Order, alpha: nat, row: seq<nat>, powers: seq<nat>) {
    |row| == |powers| && forall i | 0 <= i < |row| :: row[i] == Times(p, powers[i], alpha)
  }

  ghost predicate RoundsAreShifted(p: Order, c: Contribution) {
    && |c.randomized| == |c.alphasG2|
    && forall j | 0 <= j < |c.randomized| :: ShiftedByAlpha(p, c.alphasG2[j], c.randomized[j], c.pot.powers)
  }

  ghost predicate Structured(p: Order, c: Contribution, params: Params) {
    && PoT.Structured(p, c.pot, params.batchSize)
    && |c.alphasG2| == |c.soksAlphas| == params.numRounds
    && (forall j | 0 <= j < |c.alphasG2| :: 0 < c.alphasG2[j] < p)
    && RoundsAreShifted(p, c)
  }

  /** In a structured contribution entry i of round j is alpha_j times the i-th power of tau. */
  lemma StructuredEntries(p: Order, c: Contribution, params: Params, j: nat, i: nat)
    requires Structured(p, c, params) && j < params.numRounds && i <= params.batchSize
    ensures |c.randomized| == params.numRounds && |c.randomized[j]| == params.batchSize + 1
    ensures c.randomized[j][i] == Reduce(p, c.alphasG2[j] * Pow(c.pot.tauG2, i))
  {
    hide IsZero;
    var alpha, tau := c.alphasG2[j], c.pot.tauG2;
    assert ShiftedByAlpha(p, alpha, c.randomized[j], c.pot.powers);
    var x := PoT.PowerOf(p, tau, i);
    ZeroIsZero(p);
    ZeroProduct(p, x, Pow(tau, i), alpha, alpha);
    assert Pow(tau, i) * alpha == alpha * Pow(tau, i);
    SameReduce(p, x * alpha, alpha * Pow(tau, i));
  }

  ghost predicate SoksHold(p: Order, hash: Hasher, c: Contribution, previous: Contribution)
    requires |c.alphasG2| == |c.soksAlphas|
  {
    forall j | 0 <= j < |c.alphasG2| && j < |previous.alphasG2| :: EqualsZero(p, AlphaSok(p, hash, c, previous, j))
  }

  // ---- Soundness of the unbatched equations ----

  lemma ShiftTreeIff(p: Order, alpha: nat, row: seq<nat>, powers: seq<nat>)
    requires |row| == |powers| && InRange(p, row)
    ensures AllZero(p, Compacted(Leaves(ShiftValues(p, alpha, row, powers)))) <==> ShiftedByAlpha(p, alpha, row, powers)
  {
    hide IsZero, AllZero, Dot;
    var vs := ShiftValues(p, alpha, row, powers);
    LeavesZero(p, vs);
    forall i | 0 <= i < |row| ensures IsZero(p, vs[i]) <==> row[i] == Times(p, powers[i], alpha) {
      PoT.RowMeaning(p, row[i], powers[i], alpha);
    }
  }

  lemma ShiftTreesIff(p: Order, c: Contribution)
    requires WellShaped(c) && Canonical(p, c)
    ensures (forall t | t in ShiftTrees(p, c.alphasG2, c.randomized, c.pot.powers) :: AllZero(p, t)) <==> RoundsAreShifted(p, c)
  {
    hide IsZero, AllZero, ShiftValues, ShiftedByAlpha;
    var ts := ShiftTrees(p, c.alphasG2, c.randomized, c.pot.powers);
    forall j | 0 <= j < |ts|
      ensures AllZero(p, ts[j]) <==> ShiftedByAlpha(p, c.alphasG2[j], c.randomized[j], c.pot.powers)
    {
      assert c.randomized[j] in c.randomized;
      ShiftTreeIff(p, c.alphasG2[j], c.randomized[j], c.pot.powers);
    }
    if RoundsAreShifted(p, c) {
      forall t | t in ts ensures AllZero(p, t) {
        var j :| 0 <= j < |ts| && ts[j] == t;
      }
    } else {
      var j :| 0 <= j < |ts| && !ShiftedByAlpha(p, c.alphasG2[j], c.randomized[j], c.pot.powers);
      assert ts[j] in ts;
    }
  }

  lemma SokLeavesIff(p: Order, hash: Hasher, c: Contribution, previous: Contribution)
    requires |c.alphasG2| == |c.soksAlphas|
    ensures (forall t | t in Leaves(Values(SokEquations(p, hash, c, previous))) :: AllZero(p, t)) <==> SoksHold(p, hash, c, previous)
  {
    hide IsZero, Value;
    var vs := Values(SokEquations(p, hash, c, previous));
    LeavesZero(p, vs);
    assert AllZero(p, Compacted(Leaves(vs))) <==> forall t | t in Leaves(vs) :: AllZero(p, t);
    forall j | 0 <= j < |vs| ensures IsZero(p, vs[j]) <==> EqualsZero(p, AlphaSok(p, hash, c, previous, j)) {
    }
  }

  lemma PartsZeroIff(p: Order, hash: Hasher, c: Contribution, previous: Contribution)
    requires WellShaped(c) && Canonical(p, c)
    ensures AllZero(p, EquationTree(p, hash, c, previous))
       <==> AllZero(p, PoT.EquationTree(p, hash, c.pot, previous.pot)) && SoksHold(p, hash, c, previous) && RoundsAreShifted(p, c)
  {
    hide IsZero, AllZero, ShiftTrees, SoksHold, RoundsAreShifted, PoT.EquationTree, Leaves, SokEquations;
    SokLeavesIff(p, hash, c, previous);
    ShiftTreesIff(p, c);
    CompactedZero(p, PoT.EquationTree(p, hash, c.pot, previous.pot),
      Leaves(Values(SokEquations(p, hash, c, previous))),
      ShiftTrees(p, c.alphasG2, c.randomized, c.pot.powers));
  }

  lemma CompactedZero(p: Order, t: Tree, us: seq<Tree>, vs: seq<Tree>)
    ensures AllZero(p, Compacted([t] + us + vs))
       <==> AllZero(p, t) && (forall u | u in us :: AllZero(p, u)) && (forall v | v in vs :: AllZero(p, v))
  {
    var all := [t] + us + vs;
    assert AllZero(p, Compacted(all)) <==> forall part | part in all :: AllZero(p, part);
    hide AllZero;
    assert forall part :: part in all <==> part == t || part in us || part in vs;
  }

  /** The checks and all unbatched equations hold exactly when the contribution is structured
      and every proof of knowledge holds. */
  lemma StructuredIff(p: Order, hash: Hasher, c: Contribution, previous: Contribution, params: Params)
    requires Canonical(p, c) && params.batchSize > 0
    ensures Check(c, params).Ok? && AllZero(p, EquationTree(p, hash, c, previous))
       <==> Structured(p, c, params) && PoT.SokHolds(p, hash, c.pot, previous.pot) && SoksHold(p, hash, c, previous)
  {
    hide IsZero, AllZero, SoksHold, PoT.SokHolds, PoT.EquationTree, EquationTree;
    PoT.StructuredIff(p, hash, c.pot, previous.pot, params.batchSize);
    if Check(c, params).Ok? {
      CheckedIsWellShaped(c, params);
      PartsZeroIff(p, hash, c, previous);
      assert forall j | 0 <= j < |c.alphasG2| :: c.alphasG2[j] in c.alphasG2;
    }
    if Structured(p, c, params) {
      StructuredIsChecked(p, c, params);
      PartsZeroIff(p, hash, c, previous);
    }
  }

  lemma StructuredIsChecked(p: Order, c: Contribution, params: Params)
    requires Structured(p, c, params) && params.batchSize > 0
    ensures Check(c, params).Ok? && WellShaped(c)
  {
    hide PoT.PowerOf, Times;
    PoT.PowersAreSteps(p, c.pot);
    forall row | row in c.randomized ensures |row| == params.batchSize + 1 {
      var j :| 0 <= j < |c.randomized| && c.randomized[j] == row;
      assert ShiftedByAlpha(p, c.alphasG2[j], c.randomized[j], c.pot.powers);
    }
  }

  // ---- Completeness ----

  ghost predicate SecretsInRange(p: Order, secrets: Secrets, params: Params) {
    |secrets.alphas| == params.numRounds && InRange(p, secrets.alphas) && secrets.tau < p
  }

  ghost predicate AllNonzero(secrets: Secrets) {
    secrets.tau != 0 && 0 !in secrets.alphas
  }

  /** (alpha * tau^i) * (t^i * a) is (alpha * a) * (tau * t)^i. */
  lemma ScaledShift(p: Order, x: nat, alpha: nat, y: nat, a: nat)
    ensures Times(p, Times(p, x, alpha), Times(p, y, a)) == Times(p, Times(p, x, y), Times(p, alpha, a))
  {
    hide IsZero;
    ZeroProduct(p, Times(p, x, alpha), x * alpha, Times(p, y, a), y * a);
    ZeroProduct(p, Times(p, x, y), x * y, Times(p, alpha, a), alpha * a);
    Regroup(x, alpha, y, a);
    ZeroNegate(p, Times(p, x, y) * Times(p, alpha, a) - (x * y) * (alpha * a));
    ZeroChain(p, Times(p, x, alpha) * Times(p, y, a), (x * alpha) * (y * a), Times(p, x, y) * Times(p, alpha, a));
    SameReduce(p, Times(p, x, alpha) * Times(p, y, a), Times(p, x, y) * Times(p, alpha, a));
  }

  lemma NewRoundsAreShifted(p: Order, hash: Hasher, previous: Contribution, secrets: Secrets, params: Params)
    requires Structured(p, previous, params) && params.batchSize > 0 && SecretsInRange(p, secrets, params)
    ensures Generate(p, hash, previous, secrets, params).Ok?
    ensures RoundsAreShifted(p, Generate(p, hash, previous, secrets, params).value)
  {
    hide IsZero, Times;
    PoT.HonestStep(p, hash, previous.pot, secrets.tau, params.batchSize);
    var c := Generate(p, hash, previous, secrets, params).value;
    var tauPowers := PoT.SecretPowers(p, secrets.tau, params.batchSize + 1);
    forall j | 0 <= j < |c.randomized| ensures ShiftedByAlpha(p, c.alphasG2[j], c.randomized[j], c.pot.powers) {
      assert ShiftedByAlpha(p, previous.alphasG2[j], previous.randomized[j], previous.pot.powers);
      forall i | 0 <= i < |c.randomized[j]| ensures c.randomized[j][i] == Times(p, c.pot.powers[i], c.alphasG2[j]) {
        ScaledShift(p, previous.pot.powers[i], previous.alphasG2[j], tauPowers[i], secrets.alphas[j]);
      }
    }
  }

  lemma NewAlphasNonzero(p: Order, hash: Hasher, previous: Contribution, secrets: Secrets, params: Params)
    requires Structured(p, previous, params) && SecretsInRange(p, secrets, params)
    ensures var alphas := NewAlphas(p, previous, secrets.alphas);
      (0 in alphas <==> 0 in secrets.alphas) && InRange(p, alphas)
  {
    hide IsZero, Times;
    var alphas := NewAlphas(p, previous, secrets.alphas);
    forall j | 0 <= j < |alphas| ensures alphas[j] == 0 <==> secrets.alphas[j] == 0 {
      PoT.ProductNonzero(p, previous.alphasG2[j], secrets.alphas[j]);
    }
    if 0 in alphas {
      var j :| 0 <= j < |alphas| && alphas[j] == 0;
      assert secrets.alphas[j] == 0;
    }
    if 0 in secrets.alphas {
      var j :| 0 <= j < |secrets.alphas| && secrets.alphas[j] == 0;
      assert alphas[j] == 0;
    }
  }

  lemma NewSoksHold(p: Order, hash: Hasher, previous: Contribution, secrets: Secrets, params: Params)
    requires |previous.alphasG2| == params.numRounds == |secrets.alphas|
    requires Generate(p, hash, previous, secrets, params).Ok?
    ensures var c := Generate(p, hash, previous, secrets, params).value;
      |c.alphasG2| == |c.soksAlphas| && SoksHold(p, hash, c, previous)
  {
    hide IsZero, Times, EqualsZero, Sign, Verify;
    var c := Generate(p, hash, previous, secrets, params).value;
    forall j | 0 <= j < |c.alphasG2| ensures EqualsZero(p, AlphaSok(p, hash, c, previous, j)) {
      HonestSignature(p, hash, secrets.alphas[j], previous.alphasG2[j], AlphaPreimage(previous.alphasG2[j], c.alphasG2[j], j));
    }
  }

  lemma NewIsCanonical(p: Order, hash: Hasher, previous: Contribution, secrets: Secrets, params: Params)
    requires Structured(p, previous, params) && params.batchSize > 0 && SecretsInRange(p, secrets, params)
    requires Generate(p, hash, previous, secrets, params).Ok?
    ensures Canonical(p, Generate(p, hash, previous, secrets, params).value)
  {
    hide IsZero;
    PoT.HonestStep(p, hash, previous.pot, secrets.tau, params.batchSize);
  }

  /** An honest step on a structured contribution multiplies tau and every alpha by the
      secrets; it is accepted exactly when no secret is zero. */
  lemma HonestStep(p: Order, hash: Hasher, previous: Contribution, secrets: Secrets, params: Params)
    requires Structured(p, previous, params) && params.batchSize > 0 && SecretsInRange(p, secrets, params)
    ensures Generate(p, hash, previous, secrets, params).Ok?
    ensures var c := Generate(p, hash, previous, secrets, params).value;
      && c.pot.tauG2 == Times(p, previous.pot.tauG2, secrets.tau)
      && c.alphasG2 == NewAlphas(p, previous, secrets.alphas)
      && Canonical(p, c)
      && (AllNonzero(secrets) ==>
            Structured(p, c, params) && Check(c, params).Ok? && AllZero(p, EquationTree(p, hash, c, previous)))
      && (!AllNonzero(secrets) ==> Check(c, params) == Err(TrivialContribution))
  {
    hide IsZero, AllZero, PoT.EquationTree, EquationTree, Times, Sign;
    PoT.HonestStep(p, hash, previous.pot, secrets.tau, params.batchSize);
    NewRoundsAreShifted(p, hash, previous, secrets, params);
    NewAlphasNonzero(p, hash, previous, secrets, params);
    NewSoksHold(p, hash, previous, secrets, params);
    NewIsCanonical(p, hash, previous, secrets, params);
    var c := Generate(p, hash, previous, secrets, params).value;
    PoT.StructuredIff(p, hash, c.pot, previous.pot, params.batchSize);
    if AllNonzero(secrets) {
      StructuredIff(p, hash, c, previous, params);
    } else {
      NewRowLengths(p, c, params);
    }
  }

  lemma NewRowLengths(p: Order, c: Contribution, params: Params)
    requires RoundsAreShifted(p, c) && |c.pot.powers| == params.batchSize + 1
    ensures forall row | row in c.randomized :: |row| == params.batchSize + 1
  {
    forall row | row in c.randomized ensures |row| == params.batchSize + 1 {
      var j :| 0 <= j < |c.randomized| && c.randomized[j] == row;
      assert ShiftedByAlpha(p, c.alphasG2[j], c.randomized[j], c.pot.powers);
    }
  }

  lemma FirstIsStructured(p: Order, hash: Hasher, params: Params)
    ensures var c := FirstContribution(p, hash, params);
      && Structured(p, c, params) && Canonical(p, c)
      && c.pot.tauG2 == 1 && forall j | 0 <= j < |c.alphasG2| :: c.alphasG2[j] == 1
  {
    hide IsZero;
    PoT.FirstIsStructured(p, hash, params.batchSize);
    CanonicalReduce(p, 1);
    var c := FirstContribution(p, hash, params);
    assert 1 * 1 == 1;
    forall j | 0 <= j < |c.randomized| ensures ShiftedByAlpha(p, c.alphasG2[j], c.randomized[j], c.pot.powers) {
    }
  }
}
