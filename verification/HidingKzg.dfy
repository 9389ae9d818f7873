/** The hiding-KZG contribution: powers of tau and a randomizing base xi in both groups. */
module HidingKzg {
  import opened PrimeField
  import opened Outcomes
  import opened MultipairingEquations
  import opened Batching
  import opened Refinement
  import opened BlsSok
  import PoT = PowersOfTau

  datatype Contribution = Contribution(pot: PoT.Powers, xiG1: nat, xiG2: nat, sokXi: nat)

  datatype Secrets = Secrets(tau: nat, xi: nat)

  ghost predicate Canonical(p: Order, c: Contribution) {
    PoT.Canonical(p, c.pot) && c.xiG1 < p && c.xiG2 < p && c.sokXi < p
  }

  function FirstContribution(p: Order, hash: Hasher, maxPower: nat): Contribution {
    Contribution(PoT.FirstContribution(p, hash, maxPower), 1, 1, Sign(p, hash, 1, EmptyString))
  }

  function Generate(p: Order, hash: Hasher, previous: Contribution, secrets: Secrets, maxPower: nat): Outcome<Contribution> {
    if |previous.pot.powers| != maxPower + 1 then Err(ParamsMismatch)
    else
      var (pot, _) :- PoT.Generate(p, hash, previous.pot, secrets.tau, maxPower);
      var newXiG2 := Times(p, previous.xiG2, secrets.xi);
      Ok(Contribution(
        pot,
        Times(p, previous.xiG1, secrets.xi),
        newXiG2,
        Sign(p, hash, secrets.xi, XiPreimage(previous.xiG1, previous.xiG2, newXiG2))))
  }

  function Check(c: Contribution, maxPower: nat): Outcome<Unit> {
    if |c.pot.powers| != maxPower + 1 then Err(ParamsMismatch)
    else if c.xiG2 == 0 then Err(TrivialContribution)
    else PoT.Check(c.pot, maxPower)
  }

  function XiSok(p: Order, hash: Hasher, c: Contribution, previous: Contribution): (eq: Equation)
    ensures Balanced(eq)
  {
    Verify(p, hash, c.sokXi, previous.xiG2, c.xiG2, XiPreimage(previous.xiG1, previous.xiG2, c.xiG2))
  }

  /** The two xi have the same discrete logarithm. */
  function XiConsistency(p: Order, c: Contribution): (eq: Equation)
    ensures Balanced(eq)
  {
    Simple([c.xiG1, 1], [Negate(p, 1), c.xiG2])
  }

  function DrawCount(c: Contribution): nat {
    |c.pot.powers| + 3
  }

  function Equations(p: Order, hash: Hasher, c: Contribution, previous: Contribution, tape: seq<nat>): (eqs: seq<Equation>)
    requires |c.pot.powers| >= 2 && |tape| == |c.pot.powers|
    ensures |eqs| == 3
    ensures forall eq | eq in eqs :: Balanced(eq)
  {
    [PoT.BatchedEquation(p, hash, c.pot, previous.pot, tape)] + [XiSok(p, hash, c, previous), XiConsistency(p, c)]
  }

  function BatchedEquation(p: Order, hash: Hasher, c: Contribution, previous: Contribution, tape: seq<nat>): (eq: Equation)
    requires |c.pot.powers| >= 2 && |tape| == DrawCount(c)
    ensures Balanced(eq)
  {
    var n := |c.pot.powers|;
    CompactWith(p, Equations(p, hash, c, previous, tape[..n]), tape[n..])
  }

  // ---- The unbatched equations ----

  ghost function Parts(p: Order, hash: Hasher, c: Contribution, previous: Contribution): seq<Tree>
    requires c.pot.powers != []
  {
    [PoT.EquationTree(p, hash, c.pot, previous.pot)] + Leaves(Values([XiSok(p, hash, c, previous), XiConsistency(p, c)]))
  }

  ghost function EquationTree(p: Order, hash: Hasher, c: Contribution, previous: Contribution): Tree
    requires c.pot.powers != []
  {
    Compacted(Parts(p, hash, c, previous))
  }

  lemma PartsRefine(p: Order, hash: Hasher, c: Contribution, previous: Contribution, tape: seq<nat>)
    requires |c.pot.powers| >= 2 && |tape| == |c.pot.powers|
    ensures Refines(p, Equations(p, hash, c, previous, tape), Parts(p, hash, c, previous), tape)
  {
    hide Refines, Congruent, Value, Eval, Draws;
    var pot := PoT.BatchedEquation(p, hash, c.pot, previous.pot, tape);
    var potTree := PoT.EquationTree(p, hash, c.pot, previous.pot);
    var rest := [XiSok(p, hash, c, previous), XiConsistency(p, c)];
    PoT.BatchedValue(p, hash, c.pot, previous.pot, tape);
    hide PoT.BatchedEquation, PoT.EquationTree, XiSok, XiConsistency;
    RefinesOne(p, pot, potTree, tape);
    RefinesLeaves(p, rest);
    RefinesAppend(p, [pot], [potTree], tape, rest, Leaves(Values(rest)), []);
    assert tape + [] == tape;
  }

  /** The equation of the verifier is the batching of the unbatched equations. */
  lemma BatchedValue(p: Order, hash: Hasher, c: Contribution, previous: Contribution, tape: seq<nat>)
    requires |c.pot.powers| >= 2 && |tape| == DrawCount(c)
    ensures Draws(EquationTree(p, hash, c, previous)) == |tape|
    ensures Congruent(p, Value(BatchedEquation(p, hash, c, previous, tape)), Eval(EquationTree(p, hash, c, previous), tape))
  {
    hide Refines, Congruent, Value, Eval, Draws, CompactWith, Equations, Parts;
    var n := |c.pot.powers|;
    PartsRefine(p, hash, c, previous, tape[..n]);
    assert tape[..n] + tape[n..] == tape;
    CompactRefines(p, Equations(p, hash, c, previous, tape[..n]), Parts(p, hash, c, previous), tape[..n], tape[n..]);
  }

  lemma TreeLayers(p: Order, hash: Hasher, c: Contribution, previous: Contribution)
    requires c.pot.powers != []
    ensures Layers(EquationTree(p, hash, c, previous)) == 3
  {
    var potTree := PoT.EquationTree(p, hash, c.pot, previous.pot);
    var rest := Values([XiSok(p, hash, c, previous), XiConsistency(p, c)]);
    PoT.TreeDraws(p, hash, c.pot, previous.pot);
    LeavesDraw(rest);
    DrawsAppend([potTree], Leaves(rest));
    assert [potTree][1..] == [];
  }

  // ---- Structure ----

  ghost predicate Structured(p: Order, c: Contribution, maxPower: nat) {
    PoT.Structured(p, c.pot, maxPower) && 0 < c.xiG2 < p && c.xiG1 == c.xiG2
  }

  ghost predicate SokHolds(p: Order, hash: Hasher, c: Contribution, previous: Contribution) {
    EqualsZero(p, XiSok(p, hash, c, previous))
  }

  lemma ConsistencyIff(p: Order, c: Contribution)
    requires Canonical(p, c)
    ensures EqualsZero(p, XiConsistency(p, c)) <==> c.xiG1 == c.xiG2
  {
    hide IsZero;
    var n: int, x: int, y: int := Negate(p, 1), c.xiG1, c.xiG2;
    DotStep([x, 1], [n, y]);
    DotStep([1], [y]);
    assert [x, 1][1..] == [1] && [n, y][1..] == [y];
    assert Dot([], []) == 0;
    assert Value(XiConsistency(p, c)) == x * n + y;
    ZeroMul(p, n + 1, x);
    assert (n + 1) * x == x * n + x;
    assert (x * n + y) - (y - x) == (n + 1) * x;
    ZeroTransfer(p, x * n + y, y - x);
    if IsZero(p, y - x) {
      CanonicalUnique(p, y, x);
    }
    ZeroIsZero(p);
  }

  lemma PartsZeroIff(p: Order, hash: Hasher, c: Contribution, previous: Contribution)
    requires c.pot.powers != []
    ensures AllZero(p, EquationTree(p, hash, c, previous))
       <==> AllZero(p, PoT.EquationTree(p, hash, c.pot, previous.pot)) && SokHolds(p, hash, c, previous) && EqualsZero(p, XiConsistency(p, c))
  {
    hide IsZero, PoT.EquationTree, XiSok, XiConsistency, Value;
    var potTree := PoT.EquationTree(p, hash, c.pot, previous.pot);
    var vs := Values([XiSok(p, hash, c, previous), XiConsistency(p, c)]);
    LeavesZero(p, vs);
    assert vs[0] == Value(XiSok(p, hash, c, previous)) && vs[1] == Value(XiConsistency(p, c));
    assert AllZero(p, Compacted(Leaves(vs))) <==> forall t | t in Leaves(vs) :: AllZero(p, t);
    assert forall t :: t in Parts(p, hash, c, previous) <==> t == potTree || t in Leaves(vs);
  }

  /** The checks and all unbatched equations hold exactly when the powers are those of one
      nonzero tau, both xi are the same nonzero one, and the proofs of knowledge hold. */
  lemma StructuredIff(p: Order, hash: Hasher, c: Contribution, previous: Contribution, maxPower: nat)
    requires Canonical(p, c) && maxPower > 0
    ensures Check(c, maxPower).Ok? && |c.pot.powers| > 0 && AllZero(p, EquationTree(p, hash, c, previous))
       <==> Structured(p, c, maxPower) && PoT.SokHolds(p, hash, c.pot, previous.pot) && SokHolds(p, hash, c, previous)
  {
    hide IsZero, AllZero, SokHolds, PoT.SokHolds, PoT.EquationTree, EquationTree, XiConsistency;
    PoT.StructuredIff(p, hash, c.pot, previous.pot, maxPower);
    ConsistencyIff(p, c);
    if |c.pot.powers| > 0 {
      PartsZeroIff(p, hash, c, previous);
    }
  }

  // ---- Completeness ----

  /** An honest step on a structured contribution multiplies tau and xi by the secrets; it is
      accepted exactly when no secret is zero. */
  lemma HonestStep(p: Order, hash: Hasher, previous: Contribution, secrets: Secrets, maxPower: nat)
    requires Structured(p, previous, maxPower) && maxPower > 0 && secrets.tau < p && secrets.xi < p
    ensures Generate(p, hash, previous, secrets, maxPower).Ok?
    ensures var c := Generate(p, hash, previous, secrets, maxPower).value;
      && c.pot.tauG2 == Times(p, previous.pot.tauG2, secrets.tau)
      && c.xiG2 == Times(p, previous.xiG2, secrets.xi)
      && Canonical(p, c) && |c.pot.powers| == maxPower + 1
      && (secrets.tau != 0 && secrets.xi != 0 ==>
            Structured(p, c, maxPower) && Check(c, maxPower).Ok? && AllZero(p, EquationTree(p, hash, c, previous)))
      && (secrets.tau == 0 || secrets.xi == 0 ==> Check(c, maxPower) == Err(TrivialContribution))
  {
    hide IsZero, AllZero, PoT.EquationTree, EquationTree, Times, Sign, EqualsZero, Verify;
    PoT.HonestStep(p, hash, previous.pot, secrets.tau, maxPower);
    var c := Generate(p, hash, previous, secrets, maxPower).value;
    PoT.ProductNonzero(p, previous.xiG2, secrets.xi);
    PoT.StructuredIff(p, hash, c.pot, previous.pot, maxPower);
    HonestSignature(p, hash, secrets.xi, previous.xiG2, XiPreimage(previous.xiG1, previous.xiG2, c.xiG2));
    StructuredIff(p, hash, c, previous, maxPower);
  }

  lemma FirstIsStructured(p: Order, hash: Hasher, maxPower: nat)
    ensures var c := FirstContribution(p, hash, maxPower);
      Structured(p, c, maxPower) && Canonical(p, c) && c.pot.tauG2 == 1 && c.xiG2 == 1
  {
    hide IsZero;
    PoT.FirstIsStructured(p, hash, maxPower);
  }
}
