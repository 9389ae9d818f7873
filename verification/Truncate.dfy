/** Cutting a contribution down to a smaller batch size. */
module Truncate {
  import opened PrimeField
  import opened Outcomes
  import opened MultipairingEquations
  import opened Batching
  import opened BlsSok
  import Aptos
  import Contributions
  import Fptx
  import FptxLaws
  import Kzg = HidingKzg
  import PoT = PowersOfTau

  /** `Vec::truncate`. */
  function Cut<T>(xs: seq<T>, n: nat): (r: seq<T>)
    ensures |r| == PoT.Min(n, |xs|) && r <= xs
  {
    if n < |xs| then xs[..n] else xs
  }

  function CutPowers(c: PoT.Powers, len: nat): PoT.Powers {
    c.(powers := Cut(c.powers, len + 1))
  }

  function CutFptx(c: Fptx.Contribution, len: nat): Fptx.Contribution {
    c.(pot := CutPowers(c.pot, len),
       randomized := seq(|c.randomized|, j requires 0 <= j < |c.randomized| => Cut(c.randomized[j], len + 1)))
  }

  function CutInner(c: Aptos.Inner, len: nat): Aptos.Inner {
    c.(fptx := CutFptx(c.fptx, len))
  }

  function CutContribution(c: Contributions.Contribution, len: nat): Contributions.Contribution {
    c.(inner := CutInner(c.inner, len))
  }

  /** A contribution that is truncated in place, one vector after the other. */
  class Truncatable {
    var contribution: Contributions.Contribution

    constructor (c: Contributions.Contribution)
      ensures contribution == c
    {
      contribution := c;
    }

    method TruncatePowers(len: nat)
      modifies this
      ensures contribution == old(contribution).(inner := old(contribution.inner).(fptx :=
        old(contribution.inner.fptx).(pot := CutPowers(old(contribution.inner.fptx.pot), len))))
    {
      var fptx := contribution.inner.fptx;
      var pot := fptx.pot.(powers := Cut(fptx.pot.powers, len + 1));
      contribution := contribution.(inner := contribution.inner.(fptx := fptx.(pot := pot)));
    }

    method TruncateRow(j: nat, len: nat)
      requires j < |contribution.inner.fptx.randomized|
      modifies this
      ensures contribution == old(contribution).(inner := old(contribution.inner).(fptx :=
        old(contribution.inner.fptx).(randomized :=
          old(contribution.inner.fptx.randomized)[j := Cut(old(contribution.inner.fptx.randomized[j]), len + 1)])))
    {
      var fptx := contribution.inner.fptx;
      var rows := fptx.randomized[j := Cut(fptx.randomized[j], len + 1)];
      contribution := contribution.(inner := contribution.inner.(fptx := fptx.(randomized := rows)));
    }

    method Truncate(len: nat)
      modifies this
      ensures contribution == CutContribution(old(contribution), len)
    {
      ghost var was := contribution;
      ghost var rows := contribution.inner.fptx.randomized;
      TruncatePowers(len);
      var j := 0;
      while j < |contribution.inner.fptx.randomized|
        invariant j <= |rows| == |contribution.inner.fptx.randomized|
        invariant forall i | 0 <= i < j :: contribution.inner.fptx.randomized[i] == Cut(rows[i], len + 1)
        invariant forall i | j <= i < |rows| :: contribution.inner.fptx.randomized[i] == rows[i]
        invariant contribution == was.(inner := was.inner.(fptx := was.inner.fptx.(
          pot := CutPowers(was.inner.fptx.pot, len), randomized := contribution.inner.fptx.randomized)))
      {
        TruncateRow(j, len);
        j := j + 1;
      }
      assert contribution.inner.fptx.randomized == CutFptx(was.inner.fptx, len).randomized;
    }
  }

  // ---- Truncating and contributing ----

  /** The powers match the params and every round has as many entries. */
  predicate ShapeIs(c: Fptx.Contribution, params: Fptx.Params) {
    && |c.pot.powers| == params.batchSize + 1
    && |c.alphasG2| == |c.soksAlphas| == |c.randomized| == params.numRounds
    && forall j | 0 <= j < |c.randomized| :: |c.randomized[j]| == params.batchSize + 1
  }

  lemma PowersPrefix(p: Order, tau: nat, m: nat, n: nat)
    requires m <= n
    ensures PoT.SecretPowers(p, tau, m) == PoT.SecretPowers(p, tau, n)[..m]
  {
    hide IsZero, PoT.PowerOf;
    forall i | 0 <= i < m ensures PoT.SecretPowers(p, tau, m)[i] == PoT.SecretPowers(p, tau, n)[i] {
      PoT.SecretPowersAre(p, tau, m, i);
      PoT.SecretPowersAre(p, tau, n, i);
    }
  }

  lemma CutPowersGenerate(p: Order, hash: Hasher, previous: PoT.Powers, tau: nat, maxPower: nat, len: nat)
    requires |previous.powers| == maxPower + 1 && len <= maxPower
    ensures PoT.Generate(p, hash, previous, tau, maxPower).Ok? && PoT.Generate(p, hash, CutPowers(previous, len), tau, len).Ok?
    ensures PoT.Generate(p, hash, CutPowers(previous, len), tau, len).value.0
         == CutPowers(PoT.Generate(p, hash, previous, tau, maxPower).value.0, len)
    ensures PoT.Generate(p, hash, CutPowers(previous, len), tau, len).value.1
         == PoT.Generate(p, hash, previous, tau, maxPower).value.1[..len + 1]
  {
    hide IsZero, Times, Sign;
    PowersPrefix(p, tau, len + 1, maxPower + 1);
    var small := PoT.Generate(p, hash, CutPowers(previous, len), tau, len).value.0;
    var big := CutPowers(PoT.Generate(p, hash, previous, tau, maxPower).value.0, len);
    hide PoT.SecretPowers;
    assert small.powers == big.powers;
  }

  lemma CutRow(p: Order, tauPowers: seq<nat>, alphas: seq<nat>, j: nat, row: seq<nat>, len: nat)
    requires j < |alphas| && |row| == |tauPowers| && len < |tauPowers|
    ensures PoT.ScaleEach(p, Fptx.RandomizedPowers(p, tauPowers[..len + 1], alphas)[j], Cut(row, len + 1))
         == Cut(PoT.ScaleEach(p, Fptx.RandomizedPowers(p, tauPowers, alphas)[j], row), len + 1)
  {
    hide IsZero, Times;
  }

  /** Truncating commutes with contributing: with the same secrets, truncating the new
      contribution gives the contribution made on the truncated previous one. */
  lemma TruncateGenerate(p: Order, hash: Hasher, previous: Fptx.Contribution, secrets: Fptx.Secrets, params: Fptx.Params, len: nat)
    requires ShapeIs(previous, params) && len <= params.batchSize && |secrets.alphas| == params.numRounds
    ensures var small := params.(batchSize := len);
      && Fptx.Generate(p, hash, previous, secrets, params).Ok?
      && Fptx.Generate(p, hash, CutFptx(previous, len), secrets, small)
         == Ok(CutFptx(Fptx.Generate(p, hash, previous, secrets, params).value, len))
  {
    hide IsZero, Times, Sign, Cut, PoT.ScaleEach, Fptx.RandomizedPowers, Fptx.NewAlphas, Fptx.NewSoks, PoT.Generate;
    CutPowersGenerate(p, hash, previous.pot, secrets.tau, params.batchSize, len);
    var small := Fptx.Generate(p, hash, CutFptx(previous, len), secrets, params.(batchSize := len)).value;
    var big := CutFptx(Fptx.Generate(p, hash, previous, secrets, params).value, len);
    var tauPowers := PoT.Generate(p, hash, previous.pot, secrets.tau, params.batchSize).value.1;
    PowersLength(p, hash, previous.pot, secrets.tau, params.batchSize);
    forall j | 0 <= j < params.numRounds ensures small.randomized[j] == big.randomized[j] {
      CutRow(p, tauPowers, secrets.alphas, j, previous.randomized[j], len);
    }
    SameRounds(p, hash, previous, CutFptx(previous, len), secrets.alphas);
    assert small.randomized == big.randomized;
  }

  lemma PowersLength(p: Order, hash: Hasher, previous: PoT.Powers, tau: nat, maxPower: nat)
    requires |previous.powers| == maxPower + 1
    ensures |PoT.Generate(p, hash, previous, tau, maxPower).value.1| == maxPower + 1
  {
  }

  lemma SameRounds(p: Order, hash: Hasher, c: Fptx.Contribution, d: Fptx.Contribution, alphas: seq<nat>)
    requires c.alphasG2 == d.alphasG2 && |c.alphasG2| == |alphas|
    ensures Fptx.NewAlphas(p, c, alphas) == Fptx.NewAlphas(p, d, alphas)
    ensures Fptx.NewSoks(p, hash, c, alphas) == Fptx.NewSoks(p, hash, d, alphas)
  {
    hide IsZero, Times, Sign;
  }

  // ---- Truncating and verifying ----

  lemma CutIsStructured(p: Order, c: Fptx.Contribution, params: Fptx.Params, len: nat)
    requires FptxLaws.Structured(p, c, params) && Fptx.Canonical(p, c) && len <= params.batchSize
    ensures FptxLaws.Structured(p, CutFptx(c, len), params.(batchSize := len))
    ensures Fptx.Canonical(p, CutFptx(c, len))
  {
    hide IsZero, Times, PoT.PowerOf;
    var d := CutFptx(c, len);
    forall j | 0 <= j < |d.randomized| ensures FptxLaws.ShiftedByAlpha(p, d.alphasG2[j], d.randomized[j], d.pot.powers) {
      assert FptxLaws.ShiftedByAlpha(p, c.alphasG2[j], c.randomized[j], c.pot.powers);
    }
    forall row | row in d.randomized ensures InRange(p, row) {
      var j :| 0 <= j < |d.randomized| && d.randomized[j] == row;
      assert InRange(p, c.randomized[j]) by {
        assert c.randomized[j] in c.randomized;
      }
    }
  }

  /** The proofs of knowledge do not depend on the vectors that are cut. */
  lemma CutSoks(p: Order, hash: Hasher, c: Fptx.Contribution, previous: Fptx.Contribution, len: nat)
    requires |c.alphasG2| == |c.soksAlphas|
    ensures PoT.SokHolds(p, hash, CutPowers(c.pot, len), CutPowers(previous.pot, len)) <==> PoT.SokHolds(p, hash, c.pot, previous.pot)
    ensures FptxLaws.SoksHold(p, hash, CutFptx(c, len), CutFptx(previous, len)) <==> FptxLaws.SoksHold(p, hash, c, previous)
  {
    hide IsZero, EqualsZero, Verify, Cut;
    assert forall j | 0 <= j < |c.alphasG2| && j < |previous.alphasG2| ::
      Fptx.AlphaSok(p, hash, CutFptx(c, len), CutFptx(previous, len), j) == Fptx.AlphaSok(p, hash, c, previous, j);
  }

  /** Truncating keeps validity: a pair that meets all unbatched equations meets them under the
      smaller params after both are truncated. */
  lemma TruncateKeepsValid(p: Order, hash: Hasher, c: Fptx.Contribution, previous: Fptx.Contribution, params: Fptx.Params, len: nat)
    requires Fptx.Canonical(p, c) && 1 <= len <= params.batchSize
    requires Fptx.Check(c, params).Ok? && AllZero(p, FptxLaws.EquationTree(p, hash, c, previous))
    ensures var small := params.(batchSize := len);
      Fptx.Check(CutFptx(c, len), small).Ok? && AllZero(p, FptxLaws.EquationTree(p, hash, CutFptx(c, len), CutFptx(previous, len)))
  {
    hide IsZero, AllZero, FptxLaws.EquationTree, FptxLaws.SoksHold, PoT.SokHolds, CutPowers, FptxLaws.Structured, Fptx.Canonical, Fptx.Check;
    FptxLaws.StructuredIff(p, hash, c, previous, params);
    SoksMatch(p, c, params);
    CutIsStructured(p, c, params, len);
    CutSoks(p, hash, c, previous, len);
    FptxLaws.StructuredIff(p, hash, CutFptx(c, len), CutFptx(previous, len), params.(batchSize := len));
  }

  lemma SoksMatch(p: Order, c: Fptx.Contribution, params: Fptx.Params)
    requires FptxLaws.Structured(p, c, params)
    ensures |c.alphasG2| == |c.soksAlphas|
  {
  }

  /** The same for the contribution of the ceremony: truncated, it is accepted against the
      truncated previous one whatever is drawn. */
  lemma TruncatedIsAccepted(p: Order, hash: Hasher, c: Aptos.Inner, previous: Aptos.Inner, params: Aptos.Params, len: nat, tape: seq<nat>)
    requires Aptos.Structured(p, c, params) && Aptos.SoksHold(p, hash, c, previous)
    requires 1 <= len <= params.fptx.batchSize && params.kzgMaxPower > 0
    requires |tape| == Aptos.DrawCount(CutInner(c, len), CutInner(previous, len))
    ensures var small := params.(fptx := params.fptx.(batchSize := len));
      Aptos.Check(CutInner(c, len), small).Ok?
      && Aptos.Accepts(p, hash, CutInner(c, len), CutInner(previous, len), small, tape) == Ok(Unit)
  {
    hide IsZero, FptxLaws.Structured, Fptx.Canonical, Kzg.Structured, Kzg.Canonical, FptxLaws.SoksHold, PoT.SokHolds, Kzg.SokHolds, CutPowers,
      Aptos.DrawCount, Aptos.Accepts, Aptos.EquationsHold, Aptos.Check;
    var small := params.(fptx := params.fptx.(batchSize := len));
    CutIsStructured(p, c.fptx, params.fptx, len);
    CutSoks(p, hash, c.fptx, previous.fptx, len);
    Aptos.StructuredIff(p, hash, CutInner(c, len), CutInner(previous, len), small);
    Aptos.HoldsOnEveryTape(p, hash, CutInner(c, len), CutInner(previous, len), small, tape);
  }

  /** Truncating changes a contribution exactly when there is something to cut. */
  lemma CutIsSameIff(c: Contributions.Contribution, params: Fptx.Params, len: nat)
    requires ShapeIs(c.inner.fptx, params)
    ensures CutContribution(c, len) == c <==> params.batchSize <= len
  {
    if params.batchSize <= len {
      assert CutFptx(c.inner.fptx, len).randomized == c.inner.fptx.randomized;
    } else {
      assert |CutContribution(c, len).inner.fptx.pot.powers| == len + 1;
    }
  }

  /** The lists of hashes are not adjusted: a truncated contribution lists the truncated previous
      one exactly when nothing is cut, or the previous one and its truncation show a collision. */
  lemma TruncatedListIffUncut(lib: Contributions.Library, c: Contributions.Contribution, previous: Contributions.Contribution,
      params: Fptx.Params, len: nat)
    requires Contributions.Linked(lib, [previous, c]) && ShapeIs(previous.inner.fptx, params)
    ensures Contributions.Linked(lib, [CutContribution(previous, len), CutContribution(c, len)])
       <==> params.batchSize <= len || Contributions.Collision(lib, CutContribution(previous, len), previous)
  {
    hide Contributions.Hash, Contributions.PreviousHashes, ShapeIs, Contributions.Linked;
    var cut := CutContribution(previous, len);
    Contributions.LinkedPair(lib, previous, c);
    Contributions.LinkedPair(lib, cut, CutContribution(c, len));
    CutIsSameIff(previous, params, len);
    SameListIff(lib, previous, cut);
  }

  lemma SameListIff(lib: Contributions.Library, c: Contributions.Contribution, d: Contributions.Contribution)
    requires c.contributor == d.contributor && c.previousHashes == d.previousHashes
    ensures Contributions.PreviousHashes(lib, c) == Contributions.PreviousHashes(lib, d) <==> Contributions.Hash(lib, c) == Contributions.Hash(lib, d)
  {
    hide Contributions.Hash;
    if Contributions.PreviousHashes(lib, c) == Contributions.PreviousHashes(lib, d) {
      Contributions.SameLists(lib, c, d);
    }
  }

  /** So a sound pair, truncated, is accepted under the smaller params exactly then, whatever is
      drawn, and otherwise refused for its list. */
  lemma TruncatedVerdict(lib: Contributions.Library, c: Contributions.Contribution, previous: Contributions.Contribution,
      params: Aptos.Params, len: nat, tape: seq<nat>)
    requires Contributions.Linked(lib, [previous, c])
    requires Aptos.Structured(lib.p, previous.inner, params) && Aptos.Structured(lib.p, c.inner, params)
    requires Aptos.SoksHold(lib.p, lib.hashToPoint, c.inner, previous.inner)
    requires 1 <= len <= params.fptx.batchSize && params.kzgMaxPower > 0
    ensures Contributions.Verify(lib, CutContribution(c, len), Some(CutContribution(previous, len)),
                params.(fptx := params.fptx.(batchSize := len)), tape)
         == if len == params.fptx.batchSize || Contributions.Collision(lib, CutContribution(previous, len), previous) then Ok(Unit)
            else Err(ContributionHashMismatch)
  {
    hide Aptos.Structured, Aptos.SoksHold, Aptos.Accepts, Aptos.DrawCount, ShapeIs, Contributions.PreviousHashes, Contributions.Linked,
      Contributions.Collision, Contributions.Drawn;
    var cut, cutPrevious := CutContribution(c, len), CutContribution(previous, len);
    StructuredShape(lib.p, previous.inner, params);
    TruncatedListIffUncut(lib, c, previous, params.fptx, len);
    Contributions.LinkedPair(lib, cutPrevious, cut);
    TruncatedIsAccepted(lib.p, lib.hashToPoint, c.inner, previous.inner, params, len,
      Contributions.Drawn(lib.p, tape, Aptos.DrawCount(cut.inner, cutPrevious.inner)));
  }

  lemma StructuredShape(p: Order, c: Aptos.Inner, params: Aptos.Params)
    requires Aptos.Structured(p, c, params)
    ensures ShapeIs(c.fptx, params.fptx)
  {
    hide IsZero;
    forall j | 0 <= j < |c.fptx.randomized| ensures |c.fptx.randomized[j]| == params.fptx.batchSize + 1 {
      assert FptxLaws.ShiftedByAlpha(p, c.fptx.alphasG2[j], c.fptx.randomized[j], c.fptx.pot.powers);
    }
  }
}
