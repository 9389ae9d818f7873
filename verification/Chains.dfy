/** Whole chains of inner contributions: honest ones, and all that the equations accept. */
module Chains {
  import opened PrimeField
  import opened Outcomes
  import opened MultipairingEquations
  import opened BlsSok
  import opened Aptos

  /** The product of scalars, as a group element. */
  function Product(p: Order, secrets: seq<nat>): (x: nat)
    ensures x < p
  {
    if secrets == [] then 1 else Times(p, Product(p, secrets[..|secrets| - 1]), secrets[|secrets| - 1])
  }

  lemma ProductGrows(p: Order, secrets: seq<nat>, s: nat)
    ensures Product(p, secrets + [s]) == Times(p, Product(p, secrets), s)
  {
    hide Times;
    var all := secrets + [s];
    assert all[..|all| - 1] == secrets;
  }

  // ---- Honest chains ----

  function Taus(secrets: seq<Secrets>): (r: seq<nat>) {
    seq(|secrets|, i requires 0 <= i < |secrets| => secrets[i].fptx.tau)
  }

  function Alphas(secrets: seq<Secrets>, j: nat): (r: seq<nat>) {
    seq(|secrets|, i requires 0 <= i < |secrets| => Alpha(secrets[i], j))
  }

  function Alpha(s: Secrets, j: nat): nat {
    if j < |s.fptx.alphas| then s.fptx.alphas[j] else 0
  }

  function KzgTaus(secrets: seq<Secrets>): (r: seq<nat>) {
    seq(|secrets|, i requires 0 <= i < |secrets| => secrets[i].kzg.tau)
  }

  function Xis(secrets: seq<Secrets>): (r: seq<nat>) {
    seq(|secrets|, i requires 0 <= i < |secrets| => secrets[i].kzg.xi)
  }

  ghost predicate Usable(p: Order, params: Params, secrets: seq<Secrets>) {
    forall s | s in secrets :: SecretsInRange(p, s, params)
  }

  predicate Shaped(params: Params, secrets: seq<Secrets>) {
    forall s | s in secrets :: |s.fptx.alphas| == params.fptx.numRounds
  }

  ghost predicate NoneZero(secrets: seq<Secrets>) {
    forall s | s in secrets :: AllNonzero(s)
  }

  lemma UsableIsShaped(p: Order, params: Params, secrets: seq<Secrets>)
    requires Usable(p, params, secrets)
    ensures Shaped(params, secrets)
  {
  }

  lemma WithoutLast(p: Order, params: Params, secrets: seq<Secrets>)
    requires Usable(p, params, secrets) && NoneZero(secrets) && secrets != []
    ensures Usable(p, params, secrets[..|secrets| - 1]) && NoneZero(secrets[..|secrets| - 1])
    ensures Shaped(params, secrets[..|secrets| - 1])
    ensures AllNonzero(secrets[|secrets| - 1]) && SecretsInRange(p, secrets[|secrets| - 1], params)
    ensures |secrets[|secrets| - 1].fptx.alphas| == params.fptx.numRounds
    ensures secrets[..|secrets| - 1] + [secrets[|secrets| - 1]] == secrets
  {
    UsableIsShaped(p, params, secrets[..|secrets| - 1]);
    assert secrets[|secrets| - 1] in secrets;
  }

  /** One contribution after another, each generated from the one before. */
  function Honest(p: Order, hash: Hasher, params: Params, secrets: seq<Secrets>): Outcome<Inner>
    requires Shaped(params, secrets)
  {
    if secrets == [] then Ok(FirstContribution(p, hash, params))
    else
      var previous :- Honest(p, hash, params, secrets[..|secrets| - 1]);
      Generate(p, hash, previous, secrets[|secrets| - 1], params)
  }

  /** Structured with the tau, the alphas and the xi that are the products of all secrets. */
  ghost predicate ProductOf(p: Order, params: Params, c: Inner, secrets: seq<Secrets>)
    requires Usable(p, params, secrets)
  {
    && Structured(p, c, params)
    && c.fptx.pot.tauG2 == Product(p, Taus(secrets))
    && (forall j | 0 <= j < params.fptx.numRounds :: c.fptx.alphasG2[j] == Product(p, Alphas(secrets, j)))
    && c.kzg.pot.tauG2 == Product(p, KzgTaus(secrets))
    && c.kzg.xiG2 == Product(p, Xis(secrets))
  }

  lemma FirstIsProduct(p: Order, hash: Hasher, params: Params)
    ensures ProductOf(p, params, FirstContribution(p, hash, params), [])
  {
    hide Times, Sign;
    FirstIsStructured(p, hash, params);
    FptxLaws.FirstIsStructured(p, hash, params.fptx);
  }

  lemma ColumnsGrow(p: Order, params: Params, secrets: seq<Secrets>, s: Secrets)
    requires Usable(p, params, secrets + [s])
    ensures Taus(secrets + [s]) == Taus(secrets) + [s.fptx.tau]
    ensures KzgTaus(secrets + [s]) == KzgTaus(secrets) + [s.kzg.tau]
    ensures Xis(secrets + [s]) == Xis(secrets) + [s.kzg.xi]
    ensures Usable(p, params, secrets) && SecretsInRange(p, s, params)
    ensures forall j | 0 <= j < params.fptx.numRounds :: Alphas(secrets + [s], j) == Alphas(secrets, j) + [Alpha(s, j)]
  {
    assert s in secrets + [s];
    assert forall t | t in secrets :: t in secrets + [s];
  }

  lemma NextIsProduct(p: Order, hash: Hasher, params: Params, previous: Inner, secrets: seq<Secrets>, s: Secrets)
    requires Usable(p, params, secrets + [s]) && Usable(p, params, secrets)
    requires ProductOf(p, params, previous, secrets) && AllNonzero(s)
    requires params.fptx.batchSize > 0 && params.kzgMaxPower > 0
    ensures s in secrets + [s] && Generate(p, hash, previous, s, params).Ok?
    ensures ProductOf(p, params, Generate(p, hash, previous, s, params).value, secrets + [s])
  {
    hide Times, Structured, Generate, AllNonzero, FptxLaws.SecretsInRange, SoksHold, Product, Taus, KzgTaus, Xis, Alphas,
      DrawCount, Accepts;
    ColumnsGrow(p, params, secrets, s);
    HonestStep(p, hash, previous, s, params, []);
    ProductGrows(p, Taus(secrets), s.fptx.tau);
    ProductGrows(p, KzgTaus(secrets), s.kzg.tau);
    ProductGrows(p, Xis(secrets), s.kzg.xi);
    RoundCounts(p, previous, s, params);
    var c := Generate(p, hash, previous, s, params).value;
    forall j | 0 <= j < params.fptx.numRounds ensures c.fptx.alphasG2[j] == Product(p, Alphas(secrets + [s], j)) {
      ProductGrows(p, Alphas(secrets, j), Alpha(s, j));
    }
  }

  lemma RoundCounts(p: Order, c: Inner, s: Secrets, params: Params)
    requires Structured(p, c, params) && SecretsInRange(p, s, params)
    ensures |c.fptx.alphasG2| == |s.fptx.alphas| == params.fptx.numRounds
  {
    hide IsZero, PoT.Structured;
  }

  /** Completeness over whole chains: however many contributors there are, with nonzero secrets
      every contribution is generated, is structured, holds the products of all secrets so far,
      and is accepted against the one before it whatever the verifier draws. */
  lemma {:induction false} HonestChain(p: Order, hash: Hasher, params: Params, secrets: seq<Secrets>, tape: seq<nat>)
    requires Usable(p, params, secrets) && Shaped(params, secrets) && NoneZero(secrets)
    requires params.fptx.batchSize > 0 && params.kzgMaxPower > 0
    ensures secrets != [] ==> Shaped(params, secrets[..|secrets| - 1])
    ensures Honest(p, hash, params, secrets).Ok?
    ensures ProductOf(p, params, Honest(p, hash, params, secrets).value, secrets)
    ensures secrets != [] ==>
      && Honest(p, hash, params, secrets[..|secrets| - 1]).Ok?
      && var c, previous := Honest(p, hash, params, secrets).value, Honest(p, hash, params, secrets[..|secrets| - 1]).value;
        |tape| == DrawCount(c, previous) ==> Accepts(p, hash, c, previous, params, tape) == Ok(Unit)
  {
    hide Structured, Generate, AllNonzero, SecretsInRange, SoksHold, Accepts, DrawCount, ProductOf, FirstContribution, Usable, Shaped, NoneZero;
    if secrets == [] {
      FirstIsProduct(p, hash, params);
    } else {
      var rest, s := secrets[..|secrets| - 1], secrets[|secrets| - 1];
      WithoutLast(p, params, secrets);
      HonestChain(p, hash, params, rest, tape);
      var previous := Honest(p, hash, params, rest).value;
      NextIsProduct(p, hash, params, previous, rest, s);
      ProductIsStructured(p, params, previous, rest);
      HonestStep(p, hash, previous, s, params, tape);
    }
  }

  lemma ProductIsStructured(p: Order, params: Params, c: Inner, secrets: seq<Secrets>)
    requires Usable(p, params, secrets) && ProductOf(p, params, c, secrets)
    ensures Structured(p, c, params)
  {
  }

  // ---- Every accepted chain ----

  /** Each key is the one before it times a secret that also made the signature. */
  ghost predicate Signed(p: Order, hash: Hasher, keys: seq<nat>, sigs: seq<nat>, msgs: seq<Preimage>, secrets: seq<nat>) {
    && |keys| == |secrets| + 1 && |sigs| == |msgs| == |secrets|
    && forall i | 0 <= i < |secrets| :: Known(p, hash, sigs[i], keys[i], keys[i + 1], msgs[i], secrets[i])
  }

  ghost predicate Verified(p: Order, hash: Hasher, keys: seq<nat>, sigs: seq<nat>, msgs: seq<Preimage>) {
    && |keys| == |sigs| + 1 && |sigs| == |msgs|
    && (forall i | 0 <= i < |keys| :: 0 < keys[i] < p)
    && forall i | 0 <= i < |sigs| :: sigs[i] < p && EqualsZero(p, Verify(p, hash, sigs[i], keys[i], keys[i + 1], msgs[i]))
  }

  lemma {:induction false} Extract(p: Order, hash: Hasher, keys: seq<nat>, sigs: seq<nat>, msgs: seq<Preimage>) returns (secrets: seq<nat>)
    requires Verified(p, hash, keys, sigs, msgs)
    ensures Signed(p, hash, keys, sigs, msgs, secrets)
    decreases |sigs|
  {
    hide IsZero, Known, EqualsZero;
    if sigs == [] {
      secrets := [];
    } else {
      var n := |sigs| - 1;
      var rest := Extract(p, hash, keys[..n + 1], sigs[..n], msgs[..n]);
      CanonicalNonzero(p, keys[n]);
      VerifyIffKnown(p, hash, sigs[n], keys[n], keys[n + 1], msgs[n]);
      var s: nat :| Known(p, hash, sigs[n], keys[n], keys[n + 1], msgs[n], s);
      secrets := rest + [s];
    }
  }

  lemma {:induction false} SignedProduct(p: Order, hash: Hasher, keys: seq<nat>, sigs: seq<nat>, msgs: seq<Preimage>, secrets: seq<nat>)
    requires Signed(p, hash, keys, sigs, msgs, secrets) && keys[0] == 1
    ensures keys[|secrets|] == Product(p, secrets)
    decreases |secrets|
  {
    hide IsZero, Times, Sign;
    if secrets != [] {
      var n := |secrets| - 1;
      SignedProduct(p, hash, keys[..n + 1], sigs[..n], msgs[..n], secrets[..n]);
      assert Known(p, hash, sigs[n], keys[n], keys[n + 1], msgs[n], secrets[n]);
    }
  }

  /** A chain from the first contribution on in which every contribution is structured and all
      its proofs of knowledge hold. */
  ghost predicate SoundChain(p: Order, hash: Hasher, params: Params, cs: seq<Inner>) {
    && cs != [] && cs[0] == FirstContribution(p, hash, params)
    && forall i | 1 <= i < |cs| :: Structured(p, cs[i], params) && SoksHold(p, hash, cs[i], cs[i - 1])
  }

  lemma SoundIsStructured(p: Order, hash: Hasher, params: Params, cs: seq<Inner>, i: nat)
    requires SoundChain(p, hash, params, cs) && i < |cs|
    ensures Structured(p, cs[i], params)
  {
    if i == 0 {
      FirstIsStructured(p, hash, params);
    }
  }

  /** The parts of a contribution that carry a proof of knowledge. */
  datatype Part = TauPart | AlphaPart(round: nat) | KzgTauPart | XiPart

  predicate InRounds(part: Part, params: Params) {
    part.AlphaPart? ==> part.round < params.fptx.numRounds
  }

  ghost function KeyOf(c: Inner, part: Part): nat {
    match part
    case TauPart => c.fptx.pot.tauG2
    case AlphaPart(j) => if j < |c.fptx.alphasG2| then c.fptx.alphasG2[j] else 0
    case KzgTauPart => c.kzg.pot.tauG2
    case XiPart => c.kzg.xiG2
  }

  ghost function SokOf(c: Inner, part: Part): nat {
    match part
    case TauPart => c.fptx.pot.sok
    case AlphaPart(j) => if j < |c.fptx.soksAlphas| then c.fptx.soksAlphas[j] else 0
    case KzgTauPart => c.kzg.pot.sok
    case XiPart => c.kzg.sokXi
  }

  ghost function MessageOf(c: Inner, previous: Inner, part: Part): Preimage {
    match part
    case TauPart => TauPreimage(KeyOf(previous, part), KeyOf(c, part))
    case AlphaPart(j) => AlphaPreimage(KeyOf(previous, part), KeyOf(c, part), j)
    case KzgTauPart => TauPreimage(KeyOf(previous, part), KeyOf(c, part))
    case XiPart => XiPreimage(previous.kzg.xiG1, previous.kzg.xiG2, c.kzg.xiG2)
  }

  ghost function KeysOf(cs: seq<Inner>, part: Part): seq<nat> {
    seq(|cs|, i requires 0 <= i < |cs| => KeyOf(cs[i], part))
  }

  ghost function SoksOf(cs: seq<Inner>, part: Part): seq<nat>
    requires cs != []
  {
    seq(|cs| - 1, i requires 0 <= i < |cs| - 1 => SokOf(cs[i + 1], part))
  }

  ghost function MessagesOf(cs: seq<Inner>, part: Part): seq<Preimage>
    requires cs != []
  {
    seq(|cs| - 1, i requires 0 <= i < |cs| - 1 => MessageOf(cs[i + 1], cs[i], part))
  }

  lemma PartInRange(p: Order, c: Inner, params: Params, part: Part)
    requires Structured(p, c, params) && InRounds(part, params)
    ensures 0 < KeyOf(c, part) < p && SokOf(c, part) < p
  {
    hide IsZero, FptxLaws.RoundsAreShifted, PoT.ArePowers;
  }

  lemma PartVerifies(p: Order, hash: Hasher, c: Inner, previous: Inner, params: Params, part: Part)
    requires Structured(p, c, params) && Structured(p, previous, params) && SoksHold(p, hash, c, previous) && InRounds(part, params)
    ensures EqualsZero(p, Verify(p, hash, SokOf(c, part), KeyOf(previous, part), KeyOf(c, part), MessageOf(c, previous, part)))
  {
    hide IsZero, EqualsZero, FptxLaws.RoundsAreShifted, PoT.ArePowers;
    if part.AlphaPart? {
      assert EqualsZero(p, Fptx.AlphaSok(p, hash, c.fptx, previous.fptx, part.round));
    }
  }

  /** The product formula: in a chain that the equations accept, the tau, every alpha and the xi
      are the products of one secret for each contributor, and these secrets made the proofs of
      knowledge in the contributions. */
  lemma SoundChainProduct(p: Order, hash: Hasher, params: Params, cs: seq<Inner>, part: Part)
    requires SoundChain(p, hash, params, cs) && InRounds(part, params)
    ensures exists secrets: seq<nat> ::
      && Signed(p, hash, KeysOf(cs, part), SoksOf(cs, part), MessagesOf(cs, part), secrets)
      && KeyOf(cs[|cs| - 1], part) == Product(p, secrets)
  {
    hide IsZero, EqualsZero, Verify, Product, Structured, SoksHold, FirstContribution, KeyOf, SokOf, MessageOf;
    var keys, sigs, msgs := KeysOf(cs, part), SoksOf(cs, part), MessagesOf(cs, part);
    forall i | 0 <= i < |keys| ensures 0 < keys[i] < p {
      SoundIsStructured(p, hash, params, cs, i);
      PartInRange(p, cs[i], params, part);
    }
    forall i | 0 <= i < |sigs| ensures sigs[i] < p && EqualsZero(p, Verify(p, hash, sigs[i], keys[i], keys[i + 1], msgs[i])) {
      SoundIsStructured(p, hash, params, cs, i);
      SoundIsStructured(p, hash, params, cs, i + 1);
      PartInRange(p, cs[i + 1], params, part);
      PartVerifies(p, hash, cs[i + 1], cs[i], params, part);
    }
    var secrets := Extract(p, hash, keys, sigs, msgs);
    FirstPart(p, hash, params, part);
    SignedProduct(p, hash, keys, sigs, msgs, secrets);
    assert keys[|secrets|] == KeyOf(cs[|cs| - 1], part);
  }

  lemma FirstPart(p: Order, hash: Hasher, params: Params, part: Part)
    requires InRounds(part, params)
    ensures KeyOf(FirstContribution(p, hash, params), part) == 1
  {
  }
}
