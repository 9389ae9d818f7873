/** The contribution as it is stored: the inner one, its contributor, and the hashes of all
    contributions before it. */
module Contributions {
  import opened PrimeField
  import opened Outcomes
  import opened Octets
  import opened BlsSok
  import opened ContributorsDb
  import Aptos

  datatype Contributor = Contributor(name: string, email: string, verifyingKey: Key)

  datatype Contribution = Contribution(
    inner: Aptos.Inner,
    contributor: Contributor,
    previousHashes: seq<(Contributor, Bytes)>)

  /** The field, the hashes and the byte format, which come from libraries. */
  datatype Library = Library(
    p: Order,
    hashToPoint: Hasher,
    toBytes: Contribution -> Bytes,
    fromBytes: Bytes -> Decoded<Contribution>,
    blake3: Bytes -> Bytes)

  function Hash(lib: Library, c: Contribution): Bytes {
    lib.blake3(lib.toBytes(c))
  }

  function PreviousHashes(lib: Library, previous: Contribution): seq<(Contributor, Bytes)> {
    previous.previousHashes + [(previous.contributor, Hash(lib, previous))]
  }

  /** `build_previous_hashes`: a copy of the list of the previous contribution, and one more. It
      is the only list with which a contribution is linked to that one. */
  method BuildPreviousHashes(lib: Library, previous: Contribution) returns (r: seq<(Contributor, Bytes)>)
    ensures |r| == |previous.previousHashes| + 1 && previous.previousHashes <= r
    ensures r[|r| - 1].0 == previous.contributor && r[|r| - 1].1 == Hash(lib, previous)
    ensures forall c: Contribution :: c.previousHashes == r <==> Linked(lib, [previous, c])
  {
    hide Hash, Linked;
    r := previous.previousHashes;
    r := r + [(previous.contributor, Hash(lib, previous))];
    forall c: Contribution ensures c.previousHashes == r <==> Linked(lib, [previous, c]) {
      LinkedPair(lib, previous, c);
    }
  }

  /** The inner contribution that a new one is built on. */
  function Base(lib: Library, maybePrevious: Option<Contribution>, params: Aptos.Params): Aptos.Inner {
    match maybePrevious
    case None => Aptos.FirstContribution(lib.p, lib.hashToPoint, params)
    case Some(previous) => previous.inner
  }

  function Generate(lib: Library, maybePrevious: Option<Contribution>, contributor: Contributor, secrets: Aptos.Secrets, params: Aptos.Params): Outcome<Contribution>
    requires |secrets.fptx.alphas| == params.fptx.numRounds
  {
    var inner :- Aptos.Generate(lib.p, lib.hashToPoint, Base(lib, maybePrevious, params), secrets, params);
    var previousHashes := match maybePrevious
      case None => []
      case Some(previous) => PreviousHashes(lib, previous);
    Ok(Contribution(inner, contributor, previousHashes))
  }

  /** The result lists everything that the previous one lists, and the previous one. */
  method GenerateContribution(lib: Library, maybePrevious: Option<Contribution>, contributor: Contributor, secrets: Aptos.Secrets,
      params: Aptos.Params) returns (r: Outcome<Contribution>)
    requires |secrets.fptx.alphas| == params.fptx.numRounds
    ensures r == Generate(lib, maybePrevious, contributor, secrets, params)
    ensures r.Ok? ==> Linked(lib, if maybePrevious.Some? then [maybePrevious.value, r.value] else [r.value])
    ensures r.Ok? ==> r.value.contributor == contributor && (maybePrevious.None? ==> r.value.previousHashes == [])
  {
    hide Aptos.Generate, Aptos.FirstContribution, Hash;
    var previousHashes := [];
    if maybePrevious.Some? {
      previousHashes := BuildPreviousHashes(lib, maybePrevious.value);
      SameList(lib, maybePrevious.value, previousHashes);
    }
    var inner := Aptos.Generate(lib.p, lib.hashToPoint, Base(lib, maybePrevious, params), secrets, params);
    match inner
    case Err(error) => r := Err(error);
    case Panic => r := Panic;
    case Ok(value) => r := Ok(Contribution(value, contributor, previousHashes));
  }

  lemma LinkedPair(lib: Library, previous: Contribution, c: Contribution)
    ensures Linked(lib, [previous, c]) <==> c.previousHashes == PreviousHashes(lib, previous)
  {
    hide Hash, PreviousHashes;
    assert [previous, c][1] == c && [previous, c][0] == previous;
  }

  lemma SameList(lib: Library, previous: Contribution, listed: seq<(Contributor, Bytes)>)
    requires |listed| == |previous.previousHashes| + 1 && previous.previousHashes <= listed
    requires listed[|listed| - 1].0 == previous.contributor && listed[|listed| - 1].1 == Hash(lib, previous)
    ensures listed == PreviousHashes(lib, previous)
  {
    hide Hash;
    assert listed[|listed| - 1] == (previous.contributor, Hash(lib, previous));
    assert listed == listed[..|listed| - 1] + [listed[|listed| - 1]];
  }

  /** The first `n` field elements that the random source gives. */
  function Drawn(p: Order, tape: seq<nat>, n: nat): (r: seq<nat>)
    ensures |r| == n && InRange(p, r)
  {
    seq(n, i requires 0 <= i < n => if i < |tape| then tape[i] % p else 0)
  }

  function AcceptsInner(lib: Library, c: Aptos.Inner, previous: Aptos.Inner, params: Aptos.Params, tape: seq<nat>): Outcome<Unit> {
    Aptos.Accepts(lib.p, lib.hashToPoint, c, previous, params, Drawn(lib.p, tape, Aptos.DrawCount(c, previous)))
  }

  /** `verify`. Without a previous contribution the list of hashes is not looked at. */
  function Verify(lib: Library, c: Contribution, maybePrevious: Option<Contribution>, params: Aptos.Params, tape: seq<nat>): Outcome<Unit> {
    if maybePrevious.Some? && c.previousHashes != PreviousHashes(lib, maybePrevious.value) then Err(ContributionHashMismatch)
    else AcceptsInner(lib, c.inner, Base(lib, maybePrevious, params), params, tape)
  }

  lemma NoMismatchInside(lib: Library, c: Aptos.Inner, previous: Aptos.Inner, params: Aptos.Params, tape: seq<nat>)
    ensures AcceptsInner(lib, c, previous, params, tape) != Err(ContributionHashMismatch)
  {
    hide Aptos.BatchedEquation, Aptos.DrawCount;
  }

  /** The error about the hashes is for the list alone: it comes exactly when there is a previous
      contribution and the list is not the one linked to it, whatever else is wrong. */
  lemma MismatchIff(lib: Library, c: Contribution, maybePrevious: Option<Contribution>, params: Aptos.Params, tape: seq<nat>)
    ensures Verify(lib, c, maybePrevious, params, tape) == Err(ContributionHashMismatch)
       <==> maybePrevious.Some? && !Linked(lib, [maybePrevious.value, c])
  {
    hide AcceptsInner, Linked, Hash, PreviousHashes;
    NoMismatchInside(lib, c.inner, Base(lib, maybePrevious, params), params, tape);
    if maybePrevious.Some? {
      LinkedPair(lib, maybePrevious.value, c);
    }
  }

  // ---- The chain of hashes ----

  function Before(cs: seq<Contribution>, i: nat): Option<Contribution>
    requires i < |cs|
  {
    if i == 0 then None else Some(cs[i - 1])
  }

  ghost predicate AcceptedAt(lib: Library, params: Aptos.Params, c: Contribution, previous: Option<Contribution>, tape: seq<nat>) {
    Verify(lib, c, previous, params, tape).Ok?
  }

  /** Every contribution was accepted against the one before it. */
  ghost predicate AcceptedSequence(lib: Library, params: Aptos.Params, cs: seq<Contribution>, tapes: seq<seq<nat>>) {
    |cs| == |tapes| && forall i | 0 <= i < |cs| :: AcceptedAt(lib, params, cs[i], Before(cs, i), tapes[i])
  }

  /** Every contribution lists the one before it. */
  ghost predicate Linked(lib: Library, cs: seq<Contribution>) {
    forall i | 0 < i < |cs| :: cs[i].previousHashes == PreviousHashes(lib, cs[i - 1])
  }

  lemma AcceptedIsLinked(lib: Library, params: Aptos.Params, cs: seq<Contribution>, tapes: seq<seq<nat>>)
    requires AcceptedSequence(lib, params, cs, tapes)
    ensures Linked(lib, cs)
  {
    hide AcceptsInner;
    forall i | 0 < i < |cs| ensures cs[i].previousHashes == PreviousHashes(lib, cs[i - 1]) {
      assert AcceptedAt(lib, params, cs[i], Before(cs, i), tapes[i]);
    }
  }

  function Entries(lib: Library, cs: seq<Contribution>): (r: seq<(Contributor, Bytes)>)
    ensures |r| == |cs|
  {
    seq(|cs|, i requires 0 <= i < |cs| => (cs[i].contributor, Hash(lib, cs[i])))
  }

  /** The list of the last contribution is that of the first one, followed by the contributors
      and hashes of all contributions before the last, in order. */
  lemma {:induction false} HashChain(lib: Library, cs: seq<Contribution>)
    requires cs != [] && Linked(lib, cs)
    ensures cs[|cs| - 1].previousHashes == cs[0].previousHashes + Entries(lib, cs[..|cs| - 1])
    decreases |cs|
  {
    hide Hash;
    var n := |cs| - 1;
    if n > 0 {
      var rest := cs[..n];
      HashChain(lib, rest);
      assert rest[..n - 1] + [cs[n - 1]] == rest;
      assert Entries(lib, rest) == Entries(lib, rest[..n - 1]) + [(cs[n - 1].contributor, Hash(lib, cs[n - 1]))];
      assert cs[n].previousHashes == PreviousHashes(lib, cs[n - 1]);
    }
  }

  ghost predicate Collision(lib: Library, c: Contribution, d: Contribution) {
    c != d && Hash(lib, c) == Hash(lib, d)
  }

  /** The list of the last contribution is as much longer than that of the first as there are
      contributions after the first. */
  lemma ListLengths(lib: Library, cs: seq<Contribution>, ds: seq<Contribution>)
    requires cs != [] && ds != [] && Linked(lib, cs) && Linked(lib, ds) && cs[|cs| - 1] == ds[|ds| - 1]
    ensures |cs| - |ds| == |ds[0].previousHashes| - |cs[0].previousHashes|
  {
    hide Linked;
    HashChain(lib, cs);
    HashChain(lib, ds);
  }

  /** The last contribution pins down those before it: of two linked sequences with the same last
      contribution the shorter one is the end of the other, or they show a collision of the hash. */
  lemma {:induction false} LastDetermines(lib: Library, cs: seq<Contribution>, ds: seq<Contribution>)
    requires cs != [] && |cs| <= |ds| && Linked(lib, cs) && Linked(lib, ds)
    requires cs[|cs| - 1] == ds[|ds| - 1]
    ensures cs == ds[|ds| - |cs|..] || Collide(lib, cs, ds[|ds| - |cs|..])
    decreases |cs|
  {
    hide Hash, PreviousHashes, Collide, Collision, Linked;
    var n, m := |cs| - 1, |ds| - 1;
    var end := ds[m - n..];
    if n > 0 {
      LinkedEnd(lib, cs);
      LinkedEnd(lib, ds);
      SameLists(lib, cs[n - 1], ds[m - 1]);
      if cs[n - 1] == ds[m - 1] {
        LastDetermines(lib, cs[..n], ds[..m]);
        assert ds[..m][m - n..] == end[..n];
        assert cs == cs[..n] + [cs[n]] && end == end[..n] + [end[n]];
        CollideLater(lib, cs, end, n);
      } else {
        CollideAt(lib, cs, end, n - 1);
      }
    }
  }

  lemma LinkedEnd(lib: Library, cs: seq<Contribution>)
    requires |cs| > 1 && Linked(lib, cs)
    ensures Linked(lib, cs[..|cs| - 1])
    ensures cs[|cs| - 1].previousHashes == PreviousHashes(lib, cs[|cs| - 2])
  {
    hide PreviousHashes;
  }

  lemma CollideAt(lib: Library, cs: seq<Contribution>, ds: seq<Contribution>, i: nat)
    requires i < |cs| && i < |ds| && cs[i] != ds[i] && Hash(lib, cs[i]) == Hash(lib, ds[i])
    ensures Collide(lib, cs, ds)
  {
    hide Hash;
    assert Collision(lib, cs[i], ds[i]);
  }

  /** Two sequences of which two elements at the same place collide. */
  ghost predicate Collide(lib: Library, cs: seq<Contribution>, ds: seq<Contribution>) {
    exists i :: 0 <= i < |cs| && i < |ds| && Collision(lib, cs[i], ds[i])
  }

  lemma CollideLater(lib: Library, cs: seq<Contribution>, ds: seq<Contribution>, n: nat)
    requires n <= |cs| && n <= |ds|
    ensures Collide(lib, cs[..n], ds[..n]) ==> Collide(lib, cs, ds)
  {
    hide Collision;
    if i :| 0 <= i < n && Collision(lib, cs[..n][i], ds[..n][i]) {
      assert Collision(lib, cs[i], ds[i]);
    }
  }

  lemma SameLists(lib: Library, c: Contribution, d: Contribution)
    requires PreviousHashes(lib, c) == PreviousHashes(lib, d)
    ensures c.contributor == d.contributor && Hash(lib, c) == Hash(lib, d)
  {
    hide Hash;
    var cs, ds := PreviousHashes(lib, c), PreviousHashes(lib, d);
    assert cs[|cs| - 1] == ds[|ds| - 1];
  }

  /** Sequences of which the first contributions list equally many, nothing for example, are equal
      altogether. */
  lemma LastDeterminesAll(lib: Library, cs: seq<Contribution>, ds: seq<Contribution>)
    requires cs != [] && ds != [] && Linked(lib, cs) && Linked(lib, ds) && cs[|cs| - 1] == ds[|ds| - 1]
    ensures |cs| == |ds| <==> |cs[0].previousHashes| == |ds[0].previousHashes|
    ensures |cs| == |ds| ==> cs == ds || Collide(lib, cs, ds)
  {
    hide Linked, Collide;
    ListLengths(lib, cs, ds);
    if |cs| == |ds| {
      LastDetermines(lib, cs, ds);
      assert ds[0..] == ds;
    }
  }

  lemma FromEmptyLists(lib: Library, cs: seq<Contribution>, ds: seq<Contribution>)
    requires cs != [] && ds != [] && Linked(lib, cs) && Linked(lib, ds) && cs[|cs| - 1] == ds[|ds| - 1]
    requires cs[0].previousHashes == [] && ds[0].previousHashes == []
    ensures cs == ds || (|cs| == |ds| && Collide(lib, cs, ds))
  {
    hide Linked, Collide;
    LastDeterminesAll(lib, cs, ds);
  }

  /** Nothing looks at the list of the first contribution: with any other list it is accepted
      just the same, so the list of every later contribution begins with whatever it holds. */
  lemma FirstListIsFree(lib: Library, c: Contribution, listed: seq<(Contributor, Bytes)>, params: Aptos.Params, tape: seq<nat>)
    ensures Verify(lib, c.(previousHashes := listed), None, params, tape) == Verify(lib, c, None, params, tape)
  {
    hide AcceptsInner;
  }

  /** Nothing looks at the contributor either: every uploader may write any name into their
      contribution, and all later lists repeat it. */
  lemma ContributorIsFree(lib: Library, c: Contribution, other: Contributor, maybePrevious: Option<Contribution>, params: Aptos.Params, tape: seq<nat>)
    ensures Verify(lib, c.(contributor := other), maybePrevious, params, tape) == Verify(lib, c, maybePrevious, params, tape)
  {
    hide AcceptsInner;
  }

  // ---- Honest contributions ----

  /** A contribution generated with nonzero secrets on a structured one lists it and is accepted
      against it whatever is drawn. */
  lemma HonestIsAccepted(lib: Library, maybePrevious: Option<Contribution>, contributor: Contributor, secrets: Aptos.Secrets, params: Aptos.Params, tape: seq<nat>)
    requires Aptos.SecretsInRange(lib.p, secrets, params) && Aptos.AllNonzero(secrets) && |secrets.fptx.alphas| == params.fptx.numRounds
    requires maybePrevious.Some? ==> Aptos.Structured(lib.p, maybePrevious.value.inner, params)
    requires params.fptx.batchSize > 0 && params.kzgMaxPower > 0
    ensures Generate(lib, maybePrevious, contributor, secrets, params).Ok?
    ensures var c := Generate(lib, maybePrevious, contributor, secrets, params).value;
      && Verify(lib, c, maybePrevious, params, tape) == Ok(Unit)
      && Aptos.Structured(lib.p, c.inner, params)
      && Linked(lib, if maybePrevious.Some? then [maybePrevious.value, c] else [c])
  {
    hide Aptos.Structured, Aptos.Generate, Aptos.Accepts, Aptos.SecretsInRange, Aptos.AllNonzero, Aptos.DrawCount, Aptos.SoksHold, Hash,
      Aptos.FirstContribution;
    Aptos.FirstIsStructured(lib.p, lib.hashToPoint, params);
    var base := Base(lib, maybePrevious, params);
    Aptos.HonestStep(lib.p, lib.hashToPoint, base, secrets, params, []);
    var inner := Aptos.Generate(lib.p, lib.hashToPoint, base, secrets, params).value;
    Aptos.HonestStep(lib.p, lib.hashToPoint, base, secrets, params, Drawn(lib.p, tape, Aptos.DrawCount(inner, base)));
  }
}
