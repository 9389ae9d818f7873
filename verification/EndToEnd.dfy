/** The server, the contributions and their bytes together. */
module EndToEnd {
  import opened PrimeField
  import opened Counting
  import opened Outcomes
  import opened Octets
  import opened ContributorsDb
  import opened ContributionFiles
  import opened QueueLaws
  import opened Ceremony
  import opened CeremonyInvariant
  import opened CeremonyTasks
  import opened CeremonySafety
  import opened Upload
  import C = Contributions
  import Aptos
  import Chains
  import FptxLaws
  import HonestTurn
  import HonestUpload
  import SerdeLaws
  import BlsSok
  import Serde = ParallelArkSerde

  // ---- The ceremony's surroundings ----

  /** The verdict on parsed contributions. */
  function Judged(lib: C.Library, params: Aptos.Params, c: C.Contribution, previous: Option<C.Contribution>, tape: seq<nat>): Verdict {
    match C.Verify(lib, c, previous, params, tape)
    case Ok(_) => Accept
    case Err(_) => Reject
    case Panic => Crash
  }

  /** The previous contribution is parsed like the current one. */
  function ParsedPrevious(lib: C.Library, previous: Option<Bytes>): Option<C.Contribution> {
    if previous.Some? && lib.fromBytes(previous.value).Parsed? then Some(lib.fromBytes(previous.value).value) else None
  }

  function JudgedBytes(lib: C.Library, params: Aptos.Params, bytes: Bytes, previous: Option<Bytes>, tape: seq<nat>): Verdict {
    if !lib.fromBytes(bytes).Parsed? then Reject
    else Judged(lib, params, lib.fromBytes(bytes).value, ParsedPrevious(lib, previous), tape)
  }

  function ParseVerdict(lib: C.Library, bytes: Bytes): Verdict {
    match lib.fromBytes(bytes)
    case Parsed(_) => Accept
    case Malformed => Reject
    case Panicked => Crash
  }

  /** The hash as the hexadecimal string that a client announces. */
  function HashString(lib: C.Library, bytes: Bytes): string {
    HexKey(lib.blake3(bytes))
  }

  function CeremonyWorld(lib: C.Library, config: Config, params: Aptos.Params): World {
    World(
      config,
      bytes => HashString(lib, bytes),
      bytes => ParseVerdict(lib, bytes),
      (bytes, previous, tape) => JudgedBytes(lib, params, bytes, previous, tape))
  }

  // ---- The finished contributions ----

  /** The contributions that the stored files of the listed contributors hold. */
  ghost predicate Holds(lib: C.Library, s: State, keys: seq<Key>, cs: seq<C.Contribution>) {
    |cs| == |keys|
    && forall i | 0 <= i < |keys| :: HoldsAt(lib, s, keys[i], cs[i])
  }

  ghost predicate HoldsAt(lib: C.Library, s: State, k: Key, c: C.Contribution) {
    && Stored(s.files, k).Some? && lib.fromBytes(Stored(s.files, k).value) == Parsed(c)
    && k in s.rows && s.rows[k].contributionHash == Some(HashString(lib, Stored(s.files, k).value))
  }

  ghost function ContributionOf(lib: C.Library, s: State, k: Key): C.Contribution
    requires Stored(s.files, k).Some? && lib.fromBytes(Stored(s.files, k).value).Parsed?
  {
    lib.fromBytes(Stored(s.files, k).value).value
  }

  lemma LinkVerifies(lib: C.Library, config: Config, params: Aptos.Params, s: State, k: Key, previous: Option<Key>, tape: seq<nat>)
    requires Link(CeremonyWorld(lib, config, params), s.rows, s.files, k, previous, tape)
    requires previous.Some? ==> Stored(s.files, previous.value).Some? && lib.fromBytes(Stored(s.files, previous.value).value).Parsed?
    ensures Stored(s.files, k).Some? && lib.fromBytes(Stored(s.files, k).value).Parsed?
    ensures HoldsAt(lib, s, k, ContributionOf(lib, s, k))
    ensures C.AcceptedAt(lib, params, ContributionOf(lib, s, k), ParsedPrevious(lib, StoredPrevious(s.files, previous)), tape)
  {
    hide Stored, C.Verify, HashString;
    var w := CeremonyWorld(lib, config, params);
    var bytes, before := Stored(s.files, k).value, StoredPrevious(s.files, previous);
    assert AcceptedOn(w, bytes, before, tape);
    assert JudgedBytes(lib, params, bytes, before, tape) == Accept;
  }

  /** The random choices drawn for the first contributions. */
  ghost predicate IsDrawn(history: seq<Verified>, tapes: seq<seq<nat>>) {
    |tapes| <= |history| && forall i | 0 <= i < |tapes| :: tapes[i] == history[i].tape
  }

  ghost predicate LinkedAt(w: World, s: State, keys: seq<Key>, i: nat)
    requires i < |keys| == |s.history|
  {
    Link(w, s.rows, s.files, keys[i], KeyBefore(keys, i), s.history[i].tape)
  }

  lemma {:induction false} LinksVerify(lib: C.Library, params: Aptos.Params, w: World, s: State, keys: seq<Key>, n: nat)
    returns (cs: seq<C.Contribution>, tapes: seq<seq<nat>>)
    requires w == CeremonyWorld(lib, w.config, params) && n <= |keys| == |s.history|
    requires forall i | 0 <= i < n :: LinkedAt(w, s, keys, i)
    ensures |tapes| == n && IsDrawn(s.history, tapes)
    ensures Holds(lib, s, keys[..n], cs) && C.AcceptedSequence(lib, params, cs, tapes)
    decreases n
  {
    hide C.AcceptedAt, Link, HoldsAt, CeremonyWorld;
    if n == 0 {
      cs, tapes := [], [];
    } else {
      var i := n - 1;
      cs, tapes := LinksVerify(lib, params, w, s, keys, i);
      var tape := s.history[i].tape;
      assert LinkedAt(w, s, keys, i);
      if i > 0 {
        PreviousHolds(lib, s, keys, i, cs);
      }
      LinkVerifies(lib, w.config, params, s, keys[i], KeyBefore(keys, i), tape);
      var c := ContributionOf(lib, s, keys[i]);
      NextAccepted(lib, params, cs, tapes, c, tape);
      NextHolds(lib, s, keys, i, cs, c);
      cs, tapes := cs + [c], tapes + [tape];
    }
  }

  lemma PreviousHolds(lib: C.Library, s: State, keys: seq<Key>, i: nat, cs: seq<C.Contribution>)
    requires 0 < i < |keys| && Holds(lib, s, keys[..i], cs)
    ensures Stored(s.files, keys[i - 1]).Some? && lib.fromBytes(Stored(s.files, keys[i - 1]).value).Parsed?
    ensures ParsedPrevious(lib, StoredPrevious(s.files, KeyBefore(keys, i))) == Some(cs[|cs| - 1])
  {
    hide Stored;
    assert HoldsAt(lib, s, keys[..i][i - 1], cs[i - 1]);
  }

  /** The main theorem: after any run of the server, the finished contributors in the order in
      which they are listed hold contributions of which each was accepted, on the random choices
      drawn for it, against the one before it, and each has the hash it announced. */
  lemma FinishedChain(lib: C.Library, config: Config, params: Aptos.Params, clock: nat, run: seq<Event>, keys: seq<Key>)
    returns (cs: seq<C.Contribution>, tapes: seq<seq<nat>>)
    requires IsFinishedList(After(CeremonyWorld(lib, config, params), Initial(clock), run).rows, keys)
    ensures var s := After(CeremonyWorld(lib, config, params), Initial(clock), run);
      |tapes| == |keys| && IsDrawn(s.history, tapes) && Holds(lib, s, keys, cs)
    ensures C.AcceptedSequence(lib, params, cs, tapes)
  {
    hide IsFinishedList, After, Link, Holds, C.AcceptedSequence, IsDrawn;
    var w := CeremonyWorld(lib, config, params);
    var s := After(w, Initial(clock), run);
    RunKeeps(w, clock, run);
    ListIsHistory(w, s, keys);
    forall i | 0 <= i < |keys| ensures LinkedAt(w, s, keys, i) {
      AcceptedChain(w, clock, run, keys, i);
    }
    cs, tapes := LinksVerify(lib, params, w, s, keys, |keys|);
    assert keys[..|keys|] == keys;
  }

  lemma NextHolds(lib: C.Library, s: State, keys: seq<Key>, i: nat, cs: seq<C.Contribution>, c: C.Contribution)
    requires i < |keys| && Holds(lib, s, keys[..i], cs) && HoldsAt(lib, s, keys[i], c)
    ensures Holds(lib, s, keys[..i + 1], cs + [c])
  {
    hide HoldsAt;
    forall j | 0 <= j < i + 1 ensures HoldsAt(lib, s, keys[..i + 1][j], (cs + [c])[j]) {
      if j < i {
        assert HoldsAt(lib, s, keys[..i][j], cs[j]);
      }
    }
  }

  lemma NextAccepted(lib: C.Library, params: Aptos.Params, cs: seq<C.Contribution>, tapes: seq<seq<nat>>, c: C.Contribution, tape: seq<nat>)
    requires C.AcceptedSequence(lib, params, cs, tapes)
    requires C.AcceptedAt(lib, params, c, if cs == [] then None else Some(cs[|cs| - 1]), tape)
    ensures C.AcceptedSequence(lib, params, cs + [c], tapes + [tape])
  {
    hide C.AcceptedAt;
    var all, allTapes := cs + [c], tapes + [tape];
    forall i | 0 <= i < |all| ensures C.AcceptedAt(lib, params, all[i], C.Before(all, i), allTapes[i]) {
      if i < |cs| {
        assert C.AcceptedAt(lib, params, cs[i], C.Before(cs, i), tapes[i]);
        assert C.Before(all, i) == C.Before(cs, i);
      }
    }
  }

  // ---- What the chain of contributions is worth ----

  /** The hashes that the last contribution lists are those of all contributions before it. */
  lemma ListedHashes(lib: C.Library, params: Aptos.Params, cs: seq<C.Contribution>, tapes: seq<seq<nat>>)
    requires C.AcceptedSequence(lib, params, cs, tapes) && cs != []
    ensures cs[|cs| - 1].previousHashes == cs[0].previousHashes + C.Entries(lib, cs[..|cs| - 1])
  {
    hide C.AcceptedAt;
    C.AcceptedIsLinked(lib, params, cs, tapes);
    C.HashChain(lib, cs);
  }

  /** A listed hash is the one that its contributor announced exactly when the stored bytes are
      the encoding of the contribution they are parsed to, or have the same hash as that one. */
  lemma ListedIsAnnounced(lib: C.Library, s: State, k: Key, c: C.Contribution)
    requires HoldsAt(lib, s, k, c)
    ensures s.rows[k].contributionHash == Some(HexKey(C.Hash(lib, c)))
       <==> lib.toBytes(c) == Stored(s.files, k).value || SameHash(lib, lib.toBytes(c), Stored(s.files, k).value)
  {
    hide Stored, HexKey;
    var bytes := Stored(s.files, k).value;
    if HexKey(lib.blake3(bytes)) == HexKey(C.Hash(lib, c)) {
      HexInjective(lib.blake3(bytes), C.Hash(lib, c));
    }
  }

  /** For the whole ceremony: each entry of the last list that stands for a finished contributor
      has the hash they announced, except where a stored file is not the encoding of what it is
      parsed to; there it has it only by a collision. */
  lemma ListedAreAnnounced(lib: C.Library, config: Config, params: Aptos.Params, clock: nat, run: seq<Event>, keys: seq<Key>)
    returns (cs: seq<C.Contribution>)
    requires IsFinishedList(After(CeremonyWorld(lib, config, params), Initial(clock), run).rows, keys) && keys != []
    ensures var s := After(CeremonyWorld(lib, config, params), Initial(clock), run);
      && Holds(lib, s, keys, cs) && |cs| == |keys|
      && var listed, m := cs[|cs| - 1].previousHashes, |cs[0].previousHashes|;
      && |listed| == m + |cs| - 1
      && forall i | 0 <= i < |cs| - 1 :: AnnouncedIff(lib, s, keys[i], cs[i], listed[m + i].1)
  {
    hide IsFinishedList, After, HoldsAt, C.AcceptedAt, IsDrawn, CeremonyWorld, C.Hash, HexKey, Stored, SameHash;
    var s := After(CeremonyWorld(lib, config, params), Initial(clock), run);
    var tapes;
    cs, tapes := FinishedChain(lib, config, params, clock, run, keys);
    ListedHashes(lib, params, cs, tapes);
    var listed, m := cs[|cs| - 1].previousHashes, |cs[0].previousHashes|;
    forall i | 0 <= i < |cs| - 1 ensures AnnouncedIff(lib, s, keys[i], cs[i], listed[m + i].1) {
      assert HoldsAt(lib, s, keys[i], cs[i]);
      ListedIsAnnounced(lib, s, keys[i], cs[i]);
      assert listed[m + i] == C.Entries(lib, cs[..|cs| - 1])[i];
    }
  }

  /** The announced hash is the listed one exactly for a file that is the encoding of its
      contribution, or by a collision. */
  ghost predicate AnnouncedIff(lib: C.Library, s: State, k: Key, c: C.Contribution, listed: Bytes) {
    HoldsAt(lib, s, k, c)
    && var bytes := Stored(s.files, k).value;
    s.rows[k].contributionHash == Some(HexKey(listed)) <==> lib.toBytes(c) == bytes || SameHash(lib, lib.toBytes(c), bytes)
  }

  /** A parser that takes one byte for any contribution, and a contributor who uploaded it: the
      hash that others list for them is not the one they announced. */
  lemma ListedMayDiffer(p: Order, hasher: BlsSok.Hasher, c: C.Contribution, k: Key) returns (lib: C.Library, s: State)
    ensures HoldsAt(lib, s, k, c) && lib.toBytes(c) != Stored(s.files, k).value
    ensures s.rows[k].contributionHash.Some? && s.rows[k].contributionHash != Some(HexKey(C.Hash(lib, c)))
  {
    lib := C.Library(p, hasher, _ => [], _ => Parsed(c), bytes => bytes);
    var row := NewRow("", "", 0).(contributionHash := Some(HashString(lib, [0])));
    s := Initial(0).(rows := map[k := row], files := map[Whole(k) := [0]]);
    assert |HexKey([0])| == 2 && |HexKey([])| == 0;
  }

  ghost predicate SameHash(lib: C.Library, a: Bytes, b: Bytes) {
    a != b && lib.blake3(a) == lib.blake3(b)
  }

  /** Two ceremonies, or one at two moments, with equally many finished contributors and the same
      last contribution hold the same contributions throughout, or they show a collision. */
  lemma SameLastSameChain(lib: C.Library, params: Aptos.Params, config: Config, clock: nat, run: seq<Event>, keys: seq<Key>,
      config': Config, clock': nat, run': seq<Event>, keys': seq<Key>)
    returns (cs: seq<C.Contribution>, ds: seq<C.Contribution>)
    requires IsFinishedList(After(CeremonyWorld(lib, config, params), Initial(clock), run).rows, keys)
    requires IsFinishedList(After(CeremonyWorld(lib, config', params), Initial(clock'), run').rows, keys')
    ensures Holds(lib, After(CeremonyWorld(lib, config, params), Initial(clock), run), keys, cs)
    ensures Holds(lib, After(CeremonyWorld(lib, config', params), Initial(clock'), run'), keys', ds)
    ensures |cs| == |ds| > 0 && cs[|cs| - 1] == ds[|ds| - 1] ==> cs == ds || C.Collide(lib, cs, ds)
  {
    hide IsFinishedList, After, HoldsAt, C.AcceptedAt, IsDrawn, CeremonyWorld, C.Linked, C.Collide;
    var tapes, tapes';
    cs, tapes := FinishedChain(lib, config, params, clock, run, keys);
    ds, tapes' := FinishedChain(lib, config', params, clock', run', keys');
    C.AcceptedIsLinked(lib, params, cs, tapes);
    C.AcceptedIsLinked(lib, params, ds, tapes');
    if |cs| == |ds| > 0 && cs[|cs| - 1] == ds[|ds| - 1] {
      C.LastDeterminesAll(lib, cs, ds);
    }
  }

  /** What the parser hands out consists of field elements, as the types of the source guarantee. */
  ghost predicate ParsesCanonical(lib: C.Library) {
    forall bytes :: lib.fromBytes(bytes).Parsed? ==> Aptos.Canonical(lib.p, lib.fromBytes(bytes).value.inner)
  }

  /** The random choices on which a contribution that is not sound is nevertheless accepted. */
  ghost function BadTapes(lib: C.Library, params: Aptos.Params, c: Aptos.Inner, previous: Aptos.Inner): set<seq<nat>> {
    if Sound(lib, params, c, previous) then {} else Aptos.AcceptingTapes(lib.p, lib.hashToPoint, c, previous, params)
  }

  ghost predicate Sound(lib: C.Library, params: Aptos.Params, c: Aptos.Inner, previous: Aptos.Inner) {
    Aptos.Structured(lib.p, c, params) && Aptos.SoksHold(lib.p, lib.hashToPoint, c, previous)
  }

  /** They are at most four in `p` of all choices. */
  lemma BadTapesAreFew(lib: C.Library, params: Aptos.Params, c: Aptos.Inner, previous: Aptos.Inner)
    requires Aptos.Canonical(lib.p, c)
    ensures |BadTapes(lib, params, c, previous)| * lib.p <= 4 * Power(lib.p, Aptos.DrawCount(c, previous))
  {
    hide Aptos.Structured, Aptos.SoksHold, Aptos.AcceptingTapes, Aptos.DrawCount, Aptos.Canonical, Power;
    if !Sound(lib, params, c, previous) {
      Aptos.Soundness(lib.p, lib.hashToPoint, c, previous, params);
    }
  }

  ghost predicate FewBadTapes(lib: C.Library, params: Aptos.Params, c: C.Contribution, previous: Option<C.Contribution>) {
    var base := C.Base(lib, previous, params);
    |BadTapes(lib, params, c.inner, base)| * lib.p <= 4 * Power(lib.p, Aptos.DrawCount(c.inner, base))
  }

  /** That bound holds of every contribution that the server holds. */
  lemma HeldHaveFewBadTapes(lib: C.Library, params: Aptos.Params, s: State, keys: seq<Key>, cs: seq<C.Contribution>)
    requires ParsesCanonical(lib) && Holds(lib, s, keys, cs)
    ensures forall i | 0 <= i < |cs| :: FewBadTapes(lib, params, cs[i], C.Before(cs, i))
  {
    hide Aptos.Canonical, BadTapes, Aptos.DrawCount, Power, Stored, C.Base;
    forall i | 0 <= i < |cs| ensures FewBadTapes(lib, params, cs[i], C.Before(cs, i)) {
      assert HoldsAt(lib, s, keys[i], cs[i]);
      BadTapesAreFew(lib, params, cs[i].inner, C.Base(lib, C.Before(cs, i), params));
    }
  }

  /** On all other choices only sound contributions are accepted. */
  lemma AcceptedIsSound(lib: C.Library, params: Aptos.Params, c: C.Contribution, previous: Option<C.Contribution>, tape: seq<nat>)
    requires C.AcceptedAt(lib, params, c, previous, tape)
    requires var base := C.Base(lib, previous, params);
      C.Drawn(lib.p, tape, Aptos.DrawCount(c.inner, base)) !in BadTapes(lib, params, c.inner, base)
    ensures Sound(lib, params, c.inner, C.Base(lib, previous, params))
  {
    hide Sound, Aptos.Accepts, Aptos.DrawCount, C.Base;
    var base := C.Base(lib, previous, params);
    var n := Aptos.DrawCount(c.inner, base);
    TapesExact(lib.p, n);
  }

  ghost predicate Lucky(lib: C.Library, params: Aptos.Params, cs: seq<C.Contribution>, tapes: seq<seq<nat>>)
    requires |cs| == |tapes|
  {
    forall i | 0 <= i < |cs| :: LuckyAt(lib, params, cs[i], C.Before(cs, i), tapes[i])
  }

  ghost predicate LuckyAt(lib: C.Library, params: Aptos.Params, c: C.Contribution, previous: Option<C.Contribution>, tape: seq<nat>) {
    var base := C.Base(lib, previous, params);
    C.Drawn(lib.p, tape, Aptos.DrawCount(c.inner, base)) !in BadTapes(lib, params, c.inner, base)
  }

  ghost function Inners(lib: C.Library, params: Aptos.Params, cs: seq<C.Contribution>): seq<Aptos.Inner> {
    [Aptos.FirstContribution(lib.p, lib.hashToPoint, params)] + seq(|cs|, i requires 0 <= i < |cs| => cs[i].inner)
  }

  /** A sound chain of which the last element holds the product of secrets that made the proofs of
      knowledge along the chain. */
  ghost predicate FromSecrets(lib: C.Library, params: Aptos.Params, inners: seq<Aptos.Inner>, part: Chains.Part) {
    && Chains.SoundChain(lib.p, lib.hashToPoint, params, inners)
    && exists secrets: seq<nat> ::
         && Chains.Signed(lib.p, lib.hashToPoint, Chains.KeysOf(inners, part), Chains.SoksOf(inners, part), Chains.MessagesOf(inners, part), secrets)
         && Chains.KeyOf(inners[|inners| - 1], part) == Chains.Product(lib.p, secrets)
  }

  /** An accepted sequence without a bad choice is sound from the first contribution on: all
      powers, alphas and xi are those of the secrets of its contributors, multiplied. */
  lemma AcceptedSetup(lib: C.Library, params: Aptos.Params, cs: seq<C.Contribution>, tapes: seq<seq<nat>>, part: Chains.Part)
    requires C.AcceptedSequence(lib, params, cs, tapes) && Lucky(lib, params, cs, tapes) && Chains.InRounds(part, params)
    ensures FromSecrets(lib, params, Inners(lib, params, cs), part)
  {
    hide Aptos.Structured, Aptos.SoksHold, Aptos.FirstContribution, C.AcceptedAt, LuckyAt, Chains.Signed, Chains.KeyOf, Chains.Product;
    var inners := Inners(lib, params, cs);
    forall i | 1 <= i < |inners|
      ensures Aptos.Structured(lib.p, inners[i], params) && Aptos.SoksHold(lib.p, lib.hashToPoint, inners[i], inners[i - 1])
    {
      assert C.AcceptedAt(lib, params, cs[i - 1], C.Before(cs, i - 1), tapes[i - 1]);
      assert LuckyAt(lib, params, cs[i - 1], C.Before(cs, i - 1), tapes[i - 1]);
      AcceptedLucky(lib, params, cs[i - 1], C.Before(cs, i - 1), tapes[i - 1]);
      assert C.Base(lib, C.Before(cs, i - 1), params) == inners[i - 1];
    }
    Chains.SoundChainProduct(lib.p, lib.hashToPoint, params, inners, part);
  }

  lemma AcceptedLucky(lib: C.Library, params: Aptos.Params, c: C.Contribution, previous: Option<C.Contribution>, tape: seq<nat>)
    requires C.AcceptedAt(lib, params, c, previous, tape) && LuckyAt(lib, params, c, previous, tape)
    ensures Aptos.Structured(lib.p, c.inner, params)
    ensures Aptos.SoksHold(lib.p, lib.hashToPoint, c.inner, C.Base(lib, previous, params))
  {
    hide Aptos.Structured, Aptos.SoksHold, C.AcceptedAt, C.Base, C.Drawn, Aptos.DrawCount, BadTapes;
    AcceptedIsSound(lib, params, c, previous, tape);
  }

  /** The end result: after any run the last finished contribution lists the hashes of all before
      it, and unless some random choice was a bad one, every part of it is the product of one
      secret for each finished contributor, the secret that made their proof of knowledge. For each
      of them at most 4/p of all random choices are bad. */
  lemma CeremonyResult(lib: C.Library, config: Config, params: Aptos.Params, clock: nat, run: seq<Event>, keys: seq<Key>, part: Chains.Part)
    returns (cs: seq<C.Contribution>, tapes: seq<seq<nat>>)
    requires IsFinishedList(After(CeremonyWorld(lib, config, params), Initial(clock), run).rows, keys) && Chains.InRounds(part, params)
    ensures var s := After(CeremonyWorld(lib, config, params), Initial(clock), run);
      |tapes| == |cs| == |keys| && IsDrawn(s.history, tapes) && Holds(lib, s, keys, cs)
    ensures cs != [] ==> cs[|cs| - 1].previousHashes == cs[0].previousHashes + C.Entries(lib, cs[..|cs| - 1])
    ensures Lucky(lib, params, cs, tapes) ==> FromSecrets(lib, params, Inners(lib, params, cs), part)
    ensures ParsesCanonical(lib) ==> forall i | 0 <= i < |cs| :: FewBadTapes(lib, params, cs[i], C.Before(cs, i))
  {
    hide IsFinishedList, After, HoldsAt, C.AcceptedAt, LuckyAt, FromSecrets, Inners, IsDrawn, CeremonyWorld, FewBadTapes, ParsesCanonical;
    cs, tapes := FinishedChain(lib, config, params, clock, run, keys);
    if ParsesCanonical(lib) {
      HeldHaveFewBadTapes(lib, params, After(CeremonyWorld(lib, config, params), Initial(clock), run), keys, cs);
    }
    if cs != [] {
      ListedHashes(lib, params, cs, tapes);
    }
    if Lucky(lib, params, cs, tapes) {
      AcceptedSetup(lib, params, cs, tapes, part);
    }
  }

  // ---- Honest contributors ----

  /** The rows of a structured contribution survive their encoding. */
  lemma StructuredSurvives(lib: C.Library, params: Aptos.Params, c: Aptos.Inner)
    requires Aptos.Structured(lib.p, c, params)
    ensures SerdeLaws.Survives(c.fptx.randomized)
  {
    hide IsZero;
    if c.fptx.randomized != [] {
      assert FptxLaws.ShiftedByAlpha(lib.p, c.fptx.alphasG2[0], c.fptx.randomized[0], c.fptx.pot.powers);
    }
  }

  /** The rows as the curve points that are encoded, given the point of every discrete logarithm. */
  function Points<T>(point: nat -> T, rows: seq<seq<nat>>): (r: seq<seq<T>>)
    ensures |r| == |rows| && forall j | 0 <= j < |rows| :: |r[j]| == |rows[j]|
  {
    seq(|rows|, j requires 0 <= j < |rows| => seq(|rows[j]|, i requires 0 <= i < |rows[j]| => point(rows[j][i])))
  }

  /** So decoding gives the rows of a structured contribution back. */
  lemma StructuredRoundTrip<T(!new)>(lib: C.Library, params: Aptos.Params, c: Aptos.Inner, point: nat -> T, codec: Serde.Codec<T>, es: nat)
    requires Aptos.Structured(lib.p, c, params) && Serde.FixedSize(codec, es)
    requires SerdeLaws.InMemory(codec, Points(point, c.fptx.randomized))
    ensures var rows := Points(point, c.fptx.randomized);
      Serde.DecodeVecVec(codec, Serde.EncodeVecVec(codec.enc, rows)) == Parsed(rows)
  {
    hide Aptos.Structured, Serde.FixedSize, SerdeLaws.InMemory, Serde.DecodeVecVec, Serde.EncodeVecVec;
    StructuredSurvives(lib, params, c);
    PointsSurvive(point, c.fptx.randomized);
    SerdeLaws.NestedRoundTrip(codec, es, Points(point, c.fptx.randomized));
  }

  lemma PointsSurvive<T>(point: nat -> T, rows: seq<seq<nat>>)
    requires SerdeLaws.Survives(rows)
    ensures SerdeLaws.Survives(Points(point, rows))
  {
    if rows != [] && rows[0] == [] {
      assert forall j | 0 <= j < |rows| :: rows[j] in rows;
    }
  }

  /** What a contributor downloads parses to a contribution. */
  lemma DownloadParses(lib: C.Library, config: Config, params: Aptos.Params, s: State)
    requires Inv(CeremonyWorld(lib, config, params), s)
    ensures ParsedPrevious(lib, StoredPrevious(s.files, MostRecentFinished(s.rows))).Some? <==> MostRecentFinished(s.rows).Some?
  {
    hide Stored, RowsOk, JobsOk, C.Verify;
    LatestIsLast(CeremonyWorld(lib, config, params), s.rows, s.files, s.history, s.clock);
    if s.history != [] {
      HonestTurn.PreviousParses(CeremonyWorld(lib, config, params), s);
    }
  }

  /** Generated from a structured contribution, or as the first one, with nonzero secrets. */
  ghost predicate HonestlyBuilt(lib: C.Library, params: Aptos.Params, previous: Option<C.Contribution>, contributor: C.Contributor,
      secrets: Aptos.Secrets, c: C.Contribution)
  {
    && params.fptx.batchSize > 0 && params.kzgMaxPower > 0
    && Aptos.SecretsInRange(lib.p, secrets, params) && Aptos.AllNonzero(secrets) && |secrets.fptx.alphas| == params.fptx.numRounds
    && (previous.Some? ==> Aptos.Structured(lib.p, previous.value.inner, params))
    && C.Generate(lib, previous, contributor, secrets, params) == Ok(c)
  }

  lemma HonestBytesPass(lib: C.Library, config: Config, params: Aptos.Params, previousBytes: Option<Bytes>, contributor: C.Contributor,
      secrets: Aptos.Secrets, c: C.Contribution, bytes: Bytes)
    requires HonestlyBuilt(lib, params, ParsedPrevious(lib, previousBytes), contributor, secrets, c) && lib.fromBytes(bytes) == Parsed(c)
    ensures HonestTurn.AlwaysAccepted(CeremonyWorld(lib, config, params), bytes, previousBytes)
  {
    hide C.Verify, C.Generate, Aptos.Structured, Aptos.SecretsInRange, Aptos.AllNonzero;
    forall tape ensures AcceptedOn(CeremonyWorld(lib, config, params), bytes, previousBytes, tape) {
      C.HonestIsAccepted(lib, ParsedPrevious(lib, previousBytes), contributor, secrets, params, tape);
    }
  }

  /** A contributor who downloads what the server offers at the head of the queue, contributes
      nonzero secrets to it and uploads the result in slices is not kicked: from the moment the
      parts are composed they are about to be verified, being verified, or finished, whatever
      else happens, unless an operation of this upload or of its job fails. */
  lemma HonestUploadSucceeds(lib: C.Library, params: Aptos.Params, w: World, offered: State, before: seq<Event>, s: State, k: Key,
      contributor: C.Contributor, secrets: Aptos.Secrets, c: C.Contribution, slices: seq<Bytes>, bytes: Bytes, gap: nat, rest: seq<Event>)
    requires w == CeremonyWorld(lib, w.config, params)
    requires Inv(w, offered) && HeadThroughout(w, offered, before, k) && s == After(w, offered, before)
    requires HonestlyBuilt(lib, params, ParsedPrevious(lib, StoredPrevious(offered.files, MostRecentFinished(offered.rows))), contributor, secrets, c)
    requires lib.fromBytes(bytes) == Parsed(c)
    requires s.handler.Some? && s.handler.value.effects == HonestUpload.UploadEffects(k, HashString(lib, bytes))
    requires Uploaded(s.files, k, slices) && Flatten(slices) == bytes
    requires var t := Next(w, s, Perform(gap)); HonestTurn.NoFault(rest) && HonestUpload.NotCutOff(w, t, rest, k, bytes)
    ensures var t := After(w, Next(w, s, Perform(gap)), rest);
      HonestUpload.Closing(w, t, k, bytes) || HonestTurn.OnCourse(w, t, k, bytes) || IsFinished(t.rows, k)
  {
    hide HonestlyBuilt, After, Next, HeadThroughout, Stored, RowsOk, JobsOk, HistoryOk, HashString, FinishedKept, Uploaded,
      HonestTurn.OnCourse, HonestTurn.AlwaysAccepted, HonestUpload.ClosingAt, HonestTurn.NoFault, HonestUpload.NotCutOff, HonestUpload.UploadEffects;
    HonestBytesOffered(lib, params, w, offered, before, s, k, contributor, secrets, c, bytes);
    HonestUpload.ComposeCloses(w, s, k, slices, bytes, gap);
    NextKeeps(w, s, Perform(gap));
    HonestUpload.ClosedIsFinished(w, Next(w, s, Perform(gap)), rest, k, bytes);
  }

  /** Throughout the turn what was built on the offered contribution will be accepted. */
  lemma HonestBytesOffered(lib: C.Library, params: Aptos.Params, w: World, offered: State, run: seq<Event>, s: State, k: Key,
      contributor: C.Contributor, secrets: Aptos.Secrets, c: C.Contribution, bytes: Bytes)
    requires w == CeremonyWorld(lib, w.config, params)
    requires Inv(w, offered) && HeadThroughout(w, offered, run, k) && s == After(w, offered, run)
    requires HonestlyBuilt(lib, params, ParsedPrevious(lib, StoredPrevious(offered.files, MostRecentFinished(offered.rows))), contributor, secrets, c)
    requires lib.fromBytes(bytes) == Parsed(c)
    ensures Inv(w, s) && HonestTurn.AlwaysAccepted(w, bytes, StoredPrevious(s.files, LastKey(s.history)))
    ensures w.parse(bytes) == Accept && w.hashOf(bytes) == HashString(lib, bytes)
  {
    hide HonestlyBuilt, After, HeadThroughout, Stored, RowsOk, JobsOk, HistoryOk, HashString, FinishedKept, HonestTurn.AlwaysAccepted;
    var previousBytes := StoredPrevious(offered.files, MostRecentFinished(offered.rows));
    HonestBytesPass(lib, w.config, params, previousBytes, contributor, secrets, c, bytes);
    RunFrom(w, offered, run);
    TurnHistory(w, offered, run, k);
    FinishedForever(w, offered, run);
    LatestIsLast(w, offered.rows, offered.files, offered.history, offered.clock);
    LastStored(w, offered, s);
  }

  /** The slices of the client, composed by the server, are the client's bytes, so the announced
      hash is that of the composed file. */
  lemma ComposedUploadHash(lib: C.Library, files: Files, k: Key, slices: seq<Bytes>, bytes: Bytes)
    requires Uploaded(files, k, slices) && Flatten(slices) == bytes
    ensures AllParts(files, k) && Stored(AfterCompose(files, k), k) == Some(bytes)
    ensures HashString(lib, Stored(AfterCompose(files, k), k).value) == HashString(lib, bytes)
  {
    SplitThenCompose(files, k, slices, bytes);
  }
}
