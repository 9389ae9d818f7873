/** The ceremony's safety: a chain of accepted contributions whose files never change, and one
    previous contribution for the whole turn of a contributor. */
module CeremonySafety {
  import opened Outcomes
  import opened Octets
  import opened ContributorsDb
  import opened ContributionFiles
  import opened QueueLaws
  import opened Ceremony
  import opened CeremonyInvariant
  import opened CeremonySteps
  import opened CeremonyEvents
  import opened CeremonyTasks

  // ---- What a finished contributor keeps ----

  /** Whoever is finished stays so, with the same hash, time and file. */
  ghost predicate FinishedKept(s: State, s': State) {
    forall k | IsFinished(s.rows, k) :: KeptFor(s, s', k)
  }

  ghost predicate KeptFor(s: State, s': State, k: Key) {
    && k in s.rows && IsFinished(s'.rows, k)
    && s'.rows[k].contributionHash == s.rows[k].contributionHash
    && s'.rows[k].finishedVerifyAt == s.rows[k].finishedVerifyAt
    && Stored(s'.files, k) == Stored(s.files, k)
  }

  lemma KeptBySteady(s: State, s': State)
    requires Steady(s.rows, s'.rows) && FilesKept(s.rows, s.files, s'.files)
    ensures FinishedKept(s, s')
  {
    hide Stored, VerifyingHead;
  }

  lemma UploadingSteady(rows: Rows, k: Key, hash: string, clock: nat, now: nat, j: Key)
    requires RowsOk(rows, clock) && UploadingHead(rows, k) && IsFinished(rows, j) && clock < now
    ensures IsFinished(Updated(rows, k, FinishUpload(hash), now), j) && Updated(rows, k, FinishUpload(hash), now)[j] == rows[j]
  {
    FinishUploadTurns(rows, k, hash, clock, now);
  }

  lemma EffectKeepsFinished(w: World, s: State, effect: Effect, now: nat)
    requires Base(w, s) && s.clock < now && EffectOk(s.rows, effect) && Effected(s.(clock := now), effect, now).Some?
    ensures FinishedKept(s, Effected(s.(clock := now), effect, now).value)
    ensures Effected(s.(clock := now), effect, now).value.history == s.history
  {
    hide RowsOk, Core, UploadingHead, Stored, Updated, IsHead, VerifyingHead, Steady, FilesKept, IsFinished;
    var s' := Effected(s.(clock := now), effect, now).value;
    SteadySelf(s.rows);
    SameFiles(s.rows, s.files);
    match effect
    case Write(k, move) =>
      HarmlessSteady(s.rows, k, move, s.clock, now);
      KeptBySteady(s, s');
    case KickCurrent(reason) =>
      var k :| IsHead(s.rows, k) && !VerifyingHead(s.rows, k);
      CurrentKnown(s.rows, k, s.clock);
      HarmlessSteady(s.rows, k, Kick(reason), s.clock, now);
      KeptBySteady(s, s');
    case Drop(o) =>
      forall j | j != o.key ensures Stored(s'.files, j) == Stored(s.files, j) { OthersStored(s.files, o, j); }
      UploadingFilesKept(s.rows, o.key, s.files, s'.files, s.clock);
      KeptBySteady(s, s');
    case Delete(o) =>
      forall j | j != o.key ensures Stored(s'.files, j) == Stored(s.files, j) { OthersStored(s.files, o, j); }
      UploadingFilesKept(s.rows, o.key, s.files, s'.files, s.clock);
      KeptBySteady(s, s');
    case Require(_) => KeptBySteady(s, s');
    case Compose(k) =>
      OthersComposed(s.files, k);
      UploadingFilesKept(s.rows, k, s.files, s'.files, s.clock);
      KeptBySteady(s, s');
    case FinishAndVerify(k, hash) =>
      forall j | IsFinished(s.rows, j) ensures KeptFor(s, s', j) {
        UploadingSteady(s.rows, k, hash, s.clock, now, j);
        InTable(s.rows, j);
      }
  }

  lemma OthersComposed(files: Files, k: Key)
    requires AllParts(files, k)
    ensures forall j | j != k :: Stored(AfterCompose(files, k), j) == Stored(files, j)
  {
  }

  lemma CurrentKnown(rows: Rows, k: Key, clock: nat)
    requires RowsOk(rows, clock) && IsHead(rows, k)
    ensures Current(rows) == Some(k)
  {
    CurrentIs(rows, k, clock);
  }

  lemma ConcludeKeepsFinished(w: World, s: State, id: nat, gap: nat)
    requires Inv(w, s) && CanHappen(s, Conclude(id, gap))
    ensures FinishedKept(s, Concluded(s, id, gap)) && s.history <= Concluded(s, id, gap).history
  {
    hide Inv, VerifyingHead, RowsOk, Stored;
    TaskConcludesItsOwn(w, s, id);
    TaskData(w, s, id);
    TaskQueued(s.rows, s.jobs[id].key);
    hide Current;
  }

  lemma TaskQueued(rows: Rows, k: Key)
    requires VerifyingHead(rows, k)
    ensures IsQueued(rows, k)
  {
  }

  lemma PerformKeepsFinished(w: World, s: State, gap: nat)
    requires Inv(w, s) && s.handler.Some?
    ensures FinishedKept(s, Performed(s, gap)) && Performed(s, gap).history == s.history
  {
    hide RowsOk, Core, Stored, Effected, EffectOk, HandlerOk;
    CoreOf(w, s);
    InvHandler(w, s);
    var h := s.handler.value;
    var now := s.clock + 1 + gap;
    FirstIsOk(s.rows, s.files, h.effects);
    if Effected(s.(clock := now), h.effects[0], now).Some? {
      EffectKeepsFinished(w, s, h.effects[0], now);
    }
  }

  /** No event takes anything from a finished contributor, and the history only grows. */
  lemma NextKeepsFinished(w: World, s: State, e: Event)
    requires Inv(w, s)
    ensures FinishedKept(s, Next(w, s, e)) && s.history <= Next(w, s, e).history
  {
    hide Inv, Stored, Performed, Concluded, PlanOf;
    if CanHappen(s, e) {
      match e
      case Perform(gap) => InvHandler(w, s); PerformKeepsFinished(w, s, gap);
      case PutPart(k, i, bytes) => PutStored(s.files, k, i, bytes);
      case DropForeign(o) => DropStored(s.rows, s.files, o);
      case Conclude(id, gap) => ConcludeKeepsFinished(w, s, id, gap);
      case _ =>
    }
  }

  lemma InvHandler(w: World, s: State)
    requires Inv(w, s)
    ensures s.handler.Some? ==> s.handler.value.effects != []
  {
  }

  lemma {:induction false} RunFrom(w: World, s: State, run: seq<Event>)
    requires Inv(w, s)
    ensures Inv(w, After(w, s, run))
  {
    hide Inv, Next;
    if run != [] {
      RunFrom(w, s, run[..|run| - 1]);
      NextKeeps(w, After(w, s, run[..|run| - 1]), run[|run| - 1]);
    }
  }

  /** A contribution that has been accepted stays byte for byte what it was, in every run. */
  lemma {:induction false} FinishedForever(w: World, s: State, run: seq<Event>)
    requires Inv(w, s)
    ensures FinishedKept(s, After(w, s, run)) && s.history <= After(w, s, run).history
  {
    hide Inv, Next, Stored;
    if run != [] {
      var t := After(w, s, run[..|run| - 1]);
      FinishedForever(w, s, run[..|run| - 1]);
      RunFrom(w, s, run[..|run| - 1]);
      NextKeepsFinished(w, t, run[|run| - 1]);
      KeptTwice(s, t, After(w, s, run));
    }
  }

  lemma KeptTwice(s: State, t: State, u: State)
    requires FinishedKept(s, t) && FinishedKept(t, u)
    ensures FinishedKept(s, u)
  {
    hide Stored;
    forall k | IsFinished(s.rows, k) ensures KeptFor(s, u, k) {
      assert KeptFor(s, t, k) && KeptFor(t, u, k);
    }
  }

  // ---- The finished contributors, as the query lists them ----

  function Keys(history: seq<Verified>): (keys: seq<Key>)
    ensures |keys| == |history|
  {
    seq(|history|, i requires 0 <= i < |history| => history[i].key)
  }

  lemma HasFirst(xs: seq<Key>)
    ensures xs != [] ==> xs[0] in xs
  {
  }

  lemma FirstComesFirst(rows: Rows, xs: seq<Key>, k: Key)
    requires k in xs && forall i, j | 0 <= i < j < |xs| :: FinishedBefore(rows, xs[i], xs[j])
    ensures xs[0] == k || FinishedBefore(rows, xs[0], k)
  {
    var i :| 0 <= i < |xs| && xs[i] == k;
    if i > 0 {
      assert FinishedBefore(rows, xs[0], xs[i]);
    }
  }

  /** Two lists that are strictly ordered in the same way and have the same elements are equal. */
  lemma {:induction false} SameOrder(rows: Rows, xs: seq<Key>, ys: seq<Key>)
    requires forall i, j | 0 <= i < j < |xs| :: FinishedBefore(rows, xs[i], xs[j])
    requires forall i, j | 0 <= i < j < |ys| :: FinishedBefore(rows, ys[i], ys[j])
    requires forall k :: k in xs <==> k in ys
    ensures xs == ys
  {
    HasFirst(xs);
    HasFirst(ys);
    if xs != [] {
      FirstComesFirst(rows, xs, ys[0]);
      FirstComesFirst(rows, ys, xs[0]);
      assert xs[0] == ys[0];
      TailElements(rows, xs, ys);
      TailElements(rows, ys, xs);
      SameOrder(rows, xs[1..], ys[1..]);
      assert xs == [xs[0]] + xs[1..] && ys == [ys[0]] + ys[1..];
    }
  }

  lemma TailElements(rows: Rows, xs: seq<Key>, ys: seq<Key>)
    requires xs != [] && ys != [] && xs[0] == ys[0]
    requires forall i, j | 0 <= i < j < |xs| :: FinishedBefore(rows, xs[i], xs[j])
    requires forall k | k in xs :: k in ys
    ensures forall k | k in xs[1..] :: k in ys[1..]
  {
    forall k | k in xs[1..] ensures k in ys[1..] {
      var i :| 0 <= i < |xs| - 1 && xs[1..][i] == k;
      assert FinishedBefore(rows, xs[0], xs[i + 1]);
      assert k in xs && k != ys[0];
      var j :| 0 <= j < |ys| && ys[j] == k;
      assert ys[1..][j - 1] == k;
    }
  }

  lemma ListIsHistory(w: World, s: State, keys: seq<Key>)
    requires Inv(w, s) && IsFinishedList(s.rows, keys)
    ensures keys == Keys(s.history)
  {
    hide Stored, RowOk;
    var order := Keys(s.history);
    forall i, j | 0 <= i < j < |keys| ensures FinishedBefore(s.rows, keys[i], keys[j]) {
      StrictlyBefore(s.rows, keys[i], keys[j], s.clock);
    }
    forall k ensures k in keys <==> k in order {
      if k in order {
        var i :| 0 <= i < |order| && order[i] == k;
        assert EntryOk(w, s.rows, s.files, s.history, i);
      }
      if k in keys {
        assert Listed(s.history, k);
        var i :| 0 <= i < |s.history| && s.history[i].key == k;
        assert order[i] == k;
      }
    }
    SameOrder(s.rows, keys, order);
  }

  /** There is such a list in every reachable state: the history itself. */
  lemma HistoryIsList(w: World, s: State)
    requires Inv(w, s)
    ensures IsFinishedList(s.rows, Keys(s.history))
  {
    hide Stored, RowsOk;
    var order := Keys(s.history);
    forall i | 0 <= i < |order| ensures IsFinished(s.rows, order[i]) {
      assert EntryOk(w, s.rows, s.files, s.history, i);
    }
    forall k | IsFinished(s.rows, k) ensures k in order {
      assert Listed(s.history, k);
      var i :| 0 <= i < |s.history| && s.history[i].key == k;
      assert order[i] == k;
    }
    forall i, j | 0 <= i < j < |order| ensures FinishedBefore(s.rows, order[i], order[j]) {
      assert FinishedBefore(s.rows, s.history[i].key, s.history[j].key);
    }
  }

  lemma StrictlyBefore(rows: Rows, j: Key, k: Key, clock: nat)
    requires RowsOk(rows, clock) && IsFinished(rows, j) && IsFinished(rows, k) && j != k
    requires AtMost(rows[j].finishedVerifyAt, rows[k].finishedVerifyAt)
    ensures FinishedBefore(rows, j, k)
  {
    assert RowOk(rows[j], clock) && RowOk(rows[k], clock);
    assert !SameFinish(rows, j, k);
  }

  ghost predicate AcceptedOn(w: World, bytes: Bytes, previous: Option<Bytes>, tape: seq<nat>) {
    w.verdict(bytes, previous, tape) == Accept
  }

  /** The contributor's file has the announced hash, and on the random choices that were drawn it
      was accepted against the file of the contributor listed before, or against none. */
  ghost predicate Link(w: World, rows: Rows, files: Files, k: Key, previous: Option<Key>, tape: seq<nat>) {
    && k in rows
    && Stored(files, k).Some?
    && rows[k].contributionHash == Some(w.hashOf(Stored(files, k).value))
    && w.parse(Stored(files, k).value) == Accept
    && (previous.Some? ==> Stored(files, previous.value).Some?)
    && AcceptedOn(w, Stored(files, k).value, StoredPrevious(files, previous), tape)
  }

  ghost function KeyBefore(keys: seq<Key>, i: nat): Option<Key>
    requires i < |keys|
  {
    if i == 0 then None else Some(keys[i - 1])
  }

  lemma HistoryLink(w: World, rows: Rows, files: Files, history: seq<Verified>, i: nat)
    requires HistoryOk(w, rows, files, history) && i < |history|
    ensures Link(w, rows, files, history[i].key, PreviousKey(history, i), history[i].tape)
  {
    hide Stored;
    assert EntryOk(w, rows, files, history, i);
    assert i > 0 ==> EntryOk(w, rows, files, history, i - 1);
  }

  /** The main theorem about the server: after any run, take the finished contributors in the
      order in which the server lists them. Every one has a stored file with the hash it
      announced, and that file was accepted, on the random choices drawn for it, against the
      file now stored for the contributor listed before it, the first one against none. */
  lemma AcceptedChain(w: World, clock: nat, run: seq<Event>, keys: seq<Key>, i: nat)
    requires IsFinishedList(After(w, Initial(clock), run).rows, keys) && i < |keys|
    ensures var s := After(w, Initial(clock), run);
      |s.history| == |keys| && Link(w, s.rows, s.files, keys[i], KeyBefore(keys, i), s.history[i].tape)
  {
    hide Link, RowsOk, After, IsFinishedList, HistoryOk;
    var s := After(w, Initial(clock), run);
    RunKeeps(w, clock, run);
    ListIsHistory(w, s, keys);
    HistoryLink(w, s.rows, s.files, s.history, i);
  }

  // ---- One turn at the head of the queue ----

  /** Nothing is accepted while the same contributor stays at the head. */
  lemma TurnKeepsHistory(w: World, s: State, e: Event, k: Key)
    requires Inv(w, s) && IsHead(s.rows, k) && IsHead(Next(w, s, e).rows, k)
    ensures Next(w, s, e).history == s.history
  {
    hide Inv, Stored, Performed, Concluded, RowsOk, PlanOf, IsHead;
    if CanHappen(s, e) {
      match e
      case Perform(gap) => InvHandler(w, s); PerformKeepsFinished(w, s, gap);
      case Conclude(id, gap) => TurnEnds(w, s, id, gap, k);
      case _ =>
    }
  }

  lemma TurnEnds(w: World, s: State, id: nat, gap: nat, k: Key)
    requires Inv(w, s) && CanHappen(s, Conclude(id, gap)) && IsHead(s.rows, k)
    ensures !IsHead(Concluded(s, id, gap).rows, k)
  {
    hide Inv, RowsOk, Current;
    TaskConcludesItsOwn(w, s, id);
    InvRows(w, s);
    CurrentKnown(s.rows, k, s.clock);
  }

  lemma InvRows(w: World, s: State)
    requires Inv(w, s)
    ensures RowsOk(s.rows, s.clock)
  {
  }

  /** The contributor is at the head from the state on, after every event of the run. */
  ghost predicate HeadThroughout(w: World, s: State, run: seq<Event>, k: Key) {
    forall i | 0 <= i <= |run| :: IsHead(After(w, s, run[..i]).rows, k)
  }

  lemma HeadEarlier(w: World, s: State, run: seq<Event>, k: Key)
    requires HeadThroughout(w, s, run, k) && run != []
    ensures HeadThroughout(w, s, run[..|run| - 1], k)
    ensures IsHead(After(w, s, run[..|run| - 1]).rows, k) && IsHead(After(w, s, run).rows, k)
  {
    hide After, IsHead;
    var run' := run[..|run| - 1];
    forall i | 0 <= i <= |run'| ensures IsHead(After(w, s, run'[..i]).rows, k) {
      assert run'[..i] == run[..i];
    }
    assert run[..|run|] == run;
  }

  lemma {:induction false} TurnHistory(w: World, s: State, run: seq<Event>, k: Key)
    requires Inv(w, s) && HeadThroughout(w, s, run, k)
    ensures After(w, s, run).history == s.history
  {
    hide Inv, Next, IsHead, HeadThroughout;
    if run != [] {
      HeadEarlier(w, s, run, k);
      TurnHistory(w, s, run[..|run| - 1], k);
      RunFrom(w, s, run[..|run| - 1]);
      TurnKeepsHistory(w, After(w, s, run[..|run| - 1]), run[|run| - 1], k);
    }
  }

  /** The previous contribution is the same throughout a turn: the contributor whose file is
      offered for download, and its bytes, are the ones that the verification job later uses. */
  lemma DownloadedIsVerifiedAgainst(w: World, s: State, run: seq<Event>, k: Key, id: nat)
    requires Inv(w, s) && HeadThroughout(w, s, run, k)
    requires var t := After(w, s, run); id in t.jobs && (t.jobs[id].progress.HasBoth? || t.jobs[id].progress.Passed?)
    ensures var job := After(w, s, run).jobs[id];
      && job.key == k
      && job.progress.previous == MostRecentFinished(s.rows)
      && job.progress.previousBytes == StoredPrevious(s.files, MostRecentFinished(s.rows))
  {
    hide Next, IsHead, HeadThroughout, RowsOk, JobsOk, Stored, FinishedKept;
    var t := After(w, s, run);
    TurnHistory(w, s, run, k);
    RunFrom(w, s, run);
    TaskData(w, t, id);
    LatestIsLast(w, s.rows, s.files, s.history, s.clock);
    FinishedForever(w, s, run);
    HeadAtEnd(w, s, run, k);
    TaskConcludesItsOwn(w, t, id);
    CurrentKnown(t.rows, k, t.clock);
    LastStored(w, s, t);
  }

  lemma HeadAtEnd(w: World, s: State, run: seq<Event>, k: Key)
    requires HeadThroughout(w, s, run, k)
    ensures IsHead(After(w, s, run).rows, k)
  {
    hide After, IsHead;
    assert run[..|run|] == run;
  }

  lemma LastStored(w: World, s: State, t: State)
    requires HistoryOk(w, s.rows, s.files, s.history) && FinishedKept(s, t)
    ensures StoredPrevious(t.files, LastKey(s.history)) == StoredPrevious(s.files, LastKey(s.history))
  {
    hide Stored;
    if s.history != [] {
      assert EntryOk(w, s.rows, s.files, s.history, |s.history| - 1);
      assert KeptFor(s, t, s.history[|s.history| - 1].key);
    }
  }

  /** A status answer never fails for want of the previous file. */
  lemma PreviousFileExists(w: World, s: State)
    requires Inv(w, s)
    ensures MostRecentFinished(s.rows).Some? ==> Whole(MostRecentFinished(s.rows).value) in s.files
  {
    LatestIsLast(w, s.rows, s.files, s.history, s.clock);
    if s.history != [] {
      assert EntryOk(w, s.rows, s.files, s.history, |s.history| - 1);
    }
  }
}
