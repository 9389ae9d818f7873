/** An honest upload from the moment its parts are composed. */
module HonestUpload {
  import opened Outcomes
  import opened Octets
  import opened ContributorsDb
  import opened ContributionFiles
  import opened Ceremony
  import opened CeremonyInvariant
  import opened CeremonyEvents
  import opened CeremonySafety
  import opened CeremonyTasks
  import opened HonestTurn
  import opened Upload

  /** What the last progress message of an upload sets out to do: compose the parts, delete them,
      and mark the upload finished. */
  function UploadEffects(k: Key, hash: string): (r: seq<Effect>)
    ensures |r| == PARALLEL_UPLOAD_PARTS + 2 && r[0] == Compose(k) && r[PARALLEL_UPLOAD_PARTS + 1] == FinishAndVerify(k, hash)
    ensures forall i | 1 <= i <= PARALLEL_UPLOAD_PARTS :: r[i] == Delete(Part(k, i - 1))
  {
    FinalizeUpload(k) + [FinishAndVerify(k, hash)]
  }

  /** The stored file parses and will pass against the previous one whatever is drawn. */
  ghost predicate Promising(w: World, s: State, k: Key, bytes: Bytes) {
    && Stored(s.files, k) == Some(bytes) && w.parse(bytes) == Accept
    && AlwaysAccepted(w, bytes, StoredPrevious(s.files, LastKey(s.history)))
  }

  /** `j` operations of the upload have been made; the parts not yet deleted are there. */
  ghost predicate ClosingAt(w: World, s: State, k: Key, bytes: Bytes, j: nat) {
    && 1 <= j <= PARALLEL_UPLOAD_PARTS + 1
    && s.handler.Some? && s.handler.value.effects == UploadEffects(k, w.hashOf(bytes))[j..]
    && (forall i | j - 1 <= i < PARALLEL_UPLOAD_PARTS :: Part(k, i) in s.files)
    && Promising(w, s, k, bytes)
  }

  ghost predicate Closing(w: World, s: State, k: Key, bytes: Bytes) {
    exists j: nat :: ClosingAt(w, s, k, bytes, j)
  }

  lemma UploaderIsHead(w: World, s: State, k: Key, hash: string, j: nat)
    requires Inv(w, s) && s.handler.Some? && j <= PARALLEL_UPLOAD_PARTS + 1
    requires s.handler.value.effects == UploadEffects(k, hash)[j..]
    ensures UploadingHead(s.rows, k) && k in s.rows && s.jobs == map[]
  {
    var effects := s.handler.value.effects;
    assert effects[|effects| - 1] == FinishAndVerify(k, hash) && effects[|effects| - 1] in effects;
    assert EffectOk(s.rows, FinishAndVerify(k, hash));
    NoOtherTask(s.rows, s.jobs, s.nextJob, k, s.clock);
  }

  lemma PromisingKept(w: World, s: State, s': State, k: Key, bytes: Bytes)
    requires Inv(w, s) && k in s.rows && Promising(w, s, k, bytes)
    requires s'.history == s.history && forall j | j in s.rows :: Stored(s'.files, j) == Stored(s.files, j)
    ensures Promising(w, s', k, bytes)
  {
    LastIsRegistered(w, s);
    hide Inv, Stored, AlwaysAccepted;
  }

  /** The parts become the whole. */
  lemma ComposeCloses(w: World, s: State, k: Key, slices: seq<Bytes>, bytes: Bytes, gap: nat)
    requires Inv(w, s) && s.handler.Some? && s.handler.value.effects == UploadEffects(k, w.hashOf(bytes))
    requires Uploaded(s.files, k, slices) && Flatten(slices) == bytes && w.parse(bytes) == Accept
    requires AlwaysAccepted(w, bytes, StoredPrevious(s.files, LastKey(s.history)))
    ensures ClosingAt(w, Next(w, s, Perform(gap)), k, bytes, 1)
  {
    hide AlwaysAccepted, Inv, AllParts, Composed, IsHead, IsFinished, Uploaded;
    var all := UploadEffects(k, w.hashOf(bytes));
    assert all[0..] == all;
    UploaderIsHead(w, s, k, w.hashOf(bytes), 0);
    SplitThenCompose(s.files, k, slices, bytes);
    LastIsAnother(w, s, k);
    PartsOf(s.files, k, slices);
  }

  lemma PartsOf(files: Files, k: Key, slices: seq<Bytes>)
    requires Uploaded(files, k, slices)
    ensures forall i | 0 <= i < PARALLEL_UPLOAD_PARTS :: Part(k, i) in AfterCompose(files, k)
  {
    hide Composed;
  }

  lemma LastIsAnother(w: World, s: State, k: Key)
    requires Inv(w, s) && IsHead(s.rows, k)
    ensures LastKey(s.history) != Some(k)
  {
    if s.history != [] {
      assert EntryOk(w, s.rows, s.files, s.history, |s.history| - 1);
    }
  }

  lemma DeleteCloses(w: World, s: State, k: Key, bytes: Bytes, j: nat, gap: nat)
    requires Inv(w, s) && ClosingAt(w, s, k, bytes, j) && j <= PARALLEL_UPLOAD_PARTS
    ensures ClosingAt(w, Performed(s, gap), k, bytes, j + 1)
  {
    UploaderIsHead(w, s, k, w.hashOf(bytes), j);
    hide Inv, Promising, UploadingHead, UploadEffects;
    assert s.handler.value.effects[0] == Delete(Part(k, j - 1));
    assert s.handler.value.effects[1..] == UploadEffects(k, w.hashOf(bytes))[j + 1..];
    PromisingKept(w, s, Performed(s, gap), k, bytes);
  }

  lemma FinishStarts(w: World, s: State, k: Key, bytes: Bytes, gap: nat)
    requires Inv(w, s) && ClosingAt(w, s, k, bytes, PARALLEL_UPLOAD_PARTS + 1)
    ensures OnCourse(w, Performed(s, gap), k, bytes)
  {
    hide Inv, OnCourse, UploadingHead, AlwaysAccepted, Stored, Updated, Steady;
    var now := s.clock + 1 + gap;
    UploaderIsHead(w, s, k, w.hashOf(bytes), PARALLEL_UPLOAD_PARTS + 1);
    UploadStartsOnCourse(w, s, k, w.hashOf(bytes), now, bytes);
    assert s.handler.value.effects == [FinishAndVerify(k, w.hashOf(bytes))];
    var t := Effected(s.(clock := now), FinishAndVerify(k, w.hashOf(bytes)), now).value;
    SteadySelf(t.rows);
    SteadyOnCourse(w, t, Performed(s, gap), k, bytes);
  }

  lemma FilesClosing(w: World, s: State, files': Files, k: Key, bytes: Bytes, j: nat)
    requires Inv(w, s) && ClosingAt(w, s, k, bytes, j)
    requires forall i | i in s.rows :: Stored(files', i) == Stored(s.files, i)
    requires forall i | 0 <= i < PARALLEL_UPLOAD_PARTS && Part(k, i) in s.files :: Part(k, i) in files'
    ensures ClosingAt(w, s.(files := files'), k, bytes, j)
  {
    UploaderIsHead(w, s, k, w.hashOf(bytes), j);
    hide Inv, Promising, UploadingHead, Stored;
    PromisingKept(w, s, s.(files := files'), k, bytes);
  }

  /** While the upload is being closed the mutex is held and there is no job, so only late parts
      and deletions for others can come between. */
  lemma NextClosing(w: World, s: State, e: Event, k: Key, bytes: Bytes)
    requires Inv(w, s) && Closing(w, s, k, bytes) && !e.Abort?
    ensures Closing(w, Next(w, s, e), k, bytes) || OnCourse(w, Next(w, s, e), k, bytes)
  {
    hide Inv, ClosingAt, OnCourse, Performed, Stored, UploadingHead;
    var j: nat :| ClosingAt(w, s, k, bytes, j);
    ClosingHolds(w, s, k, bytes, j);
    match e
    case Perform(gap) =>
      if j <= PARALLEL_UPLOAD_PARTS {
        DeleteCloses(w, s, k, bytes, j, gap);
      } else {
        FinishStarts(w, s, k, bytes, gap);
      }
    case PutPart(i, n, part) =>
      PutStored(s.files, i, n, part);
      FilesClosing(w, s, s.files[Part(i, n) := part], k, bytes, j);
    case DropForeign(o) =>
      if o.key !in s.rows {
        DropStored(s.rows, s.files, o);
        FilesClosing(w, s, s.files - {o}, k, bytes, j);
      }
    case _ =>
  }

  lemma ClosingHolds(w: World, s: State, k: Key, bytes: Bytes, j: nat)
    requires Inv(w, s) && ClosingAt(w, s, k, bytes, j)
    ensures 1 <= j <= PARALLEL_UPLOAD_PARTS + 1 && s.handler.Some? && s.handler.value.effects != []
    ensures k in s.rows && s.jobs == map[]
  {
    UploaderIsHead(w, s, k, w.hashOf(bytes), j);
  }

  /** No operation fails while the upload is being closed. */
  ghost predicate NotCutOff(w: World, s: State, run: seq<Event>, k: Key, bytes: Bytes) {
    forall i | 0 <= i < |run| && run[i].Abort? :: !Closing(w, After(w, s, run[..i]), k, bytes)
  }

  /** From the composed file on, whatever else happens, the contributor is about to be verified,
      being verified with a file that deserves it, or finished. */
  lemma {:induction false} ClosedIsFinished(w: World, s: State, run: seq<Event>, k: Key, bytes: Bytes)
    requires Inv(w, s) && Closing(w, s, k, bytes) && NoFault(run) && NotCutOff(w, s, run, k, bytes)
    ensures var t := After(w, s, run);
      Closing(w, t, k, bytes) || OnCourse(w, t, k, bytes) || IsFinished(t.rows, k)
  {
    hide Inv, Next, Closing, OnCourse, IsFinished, FinishedKept;
    if run != [] {
      var run', e := run[..|run| - 1], run[|run| - 1];
      var t := After(w, s, run');
      assert NotCutOff(w, s, run', k, bytes) by {
        forall i | 0 <= i < |run'| && run'[i].Abort? ensures !Closing(w, After(w, s, run'[..i]), k, bytes) {
          assert run'[..i] == run[..i];
        }
      }
      ClosedIsFinished(w, s, run', k, bytes);
      RunFrom(w, s, run');
      assert e in run;
      if Closing(w, t, k, bytes) {
        NextClosing(w, t, e, k, bytes);
      } else if OnCourse(w, t, k, bytes) {
        NextOnCourse(w, t, e, k, bytes);
      } else {
        NextKeepsFinished(w, t, e);
        FinishedStays(t, Next(w, t, e), k);
      }
    }
  }
}
