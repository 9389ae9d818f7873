/** What holds in every state the server can reach, whatever is interleaved. */
module CeremonyInvariant {
  import opened Outcomes
  import opened Octets
  import opened ContributorsDb
  import opened ContributionFiles
  import opened QueueLaws
  import opened Ceremony

  // ---- Pending effects ----

  ghost predicate UploadingHead(rows: Rows, k: Key) {
    IsHead(rows, k) && rows[k].Step().UploadStarted?
  }

  ghost predicate VerifyingHead(rows: Rows, k: Key) {
    IsHead(rows, k) && rows[k].Step() == Verifying
  }

  /** Writes that a handler makes by name. */
  predicate NamedWrite(move: Move) {
    !move.FinishUpload? && !move.FinishVerify? && !move.Kick?
  }

  /** Why an effect that is still to come may be made. */
  ghost predicate EffectOk(rows: Rows, effect: Effect) {
    match effect
    case Write(k, move) => NamedWrite(move) && Enabled(rows, k, move)
    case KickCurrent(_) => exists k :: IsHead(rows, k) && !VerifyingHead(rows, k)
    case Drop(o) => UploadingHead(rows, o.key)
    case Delete(o) => o.Part? && UploadingHead(rows, o.key)
    case Require(_) => true
    case Compose(k) => UploadingHead(rows, k)
    case FinishAndVerify(k, _) => UploadingHead(rows, k)
  }

  /** Effects that change nobody's place or step. */
  predicate Gentle(effect: Effect) {
    effect.Drop? || effect.Delete? || effect.Require? || effect.Compose? || (effect.Write? && effect.move.Touch?)
  }

  /** After an effect that is not gentle there is nothing left but lookups, and after an upload
      is marked finished there is nothing left at all. */
  ghost predicate OneDecision(effects: seq<Effect>) {
    && (forall i, j | 0 <= i < j < |effects| && !Gentle(effects[i]) :: effects[j].Require?)
    && (forall i | 0 <= i < |effects| && effects[i].FinishAndVerify? :: i == |effects| - 1)
  }

  /** An upload that is about to be marked finished has been composed, or is composed first. */
  ghost predicate ComposedFirst(files: Files, effects: seq<Effect>) {
    effects != [] && effects[|effects| - 1].FinishAndVerify? ==>
      && (effects[0] == Compose(effects[|effects| - 1].key) || Stored(files, effects[|effects| - 1].key).Some?)
      && (forall e | e in effects :: !e.Drop?)
  }

  ghost predicate EffectsOk(rows: Rows, effects: seq<Effect>) {
    forall e | e in effects :: EffectOk(rows, e)
  }

  ghost predicate HandlerOk(rows: Rows, files: Files, effects: seq<Effect>) {
    effects != [] && EffectsOk(rows, effects) && OneDecision(effects) && ComposedFirst(files, effects)
  }

  // ---- Stored files ----

  function Stored(files: Files, k: Key): Option<Bytes> {
    if Whole(k) in files then Some(files[Whole(k)]) else None
  }

  function StoredPrevious(files: Files, previous: Option<Key>): Option<Bytes> {
    if previous.None? then None else Stored(files, previous.value)
  }

  // ---- Verification jobs ----

  ghost predicate JobOk(rows: Rows, job: Job) {
    VerifyingHead(rows, job.key) && rows[job.key].contributionHash == Some(job.hash)
  }

  /** There is at most one job; it is there exactly while the head is being verified, and it
      is the head's. */
  ghost predicate JobsOk(rows: Rows, jobs: map<nat, Job>, nextJob: nat) {
    && (forall id | id in jobs :: id < nextJob && JobOk(rows, jobs[id]))
    && (forall i, j | i in jobs && j in jobs :: i == j)
    && (forall k | VerifyingHead(rows, k) :: jobs != map[])
  }

  ghost function LastKey(history: seq<Verified>): Option<Key> {
    if history == [] then None else Some(history[|history| - 1].key)
  }

  ghost predicate CurrentRead(w: World, files: Files, job: Job, bytes: Bytes) {
    Stored(files, job.key) == Some(bytes) && w.hashOf(bytes) == job.hash && w.parse(bytes) == Accept
  }

  ghost predicate PreviousRead(files: Files, previous: Option<Key>, previousBytes: Option<Bytes>) {
    previousBytes == StoredPrevious(files, previous)
  }

  /** What a job has read is what is still stored. */
  ghost predicate JobData(w: World, files: Files, history: seq<Verified>, job: Job) {
    match job.progress
    case Spawned => true
    case Chosen(previous) => previous == LastKey(history)
    case HasCurrent(previous, bytes) => previous == LastKey(history) && CurrentRead(w, files, job, bytes)
    case HasBoth(previous, bytes, previousBytes) =>
      previous == LastKey(history) && CurrentRead(w, files, job, bytes) && PreviousRead(files, previous, previousBytes)
    case Passed(previous, bytes, previousBytes, tape) =>
      previous == LastKey(history) && CurrentRead(w, files, job, bytes) && PreviousRead(files, previous, previousBytes)
      && w.verdict(bytes, previousBytes, tape) == Accept
    case Failed => true
  }

  ghost predicate AllJobData(w: World, files: Files, history: seq<Verified>, jobs: map<nat, Job>) {
    forall id | id in jobs :: JobData(w, files, history, jobs[id])
  }

  // ---- The chain of accepted contributions ----

  ghost function PreviousKey(history: seq<Verified>, i: nat): Option<Key>
    requires i < |history|
  {
    if i == 0 then None else Some(history[i - 1].key)
  }

  /** The file is stored with the announced hash, and it was accepted against the file, still
      stored, of the contribution before it. */
  ghost predicate EntryOk(w: World, rows: Rows, files: Files, history: seq<Verified>, i: nat)
    requires i < |history|
  {
    var k := history[i].key;
    && IsFinished(rows, k)
    && Stored(files, k).Some?
    && rows[k].contributionHash == Some(w.hashOf(Stored(files, k).value))
    && w.parse(Stored(files, k).value) == Accept
    && w.verdict(Stored(files, k).value, StoredPrevious(files, PreviousKey(history, i)), history[i].tape) == Accept
  }

  ghost predicate Listed(history: seq<Verified>, k: Key) {
    exists i :: 0 <= i < |history| && history[i].key == k
  }

  ghost predicate InFinishOrder(rows: Rows, history: seq<Verified>) {
    forall i, j | 0 <= i < j < |history| :: FinishedBefore(rows, history[i].key, history[j].key)
  }

  ghost predicate FinishedBefore(rows: Rows, j: Key, k: Key) {
    j in rows && k in rows && Before(rows[j].finishedVerifyAt, rows[k].finishedVerifyAt)
  }

  ghost predicate HistoryOk(w: World, rows: Rows, files: Files, history: seq<Verified>) {
    && (forall i | 0 <= i < |history| :: EntryOk(w, rows, files, history, i))
    && (forall k | IsFinished(rows, k) :: Listed(history, k))
    && InFinishOrder(rows, history)
  }

  ghost predicate VerifyingStored(rows: Rows, files: Files) {
    forall k | VerifyingHead(rows, k) :: Stored(files, k).Some?
  }

  ghost predicate Inv(w: World, s: State) {
    && RowsOk(s.rows, s.clock)
    && (s.handler.Some? ==> HandlerOk(s.rows, s.files, s.handler.value.effects))
    && JobsOk(s.rows, s.jobs, s.nextJob)
    && AllJobData(w, s.files, s.history, s.jobs)
    && HistoryOk(w, s.rows, s.files, s.history)
    && VerifyingStored(s.rows, s.files)
  }

  lemma InitialInv(w: World, clock: nat)
    ensures Inv(w, Initial(clock))
  {
  }

  // ---- Frames ----

  /** The same contributors are finished or being verified, with the same hashes and times. */
  ghost predicate Steady(rows: Rows, rows': Rows) {
    && (forall k :: VerifyingHead(rows', k) <==> VerifyingHead(rows, k))
    && (forall k :: IsFinished(rows', k) <==> IsFinished(rows, k))
    && (forall k | VerifyingHead(rows, k) || IsFinished(rows, k) ::
          rows'[k].contributionHash == rows[k].contributionHash && rows'[k].finishedVerifyAt == rows[k].finishedVerifyAt)
  }

  /** The files of the finished and of the one being verified stay as they are. */
  ghost predicate FilesKept(rows: Rows, files: Files, files': Files) {
    forall k | VerifyingHead(rows, k) || IsFinished(rows, k) :: Stored(files', k) == Stored(files, k)
  }

  lemma SteadySelf(rows: Rows)
    ensures Steady(rows, rows)
  {
  }

  lemma JobsKept(rows: Rows, rows': Rows, jobs: map<nat, Job>, nextJob: nat)
    requires Steady(rows, rows') && JobsOk(rows, jobs, nextJob)
    ensures JobsOk(rows', jobs, nextJob)
  {
    hide IsHead;
    assert forall id | id in jobs :: JobOk(rows, jobs[id]);
  }

  lemma HistoryKept(w: World, rows: Rows, rows': Rows, files: Files, files': Files, history: seq<Verified>)
    requires HistoryOk(w, rows, files, history) && Steady(rows, rows') && FilesKept(rows, files, files')
    ensures HistoryOk(w, rows', files', history)
  {
    hide VerifyingHead, Stored;
    forall i | 0 <= i < |history| ensures EntryOk(w, rows', files', history, i) {
      assert EntryOk(w, rows, files, history, i);
      if i > 0 {
        assert EntryOk(w, rows, files, history, i - 1);
      }
    }
    forall i, j | 0 <= i < j < |history| ensures FinishedBefore(rows', history[i].key, history[j].key) {
      assert EntryOk(w, rows, files, history, i) && EntryOk(w, rows, files, history, j);
    }
    forall k | IsFinished(rows', k) ensures Listed(history, k) {
      assert IsFinished(rows, k);
    }
  }

  lemma JobDataKept(w: World, rows: Rows, files: Files, files': Files, history: seq<Verified>, job: Job)
    requires HistoryOk(w, rows, files, history) && FilesKept(rows, files, files')
    requires VerifyingHead(rows, job.key) && JobData(w, files, history, job)
    ensures JobData(w, files', history, job)
  {
    hide VerifyingHead, Stored, InFinishOrder;
    if history != [] {
      assert EntryOk(w, rows, files, history, |history| - 1);
    }
  }

  lemma AllJobDataKept(w: World, rows: Rows, files: Files, files': Files, history: seq<Verified>, jobs: map<nat, Job>, nextJob: nat)
    requires HistoryOk(w, rows, files, history) && FilesKept(rows, files, files')
    requires JobsOk(rows, jobs, nextJob) && AllJobData(w, files, history, jobs)
    ensures AllJobData(w, files', history, jobs)
  {
    hide HistoryOk, FilesKept, JobData, IsHead;
    forall id | id in jobs ensures JobData(w, files', history, jobs[id]) {
      assert JobOk(rows, jobs[id]);
      JobDataKept(w, rows, files, files', history, jobs[id]);
    }
  }

  lemma VerifyingStoredKept(rows: Rows, rows': Rows, files: Files, files': Files)
    requires VerifyingStored(rows, files) && Steady(rows, rows') && FilesKept(rows, files, files')
    ensures VerifyingStored(rows', files')
  {
    hide VerifyingHead, Stored;
  }

  /** The part of the invariant that does not speak of the handler. */
  ghost predicate Core(w: World, s: State) {
    && JobsOk(s.rows, s.jobs, s.nextJob)
    && AllJobData(w, s.files, s.history, s.jobs)
    && HistoryOk(w, s.rows, s.files, s.history)
    && VerifyingStored(s.rows, s.files)
  }

  lemma CoreKept(w: World, s: State, s': State)
    requires Core(w, s) && s'.jobs == s.jobs && s'.nextJob == s.nextJob && s'.history == s.history
    requires Steady(s.rows, s'.rows) && FilesKept(s.rows, s.files, s'.files)
    ensures Core(w, s')
  {
    hide JobsOk, AllJobData, HistoryOk, VerifyingStored, Steady, FilesKept;
    JobsKept(s.rows, s'.rows, s.jobs, s.nextJob);
    AllJobDataKept(w, s.rows, s.files, s'.files, s.history, s.jobs, s.nextJob);
    HistoryKept(w, s.rows, s'.rows, s.files, s'.files, s.history);
    VerifyingStoredKept(s.rows, s'.rows, s.files, s'.files);
  }
}
