/** An upload that deserves to be accepted is accepted, whatever happens beside it. */
module HonestTurn {
  import opened Outcomes
  import opened Octets
  import opened ContributorsDb
  import opened ContributionFiles
  import opened QueueLaws
  import opened Ceremony
  import opened CeremonyInvariant
  import opened CeremonySteps
  import opened CeremonyEvents
  import opened CeremonyTasks
  import opened CeremonySafety

  /** The bytes parse, have the announced hash, and pass against the previous file whatever is drawn. */
  ghost predicate Deserves(w: World, s: State, k: Key, bytes: Bytes) {
    && Stored(s.files, k) == Some(bytes)
    && k in s.rows && s.rows[k].contributionHash == Some(w.hashOf(bytes))
    && w.parse(bytes) == Accept
    && AlwaysAccepted(w, bytes, StoredPrevious(s.files, LastKey(s.history)))
  }

  ghost predicate AlwaysAccepted(w: World, bytes: Bytes, previous: Option<Bytes>) {
    forall tape :: AcceptedOn(w, bytes, previous, tape)
  }

  ghost predicate NoneFailed(jobs: map<nat, Job>) {
    forall id | id in jobs :: !jobs[id].progress.Failed?
  }

  /** Being verified, with a file that deserves it and a job that has not failed. */
  ghost predicate OnCourse(w: World, s: State, k: Key, bytes: Bytes) {
    VerifyingHead(s.rows, k) && Deserves(w, s, k, bytes) && NoneFailed(s.jobs)
  }

  // ---- Handlers ----

  /** A handler can do nothing to the contributor who is being verified. */
  lemma EffectSparesVerifying(w: World, s: State, effect: Effect, now: nat, k: Key)
    requires RowsOk(s.rows, s.clock) && s.clock < now && EffectOk(s.rows, effect) && VerifyingHead(s.rows, k)
    requires Effected(s.(clock := now), effect, now).Some?
    ensures effect.Write? || effect.Require?
    ensures var s' := Effected(s.(clock := now), effect, now).value;
      && Steady(s.rows, s'.rows) && s'.files == s.files && s'.jobs == s.jobs && s'.history == s.history
  {
    hide RowsOk, IsHead, Updated, Enabled, Steady;
    SteadySelf(s.rows);
    match effect
    case Write(j, move) => HarmlessSteady(s.rows, j, move, s.clock, now);
    case KickCurrent(_) =>
      var j :| IsHead(s.rows, j) && !VerifyingHead(s.rows, j);
      OneHead(s.rows, j, k, s.clock);
    case Drop(o) => OneHead(s.rows, o.key, k, s.clock);
    case Delete(o) => OneHead(s.rows, o.key, k, s.clock);
    case Require(_) =>
    case Compose(j) => OneHead(s.rows, j, k, s.clock);
    case FinishAndVerify(j, _) => OneHead(s.rows, j, k, s.clock);
  }

  lemma OneHead(rows: Rows, j: Key, k: Key, clock: nat)
    requires RowsOk(rows, clock) && IsHead(rows, j) && IsHead(rows, k)
    ensures j == k
  {
    HeadUnique(rows, j, k, clock);
  }

  lemma SteadyOnCourse(w: World, s: State, s': State, k: Key, bytes: Bytes)
    requires OnCourse(w, s, k, bytes) && Steady(s.rows, s'.rows)
    requires s'.files == s.files && s'.jobs == s.jobs && s'.history == s.history
    ensures OnCourse(w, s', k, bytes)
  {
    hide VerifyingHead, Stored, AlwaysAccepted;
    InTable(s'.rows, k);
  }

  lemma PerformOnCourse(w: World, s: State, gap: nat, k: Key, bytes: Bytes)
    requires Inv(w, s) && OnCourse(w, s, k, bytes) && s.handler.Some? && s.handler.value.effects != []
    ensures OnCourse(w, Performed(s, gap), k, bytes)
  {
    hide Inv, Effected, EffectOk, RowsOk, Deserves, VerifyingHead, Steady;
    InvRows(w, s);
    InvFirst(w, s);
    var now := s.clock + 1 + gap;
    var effect := s.handler.value.effects[0];
    SteadySelf(s.rows);
    if Effected(s.(clock := now), effect, now).Some? {
      EffectSparesVerifying(w, s, effect, now, k);
    }
    SteadyOnCourse(w, s, Performed(s, gap), k, bytes);
  }

  lemma InvFirst(w: World, s: State)
    requires Inv(w, s) && s.handler.Some?
    ensures s.handler.value.effects != [] && EffectOk(s.rows, s.handler.value.effects[0])
  {
    hide EffectOk, RowsOk, JobsOk, HistoryOk;
    FirstIsOk(s.rows, s.files, s.handler.value.effects);
  }

  // ---- Files ----

  lemma OtherFilesOnCourse(w: World, s: State, files': Files, k: Key, bytes: Bytes)
    requires Inv(w, s) && OnCourse(w, s, k, bytes)
    requires forall j | j in s.rows :: Stored(files', j) == Stored(s.files, j)
    ensures OnCourse(w, s.(files := files'), k, bytes)
  {
    LastIsRegistered(w, s);
    hide Inv, Stored, VerifyingHead, AlwaysAccepted;
  }

  lemma LastIsRegistered(w: World, s: State)
    requires Inv(w, s)
    ensures LastKey(s.history).Some? ==> LastKey(s.history).value in s.rows
  {
    hide RowsOk, JobsOk, Stored;
    if s.history != [] {
      assert EntryOk(w, s.rows, s.files, s.history, |s.history| - 1);
    }
  }

  // ---- The job ----

  lemma JobOnCourse(w: World, s: State, id: nat, progress: Progress, k: Key, bytes: Bytes)
    requires OnCourse(w, s, k, bytes) && id in s.jobs && !progress.Failed?
    ensures OnCourse(w, WithJob(s, id, progress), k, bytes)
  {
    hide VerifyingHead, Stored, AlwaysAccepted;
  }

  lemma TaskIsTheHeads(w: World, s: State, id: nat, k: Key)
    requires Inv(w, s) && VerifyingHead(s.rows, k) && id in s.jobs
    ensures s.jobs[id].key == k && JobData(w, s.files, s.history, s.jobs[id])
    ensures s.rows[k].contributionHash == Some(s.jobs[id].hash)
  {
    TaskData(w, s, id);
    InvRows(w, s);
    OneHead(s.rows, s.jobs[id].key, k, s.clock);
  }

  lemma ReadCurrentOnCourse(w: World, s: State, id: nat, k: Key, bytes: Bytes)
    requires Inv(w, s) && OnCourse(w, s, k, bytes) && CanHappen(s, ReadCurrent(id))
    ensures OnCourse(w, AfterReadCurrent(w, s, id), k, bytes)
  {
    TaskIsTheHeads(w, s, id, k);
    hide Inv, VerifyingHead;
    assert AfterReadCurrent(w, s, id) == WithJob(s, id, HasCurrent(s.jobs[id].progress.previous, bytes));
    JobOnCourse(w, s, id, HasCurrent(s.jobs[id].progress.previous, bytes), k, bytes);
  }

  lemma PreviousParses(w: World, s: State)
    requires Inv(w, s) && s.history != []
    ensures Stored(s.files, LastKey(s.history).value).Some?
    ensures w.parse(Stored(s.files, LastKey(s.history).value).value) == Accept
  {
    assert EntryOk(w, s.rows, s.files, s.history, |s.history| - 1);
  }

  lemma ReadPreviousOnCourse(w: World, s: State, id: nat, k: Key, bytes: Bytes)
    requires Inv(w, s) && OnCourse(w, s, k, bytes) && CanHappen(s, ReadPrevious(id))
    ensures OnCourse(w, AfterReadPrevious(w, s, id), k, bytes)
  {
    TaskIsTheHeads(w, s, id, k);
    if s.history != [] {
      PreviousParses(w, s);
    }
    hide Inv, VerifyingHead;
    var HasCurrent(previous, current) := s.jobs[id].progress;
    var progress := HasBoth(previous, current, StoredPrevious(s.files, previous));
    assert AfterReadPrevious(w, s, id) == WithJob(s, id, progress);
    JobOnCourse(w, s, id, progress, k, bytes);
  }

  lemma JudgeOnCourse(w: World, s: State, id: nat, tape: seq<nat>, k: Key, bytes: Bytes)
    requires Inv(w, s) && OnCourse(w, s, k, bytes) && CanHappen(s, Judge(id, tape))
    ensures OnCourse(w, AfterJudge(w, s, id, tape), k, bytes)
  {
    TaskIsTheHeads(w, s, id, k);
    hide Inv, VerifyingHead;
    var HasBoth(previous, current, previousBytes) := s.jobs[id].progress;
    assert current == bytes && AcceptedOn(w, bytes, previousBytes, tape);
    JobOnCourse(w, s, id, Passed(previous, current, previousBytes, tape), k, bytes);
  }

  lemma ConcludeFinishes(w: World, s: State, id: nat, gap: nat, k: Key, bytes: Bytes)
    requires Inv(w, s) && OnCourse(w, s, k, bytes) && CanHappen(s, Conclude(id, gap))
    ensures IsFinished(Concluded(s, id, gap).rows, k)
  {
    TaskConcludesItsOwn(w, s, id);
    TaskIsTheHeads(w, s, id, k);
    hide Inv, Current, IsHead;
  }

  // ---- Runs ----

  lemma NextOnCourse(w: World, s: State, e: Event, k: Key, bytes: Bytes)
    requires Inv(w, s) && OnCourse(w, s, k, bytes) && !e.Fault?
    ensures OnCourse(w, Next(w, s, e), k, bytes) || IsFinished(Next(w, s, e).rows, k)
  {
    hide Inv, Stored, Begun, Performed, Concluded, AfterReadCurrent, AfterReadPrevious, AfterJudge, WithJob, OnCourse, IsFinished, Steady;
    SteadySelf(s.rows);
    if CanHappen(s, e) {
      InvHandler(w, s);
      match e
      case Begin(msg, gap) => BegunSame(w, s, msg, gap); SteadyOnCourse(w, s, Begun(w, s, msg, gap), k, bytes);
      case Perform(gap) => PerformOnCourse(w, s, gap, k, bytes);
      case Abort => SteadyOnCourse(w, s, Released(s), k, bytes);
      case PutPart(j, i, part) =>
        PutStored(s.files, j, i, part);
        OtherFilesOnCourse(w, s, s.files[Part(j, i) := part], k, bytes);
      case DropForeign(o) =>
        DropStored(s.rows, s.files, o);
        OtherFilesOnCourse(w, s, s.files - {o}, k, bytes);
      case ChoosePrevious(id) => JobOnCourse(w, s, id, Chosen(MostRecentFinished(s.rows)), k, bytes);
      case ReadCurrent(id) => ReadCurrentOnCourse(w, s, id, k, bytes);
      case ReadPrevious(id) => ReadPreviousOnCourse(w, s, id, k, bytes);
      case Judge(id, tape) => JudgeOnCourse(w, s, id, tape, k, bytes);
      case Conclude(id, gap) => ConcludeFinishes(w, s, id, gap, k, bytes);
    }
  }

  lemma BegunSame(w: World, s: State, msg: Msg, gap: nat)
    ensures var s' := Begun(w, s, msg, gap);
      s'.rows == s.rows && s'.files == s.files && s'.jobs == s.jobs && s'.history == s.history
  {
    hide PlanOf;
  }

  ghost predicate NoFault(run: seq<Event>) {
    forall e | e in run :: !e.Fault?
  }

  /** As long as no operation of the job fails, a contributor whose stored file deserves it is
      being verified or finished after every run: nothing that other contributors, ticks, late
      uploads or failing handlers do can make the server kick them. */
  lemma {:induction false} DeservingIsFinished(w: World, s: State, run: seq<Event>, k: Key, bytes: Bytes)
    requires Inv(w, s) && OnCourse(w, s, k, bytes) && NoFault(run)
    ensures OnCourse(w, After(w, s, run), k, bytes) || IsFinished(After(w, s, run).rows, k)
  {
    hide Inv, Next, OnCourse, FinishedKept, IsFinished;
    if run != [] {
      var run', e := run[..|run| - 1], run[|run| - 1];
      var t := After(w, s, run');
      DeservingIsFinished(w, s, run', k, bytes);
      RunFrom(w, s, run');
      if OnCourse(w, t, k, bytes) {
        assert e in run;
        NextOnCourse(w, t, e, k, bytes);
      } else {
        NextKeepsFinished(w, t, e);
        FinishedStays(t, Next(w, t, e), k);
      }
    }
  }

  lemma FinishedStays(s: State, s': State, k: Key)
    requires FinishedKept(s, s') && IsFinished(s.rows, k)
    ensures IsFinished(s'.rows, k)
  {
    assert KeptFor(s, s', k);
  }

  /** How a contributor gets on course: the last operation of an upload whose composed file
      deserves it. */
  lemma UploadStartsOnCourse(w: World, s: State, k: Key, hash: string, now: nat, bytes: Bytes)
    requires Inv(w, s) && s.clock < now && UploadingHead(s.rows, k)
    requires Stored(s.files, k) == Some(bytes) && hash == w.hashOf(bytes) && w.parse(bytes) == Accept
    requires AlwaysAccepted(w, bytes, StoredPrevious(s.files, LastKey(s.history)))
    ensures OnCourse(w, Effected(s.(clock := now), FinishAndVerify(k, hash), now).value, k, bytes)
  {
    InvRows(w, s);
    InvJobs(w, s);
    NoOtherTask(s.rows, s.jobs, s.nextJob, k, s.clock);
    FinishUploadTurns(s.rows, k, hash, s.clock, now);
    hide Inv, RowsOk, IsHead;
  }

  lemma InvJobs(w: World, s: State)
    requires Inv(w, s)
    ensures JobsOk(s.rows, s.jobs, s.nextJob)
  {
  }
}
