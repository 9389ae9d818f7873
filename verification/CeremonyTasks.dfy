/** The events outside the mutex keep the invariant, and so does the end of a verification. */
module CeremonyTasks {
  import opened Outcomes
  import opened Octets
  import opened ContributorsDb
  import opened ContributionFiles
  import opened QueueLaws
  import opened Ceremony
  import opened CeremonyInvariant
  import opened CeremonySteps
  import opened CeremonyEvents

  // ---- Uploads and foreign deletions ----

  lemma ComposedFirstKept(files: Files, files': Files, effects: seq<Effect>)
    requires ComposedFirst(files, effects)
    requires effects != [] && effects[|effects| - 1].FinishAndVerify? ==>
      Stored(files', effects[|effects| - 1].key) == Stored(files, effects[|effects| - 1].key)
    ensures ComposedFirst(files', effects)
  {
  }

  lemma OtherFilesKeep(w: World, s: State, files': Files)
    requires Inv(w, s)
    requires forall k | k in s.rows :: Stored(files', k) == Stored(s.files, k)
    ensures Inv(w, s.(files := files'))
  {
    hide JobsOk, AllJobData, HistoryOk, VerifyingStored, RowsOk, Stored, OneDecision, ComposedFirst, EffectsOk, EffectOk;
    CoreOf(w, s);
    RegisteredFiles(s.rows, s.files, files');
    FilesChangeKeeps(w, s, files', s.clock);
    if s.handler.Some? {
      var effects := s.handler.value.effects;
      PendingKeyRegistered(s.rows, effects);
      ComposedFirstKept(s.files, files', effects);
    }
  }

  lemma PendingKeyRegistered(rows: Rows, effects: seq<Effect>)
    requires EffectsOk(rows, effects)
    ensures forall e | e in effects && e.FinishAndVerify? :: e.key in rows
  {
    forall e | e in effects && e.FinishAndVerify? ensures e.key in rows {
      assert EffectOk(rows, e);
    }
  }

  lemma RegisteredFiles(rows: Rows, files: Files, files': Files)
    requires forall k | k in rows :: Stored(files', k) == Stored(files, k)
    ensures FilesKept(rows, files, files')
  {
    hide Stored;
  }

  // ---- Verification jobs ----

  lemma JobChangeKeeps(w: World, s: State, id: nat, progress: Progress)
    requires Inv(w, s) && id in s.jobs
    requires JobData(w, s.files, s.history, s.jobs[id].(progress := progress))
    ensures Inv(w, WithJob(s, id, progress))
  {
    hide RowsOk, HistoryOk, VerifyingStored, JobData, IsHead, HandlerOk, Stored;
    var jobs' := WithJob(s, id, progress).jobs;
    assert JobOk(s.rows, s.jobs[id]);
    forall i | i in jobs' ensures i < s.nextJob && JobOk(s.rows, jobs'[i]) {
      assert JobOk(s.rows, s.jobs[i]);
    }
    assert JobsOk(s.rows, jobs', s.nextJob);
  }

  /** The contributor that the query returns is the last one accepted. */
  lemma LatestIsLast(w: World, rows: Rows, files: Files, history: seq<Verified>, clock: nat)
    requires RowsOk(rows, clock) && HistoryOk(w, rows, files, history)
    ensures MostRecentFinished(rows) == LastKey(history)
  {
    hide RowOk, Stored;
    if history == [] {
      LatestExists(rows);
      assert forall k :: !Listed(history, k);
    } else {
      var n := |history| - 1;
      assert EntryOk(w, rows, files, history, n);
      forall k | k in rows && rows[k].status == Finished
        ensures AtMost(rows[k].finishedVerifyAt, rows[history[n].key].finishedVerifyAt)
      {
        assert IsFinished(rows, k);
        var i :| 0 <= i < |history| && history[i].key == k;
        if i < n {
          assert FinishedBefore(rows, history[i].key, history[n].key);
        } else {
          assert RowOk(rows[k], clock);
          FinishedHasTime(rows, k, clock);
        }
      }
      LatestIs(rows, history[n].key, clock);
    }
  }

  lemma FinishedHasTime(rows: Rows, k: Key, clock: nat)
    requires AllRowsOk(rows, clock) && IsFinished(rows, k)
    ensures AtMost(rows[k].finishedVerifyAt, rows[k].finishedVerifyAt)
  {
  }

  lemma ChooseKeeps(w: World, s: State, id: nat)
    requires Inv(w, s) && CanHappen(s, ChoosePrevious(id))
    ensures Inv(w, Next(w, s, ChoosePrevious(id)))
  {
    hide RowsOk, HistoryOk, JobsOk;
    LatestIsLast(w, s.rows, s.files, s.history, s.clock);
    JobChangeKeeps(w, s, id, Chosen(MostRecentFinished(s.rows)));
  }

  lemma TaskData(w: World, s: State, id: nat)
    requires Inv(w, s) && id in s.jobs
    ensures JobData(w, s.files, s.history, s.jobs[id])
    ensures VerifyingHead(s.rows, s.jobs[id].key) && s.rows[s.jobs[id].key].contributionHash == Some(s.jobs[id].hash)
  {
    assert JobOk(s.rows, s.jobs[id]);
  }

  lemma ReadCurrentKeeps(w: World, s: State, id: nat)
    requires Inv(w, s) && CanHappen(s, ReadCurrent(id))
    ensures Inv(w, AfterReadCurrent(w, s, id))
  {
    TaskData(w, s, id);
    hide Inv, VerifyingHead;
    var s' := AfterReadCurrent(w, s, id);
    assert s.jobs[id := s.jobs[id]] == s.jobs;
    JobChangeKeeps(w, s, id, s'.jobs[id].progress);
  }

  lemma ReadPreviousKeeps(w: World, s: State, id: nat)
    requires Inv(w, s) && CanHappen(s, ReadPrevious(id))
    ensures Inv(w, AfterReadPrevious(w, s, id))
  {
    TaskData(w, s, id);
    hide Inv, VerifyingHead;
    var s' := AfterReadPrevious(w, s, id);
    assert s.jobs[id := s.jobs[id]] == s.jobs;
    JobChangeKeeps(w, s, id, s'.jobs[id].progress);
  }

  lemma JudgeKeeps(w: World, s: State, id: nat, tape: seq<nat>)
    requires Inv(w, s) && CanHappen(s, Judge(id, tape))
    ensures Inv(w, AfterJudge(w, s, id, tape))
  {
    TaskData(w, s, id);
    hide Inv, VerifyingHead;
    var s' := AfterJudge(w, s, id, tape);
    assert s.jobs[id := s.jobs[id]] == s.jobs;
    JobChangeKeeps(w, s, id, s'.jobs[id].progress);
  }

  // ---- The end of a verification ----

  /** Whoever is current when a job ends is the contributor of the job, and is still being
      verified: the job cannot finish or kick anybody else, and it finds somebody to conclude. */
  lemma TaskConcludesItsOwn(w: World, s: State, id: nat)
    requires Inv(w, s) && id in s.jobs
    ensures Current(s.rows) == Some(s.jobs[id].key)
    ensures s.rows[s.jobs[id].key].Step() == Verifying && s.rows[s.jobs[id].key].contributionHash == Some(s.jobs[id].hash)
    ensures s.jobs - {id} == map[]
  {
    TaskData(w, s, id);
    CurrentIs(s.rows, s.jobs[id].key, s.clock);
  }

  /** After the head has left, nobody is being verified. */
  lemma NobodyVerifying(rows: Rows, k: Key, move: Move, clock: nat, now: nat, j: Key)
    requires RowsOk(rows, clock) && IsHead(rows, k) && (move.FinishVerify? || move.Kick?)
    ensures !VerifyingHead(Updated(rows, k, move, now), j)
  {
    hide RowOk;
    if j != k && IsQueued(rows, j) {
      QueuedStarted(rows, j, clock);
      if IsHead(rows, j) {
        HeadUnique(rows, j, k, clock);
      }
    }
  }

  lemma HeadsAway(rows: Rows, k: Key, move: Move, clock: nat, now: nat)
    requires RowsOk(rows, clock) && IsHead(rows, k) && (move.FinishVerify? || move.Kick?)
    ensures forall j :: !VerifyingHead(Updated(rows, k, move, now), j)
  {
    hide RowsOk, IsHead, VerifyingHead, Updated;
    forall j ensures !VerifyingHead(Updated(rows, k, move, now), j) {
      NobodyVerifying(rows, k, move, clock, now, j);
    }
  }

  /** The finished ones after the head has been kicked. */
  lemma KickedHistory(w: World, s: State, k: Key, reason: KickReason, now: nat)
    requires HistoryOk(w, s.rows, s.files, s.history) && IsHead(s.rows, k)
    ensures HistoryOk(w, Updated(s.rows, k, Kick(reason), now), s.files, s.history)
  {
    hide HistoryOk;
    HistoryCarried(w, s.rows, Updated(s.rows, k, Kick(reason), now), s.files, s.history);
  }

  ghost predicate FinishGrows(rows: Rows, rows': Rows, k: Key, now: nat) {
    && (forall j :: IsFinished(rows', j) <==> j == k || IsFinished(rows, j))
    && (forall j | IsFinished(rows, j) :: rows'[j] == rows[j])
    && k in rows' && rows'[k].finishedVerifyAt == Some(now)
  }

  lemma FinishedOneMore(rows: Rows, k: Key, now: nat)
    requires IsHead(rows, k)
    ensures FinishGrows(rows, Updated(rows, k, FinishVerify, now), k, now)
    ensures Updated(rows, k, FinishVerify, now)[k].contributionHash == rows[k].contributionHash
  {
  }

  lemma EarlierFinish(rows: Rows, j: Key, clock: nat, now: nat)
    requires AllRowsOk(rows, clock) && IsFinished(rows, j) && clock < now
    ensures Before(rows[j].finishedVerifyAt, Some(now))
  {
    assert RowOk(rows[j], clock);
  }

  /** The history grows by the contributor who has just been finished. */
  lemma FinishedHistory(w: World, s: State, k: Key, tape: seq<nat>, now: nat)
    requires RowsOk(s.rows, s.clock) && HistoryOk(w, s.rows, s.files, s.history) && IsHead(s.rows, k) && s.clock < now
    requires Stored(s.files, k).Some? && w.parse(Stored(s.files, k).value) == Accept
    requires s.rows[k].contributionHash == Some(w.hashOf(Stored(s.files, k).value))
    requires w.verdict(Stored(s.files, k).value, StoredPrevious(s.files, LastKey(s.history)), tape) == Accept
    ensures HistoryOk(w, Updated(s.rows, k, FinishVerify, now), s.files, s.history + [Verified(k, tape)])
  {
    hide Updated, IsHead, RowOk, Stored;
    var rows' := Updated(s.rows, k, FinishVerify, now);
    var history' := s.history + [Verified(k, tape)];
    FinishedOneMore(s.rows, k, now);
    HeadIsQueued(s.rows, k);
    forall i | 0 <= i < |history'| ensures EntryOk(w, rows', s.files, history', i) {
      if i < |s.history| {
        EntryCarried(w, s.rows, rows', s.files, s.history, k, tape, now, i);
      } else {
        assert history'[i] == Verified(k, tape) && PreviousKey(history', i) == LastKey(s.history);
      }
    }
    forall i, j | 0 <= i < j < |history'| ensures FinishedBefore(rows', history'[i].key, history'[j].key) {
      assert EntryOk(w, s.rows, s.files, s.history, i);
      if j < |s.history| {
        assert EntryOk(w, s.rows, s.files, s.history, j);
        assert FinishedBefore(s.rows, s.history[i].key, s.history[j].key);
      } else {
        EarlierFinish(s.rows, history'[i].key, s.clock, now);
      }
    }
    FinishedAreListed(s.rows, rows', s.history, k, tape, now);
  }

  lemma EntryCarried(w: World, rows: Rows, rows': Rows, files: Files, history: seq<Verified>, k: Key, tape: seq<nat>, now: nat, i: nat)
    requires i < |history| && EntryOk(w, rows, files, history, i) && FinishGrows(rows, rows', k, now)
    ensures EntryOk(w, rows', files, history + [Verified(k, tape)], i)
  {
    hide Stored;
    var history' := history + [Verified(k, tape)];
    assert history'[i] == history[i] && PreviousKey(history', i) == PreviousKey(history, i);
  }

  lemma FinishedAreListed(rows: Rows, rows': Rows, history: seq<Verified>, k: Key, tape: seq<nat>, now: nat)
    requires FinishGrows(rows, rows', k, now) && forall j | IsFinished(rows, j) :: Listed(history, j)
    ensures forall j | IsFinished(rows', j) :: Listed(history + [Verified(k, tape)], j)
  {
    var history' := history + [Verified(k, tape)];
    forall j | IsFinished(rows', j) ensures Listed(history', j) {
      if j == k {
        assert history'[|history|].key == k;
      } else {
        var i :| 0 <= i < |history| && history[i].key == j;
        assert history'[i].key == j;
      }
    }
  }

  lemma ConcludeKeeps(w: World, s: State, id: nat, gap: nat)
    requires Inv(w, s) && CanHappen(s, Conclude(id, gap))
    ensures Inv(w, Concluded(s, id, gap))
  {
    hide HistoryOk, Updated, IsHead, RowsOk, Stored, StoredPrevious;
    var now := s.clock + 1 + gap;
    var s' := Concluded(s, id, gap);
    TaskConcludesItsOwn(w, s, id);
    TaskData(w, s, id);
    var k := s.jobs[id].key;
    var progress := s.jobs[id].progress;
    if progress.Passed? {
      MoveKeepsAll(s.rows, k, FinishVerify, s.clock, now);
      HeadsAway(s.rows, k, FinishVerify, s.clock, now);
      FinishedHistory(w, s, k, progress.tape, now);
    } else {
      MoveKeepsAll(s.rows, k, Kick(VerificationFailed), s.clock, now);
      HeadsAway(s.rows, k, Kick(VerificationFailed), s.clock, now);
      KickedHistory(w, s, k, VerificationFailed, now);
    }
  }

  // ---- All events ----

  /** Every event keeps the invariant. */
  lemma NextKeeps(w: World, s: State, e: Event)
    requires Inv(w, s)
    ensures Inv(w, Next(w, s, e))
  {
    hide Inv, Stored, Begun, Performed, Concluded, AfterReadCurrent, AfterReadPrevious, AfterJudge, WithJob;
    if CanHappen(s, e) {
      match e
      case Begin(msg, gap) => BeginKeeps(w, s, msg, gap);
      case Perform(gap) => PerformKeeps(w, s, gap);
      case Abort => AbortKeeps(w, s);
      case PutPart(k, i, bytes) =>
        PutStored(s.files, k, i, bytes);
        OtherFilesKeep(w, s, s.files[Part(k, i) := bytes]);
      case DropForeign(o) =>
        DropStored(s.rows, s.files, o);
        OtherFilesKeep(w, s, s.files - {o});
      case ChoosePrevious(id) => ChooseKeeps(w, s, id);
      case ReadCurrent(id) => ReadCurrentKeeps(w, s, id);
      case ReadPrevious(id) => ReadPreviousKeeps(w, s, id);
      case Judge(id, tape) => JudgeKeeps(w, s, id, tape);
      case Fault(id) => FaultKeeps(w, s, id);
      case Conclude(id, gap) => ConcludeKeeps(w, s, id, gap);
    }
  }

  lemma AbortKeeps(w: World, s: State)
    requires Inv(w, s)
    ensures Inv(w, Released(s))
  {
  }

  lemma FaultKeeps(w: World, s: State, id: nat)
    requires Inv(w, s) && id in s.jobs
    ensures Inv(w, WithJob(s, id, Failed))
  {
    hide Inv;
    JobChangeKeeps(w, s, id, Failed);
  }

  lemma PutStored(files: Files, k: Key, i: nat, bytes: Bytes)
    ensures forall j :: Stored(files[Part(k, i) := bytes], j) == Stored(files, j)
  {
  }

  lemma DropStored(rows: Rows, files: Files, o: Object)
    requires o.key !in rows
    ensures forall k | k in rows :: Stored(files - {o}, k) == Stored(files, k)
  {
  }

  /** The invariant holds after every run. */
  lemma {:induction false} RunKeeps(w: World, clock: nat, run: seq<Event>)
    ensures Inv(w, After(w, Initial(clock), run))
  {
    hide Inv, Next;
    if run == [] {
      InitialInv(w, clock);
    } else {
      RunKeeps(w, clock, run[..|run| - 1]);
      NextKeeps(w, After(w, Initial(clock), run[..|run| - 1]), run[|run| - 1]);
    }
  }
}
