/** Every event keeps the invariant. */
module CeremonySteps {
  import opened Outcomes
  import opened ContributorsDb
  import opened ContributionFiles
  import opened QueueLaws
  import opened Ceremony
  import opened CeremonyInvariant

  // ---- Writes ----

  lemma StepKept(rows: Rows, k: Key, move: Move, now: nat, j: Key)
    requires j in rows && (j != k || move.Touch? || move.Register?)
    ensures Updated(rows, k, move, now)[j].Step() == rows[j].Step()
    ensures Updated(rows, k, move, now)[j].contributionHash == rows[j].contributionHash
    ensures Updated(rows, k, move, now)[j].finishedVerifyAt == rows[j].finishedVerifyAt
    ensures Updated(rows, k, move, now)[j].status == rows[j].status
  {
  }

  /** The writes that leave the finished and the one being verified alone. */
  ghost predicate HarmlessWrite(rows: Rows, k: Key, move: Move) {
    Enabled(rows, k, move) && (NamedWrite(move) || (move.Kick? && !VerifyingHead(rows, k)))
  }

  lemma HarmlessVerifying(rows: Rows, k: Key, move: Move, clock: nat, now: nat, j: Key)
    requires RowsOk(rows, clock) && HarmlessWrite(rows, k, move) && clock < now
    ensures VerifyingHead(Updated(rows, k, move, now), j) <==> VerifyingHead(rows, j)
    ensures VerifyingHead(rows, j) ==> Updated(rows, k, move, now)[j].contributionHash == rows[j].contributionHash
    ensures VerifyingHead(rows, j) ==> Updated(rows, k, move, now)[j].finishedVerifyAt == rows[j].finishedVerifyAt
  {
    hide RowOk;
    var rows' := Updated(rows, k, move, now);
    if KeepsQueue(move) {
      QueueKept(rows, k, move, now);
      if j in rows && (j != k || move.Touch? || move.Register?) {
        StepKept(rows, k, move, now, j);
      }
    } else if move.Join? {
      JoinedVerifying(rows, k, clock, now, j);
    } else {
      KickedVerifying(rows, k, move, clock, now, j);
    }
  }

  lemma JoinedVerifying(rows: Rows, k: Key, clock: nat, now: nat, j: Key)
    requires RowsOk(rows, clock) && Enabled(rows, k, Join) && clock < now
    ensures VerifyingHead(Updated(rows, k, Join, now), j) <==> VerifyingHead(rows, j)
    ensures VerifyingHead(rows, j) ==> Updated(rows, k, Join, now)[j] == rows[j]
  {
    var rows' := Updated(rows, k, Join, now);
    Joined(rows, k, clock, now);
    assert RowOk(rows[k], clock);
    if j != k && VerifyingHead(rows', j) {
      assert IsQueued(rows, j);
      QueuedStarted(rows, j, clock);
    }
  }

  lemma QueuedStarted(rows: Rows, j: Key, clock: nat)
    requires RowsOk(rows, clock) && IsQueued(rows, j)
    ensures rows[j].Step() != DownloadNotStarted ==> IsHead(rows, j)
  {
    assert RowOk(rows[j], clock);
  }

  lemma KickedVerifying(rows: Rows, k: Key, move: Move, clock: nat, now: nat, j: Key)
    requires RowsOk(rows, clock) && IsHead(rows, k) && !VerifyingHead(rows, k) && move.Kick?
    ensures !VerifyingHead(Updated(rows, k, move, now), j) && !VerifyingHead(rows, j)
  {
    hide RowOk;
    if IsHead(rows, j) {
      HeadUnique(rows, j, k, clock);
    }
    if j != k && IsQueued(rows, j) {
      QueuedStarted(rows, j, clock);
    }
  }

  lemma HarmlessFinished(rows: Rows, k: Key, move: Move, now: nat, j: Key)
    requires HarmlessWrite(rows, k, move)
    ensures IsFinished(Updated(rows, k, move, now), j) <==> IsFinished(rows, j)
    ensures IsFinished(rows, j) ==> Updated(rows, k, move, now)[j].contributionHash == rows[j].contributionHash
    ensures IsFinished(rows, j) ==> Updated(rows, k, move, now)[j].finishedVerifyAt == rows[j].finishedVerifyAt
  {
    if k in rows && !move.Register? && !move.Touch? && !move.Join? {
      assert IsQueued(rows, k);
    }
  }

  lemma HarmlessSteady(rows: Rows, k: Key, move: Move, clock: nat, now: nat)
    requires RowsOk(rows, clock) && HarmlessWrite(rows, k, move) && clock < now
    ensures Steady(rows, Updated(rows, k, move, now))
  {
    hide RowsOk, HarmlessWrite, VerifyingHead, Updated, IsFinished;
    var rows' := Updated(rows, k, move, now);
    forall j ensures VerifyingHead(rows', j) <==> VerifyingHead(rows, j) {
      HarmlessVerifying(rows, k, move, clock, now, j);
    }
    forall j ensures IsFinished(rows', j) <==> IsFinished(rows, j) {
      HarmlessFinished(rows, k, move, now, j);
    }
    forall j | VerifyingHead(rows, j) || IsFinished(rows, j)
      ensures j in rows && j in rows'
      ensures rows'[j].contributionHash == rows[j].contributionHash && rows'[j].finishedVerifyAt == rows[j].finishedVerifyAt
    {
      HarmlessVerifying(rows, k, move, clock, now, j);
      HarmlessFinished(rows, k, move, now, j);
      InTable(rows, j);
      InTable(rows', j);
    }
  }

  lemma InTable(rows: Rows, j: Key)
    ensures VerifyingHead(rows, j) || IsFinished(rows, j) ==> j in rows
  {
  }

  // ---- Files ----

  /** The files of a contributor who is uploading belong to nobody finished or being verified. */
  lemma UploadingFilesKept(rows: Rows, k: Key, files: Files, files': Files, clock: nat)
    requires RowsOk(rows, clock) && UploadingHead(rows, k)
    requires forall j | j != k :: Stored(files', j) == Stored(files, j)
    ensures FilesKept(rows, files, files')
  {
    assert !VerifyingHead(rows, k) && !IsFinished(rows, k);
  }

  // ---- Pending effects ----

  lemma TouchKeepsEnabled(rows: Rows, j: Key, now: nat, k: Key, move: Move)
    requires NamedWrite(move) && Enabled(rows, k, move)
    ensures Enabled(Updated(rows, j, Touch, now), k, move)
  {
    QueueKept(rows, j, Touch, now);
    if k in rows {
      StepKept(rows, j, Touch, now, k);
    }
  }

  lemma HeadsInTable(rows: Rows)
    ensures forall k | IsHead(rows, k) :: k in rows
  {
  }

  lemma TouchKeepsOk(rows: Rows, j: Key, now: nat, effect: Effect)
    requires EffectOk(rows, effect)
    ensures EffectOk(Updated(rows, j, Touch, now), effect)
  {
    hide Updated, IsHead, Enabled;
    var rows' := Updated(rows, j, Touch, now);
    QueueKept(rows, j, Touch, now);
    HeadsInTable(rows);
    match effect
    case Write(k, move) => TouchKeepsEnabled(rows, j, now, k, move);
    case KickCurrent(_) =>
      var k :| IsHead(rows, k) && !VerifyingHead(rows, k);
      StepKept(rows, j, Touch, now, k);
      assert IsHead(rows', k) && !VerifyingHead(rows', k);
    case Drop(o) => StepKept(rows, j, Touch, now, o.key);
    case Delete(o) => StepKept(rows, j, Touch, now, o.key);
    case Require(_) =>
    case Compose(k) => StepKept(rows, j, Touch, now, k);
    case FinishAndVerify(k, _) => StepKept(rows, j, Touch, now, k);
  }

  lemma RestOneDecision(effects: seq<Effect>)
    requires effects != [] && OneDecision(effects)
    ensures OneDecision(effects[1..])
    ensures !Gentle(effects[0]) ==> forall e | e in effects[1..] :: e.Require?
  {
    var rest := effects[1..];
    forall i, j | 0 <= i < j < |rest| && !Gentle(rest[i]) ensures rest[j].Require? {
      assert !Gentle(effects[i + 1]) && effects[j + 1] == rest[j];
    }
    if !Gentle(effects[0]) {
      forall e | e in rest ensures e.Require? {
        var i :| 0 <= i < |rest| && rest[i] == e;
        assert effects[i + 1] == e;
      }
    }
  }

  lemma RestEffectsOk(rows: Rows, rows': Rows, effects: seq<Effect>, now: nat)
    requires effects != [] && OneDecision(effects) && EffectsOk(rows, effects)
    requires Gentle(effects[0]) ==> rows' == rows || (effects[0].Write? && rows' == Updated(rows, effects[0].key, Touch, now))
    ensures EffectsOk(rows', effects[1..])
  {
    hide EffectOk, Updated;
    RestOneDecision(effects);
    forall e | e in effects[1..] ensures EffectOk(rows', e) {
      assert e in effects;
      if !Gentle(effects[0]) {
        RequireOk(rows', e);
      } else if rows' != rows {
        TouchKeepsOk(rows, effects[0].key, now, e);
      }
    }
  }

  lemma RequireOk(rows: Rows, e: Effect)
    requires e.Require?
    ensures EffectOk(rows, e)
  {
  }

  // ---- Plans ----

  ghost predicate PlanIsOk(rows: Rows, files: Files, effects: seq<Effect>) {
    EffectsOk(rows, effects) && OneDecision(effects) && ComposedFirst(files, effects)
  }

  lemma NothingIsOk(rows: Rows, files: Files)
    ensures PlanIsOk(rows, files, [])
  {
  }

  lemma OneEffectIsOk(rows: Rows, files: Files, e: Effect)
    requires EffectOk(rows, e) && !e.FinishAndVerify?
    ensures PlanIsOk(rows, files, [e])
  {
  }

  /** A gentle effect may come before any plan that does not finish an upload. */
  lemma GentleFirst(rows: Rows, files: Files, e: Effect, rest: seq<Effect>)
    requires PlanIsOk(rows, files, rest) && EffectOk(rows, e) && Gentle(e)
    requires forall f | f in rest :: !f.FinishAndVerify?
    ensures PlanIsOk(rows, files, [e] + rest)
    ensures forall f | f in [e] + rest :: !f.FinishAndVerify?
  {
    hide EffectOk;
    var all := [e] + rest;
    forall i, j | 0 <= i < j < |all| && !Gentle(all[i]) ensures all[j].Require? {
      assert all[i] == rest[i - 1] && all[j] == rest[j - 1];
    }
  }

  lemma HeadOfQueue(rows: Rows, k: Key, clock: nat)
    requires RowsOk(rows, clock) && IsQueued(rows, k) && Position(rows, k) == 0
    ensures IsHead(rows, k)
  {
    hide RowOk;
    HeadIsPositionZero(rows, k, clock);
    CurrentIs(rows, k, clock);
  }

  lemma RequirePreviousIsOk(rows: Rows, files: Files, previous: Option<Key>)
    ensures PlanIsOk(rows, files, RequirePrevious(previous))
    ensures forall f | f in RequirePrevious(previous) :: !f.FinishAndVerify?
  {
  }

  lemma UploadPlanIsOk(rows: Rows, files: Files, k: Key)
    requires UploadingHead(rows, k)
    ensures PlanIsOk(rows, files, UploadPlan(k))
    ensures forall f | f in UploadPlan(k) :: !f.FinishAndVerify?
  {
    hide IsHead;
    var plan := UploadPlan(k);
    assert forall e | e in plan :: e.Drop? && e.target.key == k;
  }

  lemma FinalizeIsOk(rows: Rows, files: Files, k: Key, hash: string)
    requires UploadingHead(rows, k)
    ensures PlanIsOk(rows, files, FinalizeUpload(k) + [FinishAndVerify(k, hash)])
  {
    hide IsHead;
    var plan := FinalizeUpload(k) + [FinishAndVerify(k, hash)];
    assert forall i | 1 <= i <= PARALLEL_UPLOAD_PARTS :: plan[i] == Delete(Part(k, i - 1));
    assert plan[0] == Compose(k) && plan[PARALLEL_UPLOAD_PARTS + 1] == FinishAndVerify(k, hash);
  }

  lemma HeadStatusIsOk(rows: Rows, files: Files, k: Key, clock: nat)
    requires RowsOk(rows, clock) && IsQueued(rows, k) && Position(rows, k) == 0
    ensures var plan := PlanHeadStatus(rows, k);
      && PlanIsOk(rows, files, plan.effects)
      && (forall f | f in plan.effects :: !f.FinishAndVerify?)
      && !plan.response.Refused?
  {
    hide IsHead, RowsOk;
    HeadOfQueue(rows, k, clock);
    QueuedNotFinished(rows, k, clock);
    var previous := MostRecentFinished(rows);
    hide MostRecentFinished, PlanIsOk;
    RequirePreviousIsOk(rows, files, previous);
    NothingIsOk(rows, files);
    match rows[k].Step()
    case DownloadNotStarted => StartDownloadFirst(rows, files, k, previous);
    case DownloadStarted(_) =>
    case ComputeStarted(_) =>
    case UploadStarted(_) => UploadPlanIsOk(rows, files, k);
    case Verifying =>
  }

  lemma QueuedNotFinished(rows: Rows, k: Key, clock: nat)
    requires RowsOk(rows, clock) && IsQueued(rows, k)
    ensures rows[k].Step() != VerifyFinished
  {
    assert RowOk(rows[k], clock);
  }

  lemma StartDownloadFirst(rows: Rows, files: Files, k: Key, previous: Option<Key>)
    requires IsHead(rows, k) && rows[k].Step() == DownloadNotStarted
    ensures PlanIsOk(rows, files, [Write(k, StartDownload)] + RequirePrevious(previous))
  {
    hide IsHead;
  }

  lemma StatusIsOk(rows: Rows, files: Files, k: Key, clock: nat)
    requires RowsOk(rows, clock)
    ensures PlanIsOk(rows, files, PlanStatus(rows, k).effects)
    ensures k in rows ==> !PlanStatus(rows, k).response.Refused?
  {
    hide RowsOk, PlanHeadStatus, PlanIsOk;
    NothingIsOk(rows, files);
    if k in rows {
      if IsQueued(rows, k) && Position(rows, k) == 0 {
        HeadStatusIsOk(rows, files, k, clock);
        GentleFirst(rows, files, Write(k, Touch), PlanHeadStatus(rows, k).effects);
      } else {
        GentleFirst(rows, files, Write(k, Touch), []);
      }
    }
  }

  /** `check_correct_state` lets through only the queued head in the expected step, although
      every row that is not queued has position zero, and its expectation never fails. It tells
      exactly those who were kicked or wait behind the head that their turn is gone. */
  lemma CheckPassesIff(rows: Rows, k: Key, expected: ContributionStep, clock: nat)
    requires RowsOk(rows, clock) && k in rows
    requires expected.DownloadStarted? || expected.ComputeStarted? || expected.UploadStarted?
    ensures CheckCorrectState(Position(rows, k), rows[k], expected) != Panics
    ensures CheckCorrectState(Position(rows, k), rows[k], expected) == Proceed
       <==> IsHead(rows, k) && SameVariant(rows[k].Step(), expected)
    ensures CheckCorrectState(Position(rows, k), rows[k], expected) == Refuse(Gone)
       <==> rows[k].status == Status.Kicked || (IsQueued(rows, k) && !IsHead(rows, k))
  {
    assert RowOk(rows[k], clock);
    if IsQueued(rows, k) {
      HeadIsPositionZero(rows, k, clock);
      CurrentIs(rows, k, clock);
    }
  }

  lemma ProgressIsOk(rows: Rows, files: Files, k: Key, expected: ContributionStep, finished: bool, next: seq<Effect>, clock: nat)
    requires RowsOk(rows, clock)
    requires expected.DownloadStarted? || expected.ComputeStarted? || expected.UploadStarted?
    requires k in rows && IsHead(rows, k) && SameVariant(rows[k].Step(), expected) ==> PlanIsOk(rows, files, next)
    ensures PlanIsOk(rows, files, PlanProgress(rows, k, expected, finished, next).effects)
    ensures PlanProgress(rows, k, expected, finished, next).response != Crashed
  {
    hide RowsOk, PlanIsOk, IsHead;
    NothingIsOk(rows, files);
    if k in rows {
      CheckPassesIff(rows, k, expected, clock);
      OneEffectIsOk(rows, files, Write(k, Touch));
    }
  }

  lemma TickIsOk(config: Config, rows: Rows, files: Files, now: nat, clock: nat)
    requires RowsOk(rows, clock)
    ensures PlanIsOk(rows, files, PlanTick(config, rows, now).effects)
    ensures |PlanTick(config, rows, now).effects| <= 1
  {
    CurrentExists(rows);
    NothingIsOk(rows, files);
    hide RowsOk, PlanIsOk, IsHead, Current;
    if Current(rows).Some? {
      var k := Current(rows).value;
      QueuedNotFinished(rows, k, clock) by {
        HeadIsQueued(rows, k);
      }
      var effects := TickEffects(config, k, rows[k], now);
      if effects != [] {
        if effects[0].KickCurrent? {
          assert !VerifyingHead(rows, k);
        }
        OneEffectIsOk(rows, files, effects[0]);
        assert effects == [effects[0]];
      }
    }
  }

  lemma HeadIsQueued(rows: Rows, k: Key)
    requires IsHead(rows, k)
    ensures IsQueued(rows, k)
  {
  }

  lemma JoinIsOk(config: Config, rows: Rows, files: Files, k: Key)
    ensures PlanIsOk(rows, files, PlanJoin(config, rows, k).effects)
  {
  }

  /** Whatever the message, every effect that the handler has planned may be made. No message
      about a registered contributor runs into a failed expectation, and a status request is
      never answered with the error about an inconsistent table. */
  lemma PlanHolds(config: Config, rows: Rows, files: Files, msg: Msg, now: nat, clock: nat)
    requires RowsOk(rows, clock)
    ensures PlanIsOk(rows, files, PlanOf(config, rows, msg, now).effects)
    ensures PlanOf(config, rows, msg, now).response != Crashed
    ensures msg.GetStatus? && msg.key in rows ==> !PlanOf(config, rows, msg, now).response.Refused?
  {
    hide PlanIsOk, RowsOk, PlanTick, PlanStatus, PlanProgress, PlanJoin, FinalizeUpload;
    match msg
    case RegisterMsg(k, name, email) =>
      NothingIsOk(rows, files);
      OneEffectIsOk(rows, files, Write(k, Register(name, email)));
    case JoinMsg(k) =>
      JoinIsOk(config, rows, files, k);
      JoinAnswers(config, rows, k);
    case GetStatus(k) =>
      StatusIsOk(rows, files, k, clock);
      StatusAnswers(rows, k);
    case DownloadProgress(k, finished) =>
      if IsHead(rows, k) && SameVariant(rows[k].Step(), DownloadStarted(now)) {
        OneEffectIsOk(rows, files, Write(k, StartCompute));
      }
      ProgressIsOk(rows, files, k, DownloadStarted(now), finished, [Write(k, StartCompute)], clock);
    case ComputeProgress(k, finished) =>
      if IsHead(rows, k) && SameVariant(rows[k].Step(), ComputeStarted(now)) {
        OneEffectIsOk(rows, files, Write(k, StartUpload));
      }
      ProgressIsOk(rows, files, k, ComputeStarted(now), finished, [Write(k, StartUpload)], clock);
    case UploadProgress(k, finished, hash) =>
      if IsHead(rows, k) && SameVariant(rows[k].Step(), UploadStarted(now)) {
        FinalizeIsOk(rows, files, k, hash);
      }
      ProgressIsOk(rows, files, k, UploadStarted(now), finished, FinalizeUpload(k) + [FinishAndVerify(k, hash)], clock);
    case Tick =>
      TickIsOk(config, rows, files, now, clock);
      TickAnswers(config, rows, now);
  }

  lemma JoinAnswers(config: Config, rows: Rows, k: Key)
    ensures PlanJoin(config, rows, k).response != Crashed
  {
  }

  lemma StatusAnswers(rows: Rows, k: Key)
    ensures PlanStatus(rows, k).response != Crashed
  {
  }

  lemma TickAnswers(config: Config, rows: Rows, now: nat)
    ensures PlanTick(config, rows, now).response == Done
  {
  }
}
