/** What an answer of the server means for the table, in the fields of the rows. */
module ServerOutcomes {
  import opened Outcomes
  import opened ContributorsDb
  import opened ContributionFiles
  import opened QueueLaws
  import opened Ceremony
  import opened CeremonySteps
  import opened ServerSteps

  // ---- Answers ----

  /** The planned answer, or, with an excuse and something to do, an error of the server. */
  ghost predicate AnsweredPlan(plan: Plan, r: Response, excused: bool) {
    r == plan.response || (r == Refused(InternalServerError) && excused && plan.effects != [])
  }

  // ---- Registering and joining ----

  /** A registration succeeds exactly for a new key; the row has the name, the email and the time,
      and nothing else. */
  ghost predicate RegisterOutcome(rows: Rows, rows': Rows, k: Key, name: string, email: string, r: Response, faulted: bool, now: nat) {
    && (r == Done || r == Refused(InternalServerError))
    && (r == Done ==> k !in rows) && (k !in rows && !faulted ==> r == Done)
    && rows' == if r == Done then
         rows[k := Row(name, email, now, DidntJoinQueue, None, None, None, None, None, None, None, None, None)]
       else rows
  }

  lemma RegisterMeans(config: Config, rows: Rows, rows': Rows, k: Key, name: string, email: string, r: Response, faulted: bool, time: nat, now: nat)
    requires AnsweredPlan(PlanOf(config, rows, RegisterMsg(k, name, email), time), r, faulted)
    requires rows' == if r == Done then Updated(rows, k, Move.Register(name, email), now) else rows
    ensures RegisterOutcome(rows, rows', k, name, email, r, faulted, now)
  {
  }

  predicate MayJoin(config: Config, rows: Rows, k: Key) {
    !config.stopped && k in rows && (rows[k].status == DidntJoinQueue || rows[k].status == Status.Kicked)
  }

  /** Joining succeeds exactly while the ceremony is open, for the registered who never joined or
      were kicked; everything about an earlier turn is cleared. */
  ghost predicate JoinOutcome(config: Config, rows: Rows, rows': Rows, k: Key, r: Response, faulted: bool, now: nat) {
    && (MayJoin(config, rows, k) ==> r == Done || (r == Refused(InternalServerError) && faulted))
    && (!MayJoin(config, rows, k) ==>
          r == Refused(if config.stopped then Forbidden else if k !in rows then InternalServerError else BadRequest))
    && rows' == if r == Done && k in rows then
         rows[k := Row(rows[k].name, rows[k].email, now, Queued, Some(now), None, None, None, None, None, None, None, rows[k].finishedVerifyAt)]
       else rows
  }

  lemma JoinMeans(config: Config, rows: Rows, rows': Rows, k: Key, r: Response, faulted: bool, time: nat, now: nat)
    requires AnsweredPlan(PlanOf(config, rows, JoinMsg(k), time), r, faulted)
    requires rows' == if r == Done then Updated(rows, k, Join, now) else rows
    ensures JoinOutcome(config, rows, rows', k, r, faulted, now)
  {
  }

  // ---- Progress messages ----

  predicate Downloading(row: Row) {
    row.startedDownloadAt.Some? && row.startedComputeAt.None?
  }

  predicate Computing(row: Row) {
    row.startedComputeAt.Some? && row.startedUploadAt.None?
  }

  predicate Uploading(row: Row) {
    row.startedUploadAt.Some? && row.finishedUploadAt.None?
  }

  /** The answer to a progress message: it succeeds exactly for the head in the expected step; the
      kicked and those who wait are told that their turn is gone. */
  ghost predicate ProgressAnswer(rows: Rows, k: Key, expected: bool, r: Response, excused: bool) {
    && (IsHead(rows, k) && expected ==> r == Done || (r == Refused(InternalServerError) && excused))
    && (!(IsHead(rows, k) && expected) ==>
          r == Refused(
            if k !in rows then InternalServerError
            else if rows[k].status == Status.Kicked || (IsQueued(rows, k) && !IsHead(rows, k)) then Gone
            else BadRequest))
  }

  /** The head's latest timestamp is that of the step it is in. */
  lemma StepOfHead(rows: Rows, k: Key, clock: nat)
    requires RowsOk(rows, clock) && IsHead(rows, k)
    ensures rows[k].Step().DownloadStarted? <==> Downloading(rows[k])
    ensures rows[k].Step().ComputeStarted? <==> Computing(rows[k])
    ensures rows[k].Step().UploadStarted? <==> Uploading(rows[k])
    ensures rows[k].Step() == DownloadNotStarted <==> rows[k].startedDownloadAt.None?
    ensures rows[k].Step() == Verifying <==> rows[k].finishedUploadAt.Some?
    ensures rows[k].Step() != VerifyFinished
  {
    hide IsHead;
    HeadIsQueued(rows, k);
    assert RowOk(rows[k], clock);
  }

  lemma ProgressMeans(rows: Rows, k: Key, step: ContributionStep, finished: bool, next: seq<Effect>, expected: bool, r: Response,
      excused: bool, clock: nat)
    requires RowsOk(rows, clock)
    requires step.DownloadStarted? || step.ComputeStarted? || step.UploadStarted?
    requires AnsweredPlan(PlanProgress(rows, k, step, finished, next), r, excused)
    requires k in rows ==> (IsHead(rows, k) && expected <==> IsHead(rows, k) && SameVariant(rows[k].Step(), step))
    ensures ProgressAnswer(rows, k, expected, r, excused)
  {
    hide IsHead, RowsOk, CheckCorrectState;
    InRows(rows, k);
    if k in rows {
      CheckPassesIff(rows, k, step, clock);
      CheckCodes(Position(rows, k), rows[k], step);
    }
  }

  lemma InRows(rows: Rows, k: Key)
    ensures IsHead(rows, k) ==> k in rows
  {
  }

  lemma CheckCodes(pos: nat, row: Row, step: ContributionStep)
    ensures var checked := CheckCorrectState(pos, row, step);
      checked.Refuse? ==> checked.code == Gone || checked.code == BadRequest
  {
  }

  /** What a download message comes to. */
  ghost predicate DownloadOutcome(rows: Rows, rows': Rows, k: Key, finished: bool, r: Response, faulted: bool, now: nat) {
    && ProgressAnswer(rows, k, k in rows && Downloading(rows[k]), r, faulted)
    && rows' ==
       if r != Done || k !in rows then rows
       else if finished then rows[k := rows[k].(startedComputeAt := Some(now), updatedTimestamp := now)]
       else rows[k := rows[k].(updatedTimestamp := now)]
  }

  lemma DownloadMeans(config: Config, rows: Rows, rows': Rows, k: Key, finished: bool, r: Response, faulted: bool, clock: nat, time: nat, now: nat)
    requires RowsOk(rows, clock) && AnsweredPlan(PlanOf(config, rows, DownloadProgress(k, finished), time), r, faulted)
    requires rows' == if r == Done then Updated(rows, k, if finished then StartCompute else Touch, now) else rows
    ensures DownloadOutcome(rows, rows', k, finished, r, faulted, now)
  {
    hide RowsOk, IsHead, PlanProgress, ProgressAnswer;
    if IsHead(rows, k) {
      StepOfHead(rows, k, clock);
    }
    ProgressMeans(rows, k, DownloadStarted(time), finished, [Write(k, StartCompute)], k in rows && Downloading(rows[k]), r, faulted, clock);
  }

  /** What a compute message comes to. */
  ghost predicate ComputeOutcome(rows: Rows, rows': Rows, k: Key, finished: bool, r: Response, faulted: bool, now: nat) {
    && ProgressAnswer(rows, k, k in rows && Computing(rows[k]), r, faulted)
    && rows' ==
       if r != Done || k !in rows then rows
       else if finished then rows[k := rows[k].(startedUploadAt := Some(now), updatedTimestamp := now)]
       else rows[k := rows[k].(updatedTimestamp := now)]
  }

  lemma ComputeMeans(config: Config, rows: Rows, rows': Rows, k: Key, finished: bool, r: Response, faulted: bool, clock: nat, time: nat, now: nat)
    requires RowsOk(rows, clock) && AnsweredPlan(PlanOf(config, rows, ComputeProgress(k, finished), time), r, faulted)
    requires rows' == if r == Done then Updated(rows, k, if finished then StartUpload else Touch, now) else rows
    ensures ComputeOutcome(rows, rows', k, finished, r, faulted, now)
  {
    hide RowsOk, IsHead, PlanProgress, ProgressAnswer;
    if IsHead(rows, k) {
      StepOfHead(rows, k, clock);
    }
    ProgressMeans(rows, k, ComputeStarted(time), finished, [Write(k, StartUpload)], k in rows && Computing(rows[k]), r, faulted, clock);
  }

  /** What an upload message comes to: the last one needs every part, and makes them the whole. */
  ghost predicate UploadOutcome(rows: Rows, rows': Rows, files: Files, files': Files, k: Key, finished: bool, hash: string, r: Response,
    faulted: bool, now: nat)
  {
    && ProgressAnswer(rows, k, k in rows && Uploading(rows[k]), r, faulted || (finished && !AllParts(files, k)))
    && rows' == (
       if r != Done || k !in rows then rows
       else if finished then rows[k := rows[k].(finishedUploadAt := Some(now), updatedTimestamp := now, contributionHash := Some(hash))]
       else rows[k := rows[k].(updatedTimestamp := now)])
    && (r == Done && finished ==> Finalized(files, files', k))
    && (!finished ==> files' == files)
  }

  lemma UploadMeans(config: Config, rows: Rows, rows': Rows, files: Files, files': Files, k: Key, finished: bool, hash: string, r: Response,
    faulted: bool, clock: nat, time: nat, now: nat)
    requires RowsOk(rows, clock)
    requires AnsweredPlan(PlanOf(config, rows, UploadProgress(k, finished, hash), time), r, faulted || LacksParts(rows, files, k, finished))
    requires r != Done ==> rows' == rows
    requires r == Done && finished ==> UploadDone(rows, rows', files, files', k, hash, now)
    requires r == Done && !finished ==> rows' == Updated(rows, k, Touch, now)
    requires !finished ==> files' == files
    ensures UploadOutcome(rows, rows', files, files', k, finished, hash, r, faulted, now)
  {
    hide RowsOk, IsHead, PlanProgress, ProgressAnswer, FinalizeUpload, AllParts, Finalized;
    if IsHead(rows, k) {
      StepOfHead(rows, k, clock);
    }
    ProgressMeans(rows, k, UploadStarted(time), finished, FinalizeUpload(k) + [FinishAndVerify(k, hash)], k in rows && Uploading(rows[k]),
      r, faulted || (finished && !AllParts(files, k)), clock);
  }

  // ---- Status requests ----

  /** What each answer says about the contributor. */
  ghost predicate StatusIs(rows: Rows, k: Key, answer: StatusResponse)
    requires k in rows
  {
    var row := rows[k];
    match answer
    case DidntJoin => row.status == DidntJoinQueue
    case WasKicked(reason) => row.status == Status.Kicked && reason == row.kickedError && reason.Some?
    case WaitingInQueue(position) => row.status == Queued && !IsHead(rows, k) && position == |Ahead(rows, k)| > 0
    case ReadyToDownloadPrevious(previous) => IsHead(rows, k) && row.startedComputeAt.None? && previous == MostRecentFinished(rows)
    case WaitingForContributionWithPrevious(previous) => IsHead(rows, k) && Computing(row) && previous == MostRecentFinished(rows)
    case ReadyForUpload => IsHead(rows, k) && Uploading(row)
    case ServerVerifying => IsHead(rows, k) && row.finishedUploadAt.Some?
    case FinishedContributing => row.status == Finished
  }

  /** A registered contributor gets an answer, and it is true. */
  lemma StatusMeans(rows: Rows, k: Key, clock: nat)
    requires RowsOk(rows, clock) && k in rows
    ensures PlanStatus(rows, k).response.Status? && StatusIs(rows, k, PlanStatus(rows, k).response.status)
  {
    hide IsHead, MostRecentFinished, RowOk;
    assert RowOk(rows[k], clock);
    KickedHasReason(rows[k], clock);
    if IsQueued(rows, k) {
      HeadIsPositionZero(rows, k, clock);
      CurrentIs(rows, k, clock);
      if IsHead(rows, k) {
        StepOfHead(rows, k, clock);
        StepsInOrder(rows[k], clock);
      }
    }
  }

  lemma KickedHasReason(row: Row, clock: nat)
    requires RowOk(row, clock)
    ensures row.kickedError.Some? <==> row.status == Status.Kicked
  {
  }

  lemma StepsInOrder(row: Row, clock: nat)
    requires RowOk(row, clock)
    ensures row.startedDownloadAt.None? ==> row.startedComputeAt.None?
    ensures row.startedComputeAt.None? ==> row.startedUploadAt.None?
    ensures row.startedUploadAt.None? ==> row.finishedUploadAt.None?
  {
  }

  /** A status request touches the row, whatever the answer, and starts the download of a head who
      has not started; nothing else of the table changes. */
  ghost predicate StatusLeaves(rows: Rows, rows': Rows, k: Key, clock: nat)
    requires k in rows
  {
    && k in rows'
    && rows' == rows[k := rows[k].(updatedTimestamp := rows'[k].updatedTimestamp, startedDownloadAt := rows'[k].startedDownloadAt)]
    && rows'[k].updatedTimestamp > clock
    && if IsHead(rows, k) && rows[k].startedDownloadAt.None? then
         rows'[k].startedDownloadAt.Some? && rows'[k].startedDownloadAt.value > clock
       else rows'[k].startedDownloadAt == rows[k].startedDownloadAt
  }

  /** The registered, and without a fault all of them, get an answer about themselves. */
  ghost predicate StatusOutcome(rows: Rows, rows': Rows, k: Key, r: Response, faulted: bool, clock: nat) {
    && (r.Status? || r == Refused(InternalServerError))
    && (r.Status? ==> k in rows && StatusIs(rows, k, r.status) && StatusLeaves(rows, rows', k, clock))
    && (k in rows && !faulted ==> r.Status?)
    && (k !in rows ==> rows' == rows)
  }

  lemma StatusMeansAll(config: Config, rows: Rows, rows': Rows, k: Key, r: Response, faulted: bool, clock: nat, time: nat)
    requires RowsOk(rows, clock) && AnsweredPlan(PlanOf(config, rows, GetStatus(k), time), r, faulted)
    requires r.Status? && k in rows ==> StatusLeaves(rows, rows', k, clock)
    requires k !in rows ==> rows' == rows
    ensures StatusOutcome(rows, rows', k, r, faulted, clock)
  {
    hide RowsOk, StatusIs, StatusLeaves;
    if k in rows {
      StatusMeans(rows, k, clock);
    }
  }

  lemma UnknownStatus(config: Config, rows: Rows, k: Key, time: nat)
    requires k !in rows
    ensures PlanOf(config, rows, GetStatus(k), time) == Plan([], Refused(InternalServerError))
  {
  }

  /** A touch at one time and, for a head who has not started, the start of the download later. */
  lemma StatusLeft(rows: Rows, rows1: Rows, rows2: Rows, k: Key, clock: nat, touched: nat, started: nat)
    requires RowsOk(rows, clock) && k in rows && clock < touched < started
    requires rows1 == Updated(rows, k, Touch, touched)
    requires rows2 == if IsHead(rows, k) && rows[k].Step() == DownloadNotStarted then Updated(rows1, k, StartDownload, started) else rows1
    ensures StatusLeaves(rows, rows2, k, clock)
  {
    hide RowsOk, IsHead;
    if IsHead(rows, k) {
      StepOfHead(rows, k, clock);
    }
  }

  lemma StatusRows(rows: Rows, rows1: Rows, rows2: Rows, k: Key, clock: nat, touched: nat, started: nat)
    requires RowsOk(rows, clock) && k in rows && clock < touched < started
    requires rows1 == Updated(rows, k, Touch, touched)
    requires rows2 ==
      if rows[k].status == Queued && Position(rows, k) == 0 && rows[k].Step() == DownloadNotStarted then Updated(rows1, k, StartDownload, started)
      else rows1
    ensures StatusLeaves(rows, rows2, k, clock)
  {
    hide RowsOk, IsHead, Position, Updated, StatusLeaves;
    PositionTells(rows, k, clock);
    StatusLeft(rows, rows1, rows2, k, clock, touched, started);
  }

  lemma PositionTells(rows: Rows, k: Key, clock: nat)
    requires RowsOk(rows, clock)
    ensures IsHead(rows, k) <==> IsQueued(rows, k) && Position(rows, k) == 0
  {
    HeadIsPositionZero(rows, k, clock);
    CurrentIs(rows, k, clock);
  }

  // ---- Ticks ----

  /** Not heard of for longer than the ping timeout, and not being verified. */
  predicate Silent(config: Config, row: Row, time: nat) {
    row.finishedUploadAt.None? && time - row.updatedTimestamp > config.pingTimeout
  }

  /** Why a tick at this time may kick the head: silence first, then the timeout of its own step. */
  predicate KickedFor(config: Config, row: Row, time: nat, reason: KickReason) {
    match reason
    case PingTimeout(elapsed) => Silent(config, row, time) && elapsed == time - row.updatedTimestamp
    case DownloadTimeout(elapsed) =>
      !Silent(config, row, time) && Downloading(row) && elapsed == time - row.startedDownloadAt.value > config.downloadTimeout
    case ComputeTimeout(elapsed) =>
      !Silent(config, row, time) && Computing(row) && elapsed == time - row.startedComputeAt.value > config.contributeTimeout
    case UploadTimeout(elapsed) =>
      !Silent(config, row, time) && Uploading(row) && elapsed == time - row.startedUploadAt.value > config.uploadTimeout
    case VerificationFailed => false
  }

  /** Heard of within the ping timeout and within the timeout of the present step, or being verified. */
  predicate Prompt(config: Config, row: Row, time: nat) {
    || row.finishedUploadAt.Some?
    || (time - row.updatedTimestamp <= config.pingTimeout
        && (Downloading(row) ==> time - row.startedDownloadAt.value <= config.downloadTimeout)
        && (Computing(row) ==> time - row.startedComputeAt.value <= config.contributeTimeout)
        && (Uploading(row) ==> time - row.startedUploadAt.value <= config.uploadTimeout))
  }

  /** A tick leaves a prompt head alone, but for starting a download that has not started; any
      other it kicks, with the reason. */
  ghost predicate TickOutcome(config: Config, rows: Rows, rows': Rows, h: Key, time: nat, now: nat)
    requires h in rows
  {
    var row := rows[h];
    if Prompt(config, row, time) then
      rows' == if row.startedDownloadAt.None? then rows[h := row.(startedDownloadAt := Some(now), updatedTimestamp := now)] else rows
    else
      exists reason :: KickedFor(config, row, time, reason)
        && rows' == rows[h := row.(status := Status.Kicked, kickedAt := Some(now), kickedError := Some(reason), updatedTimestamp := now)]
  }

  /** The effects of a tick, in the fields of the head. */
  lemma TickMeans(config: Config, rows: Rows, h: Key, time: nat, clock: nat)
    requires RowsOk(rows, clock) && IsHead(rows, h)
    ensures var effects := TickEffects(config, h, rows[h], time);
      if Prompt(config, rows[h], time) then effects == if rows[h].startedDownloadAt.None? then [Write(h, StartDownload)] else []
      else |effects| == 1 && effects[0].KickCurrent? && KickedFor(config, rows[h], time, effects[0].reason)
  {
    hide IsHead, RowsOk;
    StepOfHead(rows, h, clock);
    HeadIsQueued(rows, h);
    RowIsOk(rows, h, clock);
    StepsInOrder(rows[h], clock);
  }

  lemma RowIsOk(rows: Rows, k: Key, clock: nat)
    requires RowsOk(rows, clock) && IsHead(rows, k)
    ensures RowOk(rows[k], clock)
  {
  }

  /** With nobody queued a tick does nothing. */
  ghost predicate TickOutcomes(config: Config, rows: Rows, rows': Rows, time: nat, now: nat) {
    && (forall h | IsHead(rows, h) :: TickOutcome(config, rows, rows', h, time, now))
    && ((forall h :: !IsQueued(rows, h)) ==> rows' == rows)
  }

  lemma TickLeaves(config: Config, rows: Rows, rows': Rows, h: Key, time: nat, clock: nat, now: nat)
    requires RowsOk(rows, clock) && IsHead(rows, h)
    requires Ticked(rows, rows', TickEffects(config, h, rows[h], time), h, now)
    ensures TickOutcomes(config, rows, rows', time, now)
  {
    hide IsHead, RowsOk, TickEffects, Prompt, KickedFor;
    HeadIsQueued(rows, h);
    HeadsAreCurrent(rows, clock);
    TickMeans(config, rows, h, time, clock);
    if !Prompt(config, rows[h], time) {
      var reason := TickEffects(config, h, rows[h], time)[0].reason;
      assert KickedFor(config, rows[h], time, reason);
    }
  }

  lemma TickDone(config: Config, rows: Rows, rows': Rows, head: Option<Key>, ok: bool, time: nat, clock: nat, now: nat)
    requires RowsOk(rows, clock) && (head.None? <==> Current(rows).None?) && (head.Some? ==> IsHead(rows, head.value))
    requires ok ==>
      if head.None? then rows' == rows
      else head.value in rows && Ticked(rows, rows', TickEffects(config, head.value, rows[head.value], time), head.value, now)
    ensures ok ==> TickOutcomes(config, rows, rows', time, now)
  {
    hide RowsOk, Ticked, TickEffects, TickOutcome;
    CurrentExists(rows);
    HeadsAreCurrent(rows, clock);
    if ok && head.Some? {
      TickLeaves(config, rows, rows', head.value, time, clock, now);
    }
  }
}
