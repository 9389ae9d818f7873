/** One operation of the server as one event of the state machine. */
module ServerSteps {
  import opened Outcomes
  import opened ContributorsDb
  import opened ContributionFiles
  import opened QueueLaws
  import opened Ceremony
  import opened CeremonyInvariant
  import opened CeremonySteps
  import opened CeremonyEvents
  import opened CeremonyTasks
  import opened CeremonySafety

  lemma AfterOneMore(w: World, s: State, run: seq<Event>, e: Event)
    ensures After(w, s, run + [e]) == Next(w, After(w, s, run), e)
  {
    hide Next;
    var all := run + [e];
    assert all[..|all| - 1] == run;
  }

  /** What a handler has still to do. */
  ghost function Pending(s: State): seq<Effect> {
    if s.handler.None? then [] else s.handler.value.effects
  }

  /** Only operations of the handler and failures have been added. */
  ghost predicate Extended(before: seq<Event>, now: seq<Event>) {
    before <= now && forall i | |before| <= i < |now| :: now[i].Perform? || now[i].Abort?
  }

  /** Just `n` operations of the handler have been added. */
  ghost predicate Stepped(before: seq<Event>, now: seq<Event>, n: nat) {
    |now| == |before| + n && before <= now && forall i | |before| <= i < |now| :: now[i].Perform?
  }

  /** An effect of the handler has been carried out; after the last one the mutex is free. */
  ghost predicate Carried(s: State, s': State) {
    && Pending(s) != [] && Pending(s') == Pending(s)[1..] && s'.history == s.history
    && (Pending(s') == [] ==> s'.handler.None?)
  }

  ghost predicate SameStorage(s: State, t: State) {
    s.rows == t.rows && s.files == t.files && s.jobs == t.jobs && s.nextJob == t.nextJob && s.clock == t.clock
  }

  lemma BeginStep(w: World, clock: nat, run: seq<Event>, msg: Msg, gap: nat)
    requires After(w, Initial(clock), run).handler.None?
    ensures var s, s' := After(w, Initial(clock), run), After(w, Initial(clock), run + [Begin(msg, gap)]);
      && SameStorage(s', s.(clock := s.clock + 1 + gap))
      && Pending(s') == PlanOf(w.config, s.rows, msg, s.clock + 1 + gap).effects
      && (Pending(s') == [] ==> s'.handler.None?)
      && MostRecentFinished(s.rows) == LastKey(s'.history)
      && RowsOk(s.rows, s.clock)
  {
    hide PlanOf, After, RowsOk, MostRecentFinished, JobsOk;
    var s := After(w, Initial(clock), run);
    AfterOneMore(w, Initial(clock), run, Begin(msg, gap));
    RunKeeps(w, clock, run);
    LatestIsLast(w, s.rows, s.files, s.history, s.clock);
  }

  /** What the query for the most recently finished contributor finds. */
  lemma LatestFound(w: World, clock: nat, run: seq<Event>, r: Option<Key>)
    requires var rows := After(w, Initial(clock), run).rows;
      (r.None? <==> MostRecentFinished(rows).None?) && (r.Some? ==> IsLatest(rows, r.value))
    ensures r == LastKey(After(w, Initial(clock), run).history)
  {
    hide After, RowsOk, MostRecentFinished, IsLatest, JobsOk;
    var s := After(w, Initial(clock), run);
    RunKeeps(w, clock, run);
    LatestIsLast(w, s.rows, s.files, s.history, s.clock);
    if r.Some? {
      LatestKnown(s.rows, r.value, s.clock);
    }
  }

  lemma LatestKnown(rows: Rows, k: Key, clock: nat)
    requires RowsOk(rows, clock) && IsLatest(rows, k)
    ensures MostRecentFinished(rows) == Some(k)
  {
    LatestIs(rows, k, clock);
  }

  /** The events of one request: its begin, then operations and failures of its handler. */
  ghost predicate Served(before: seq<Event>, now: seq<Event>, msg: Msg, gap: nat) {
    && |before| < |now| && before <= now && now[|before|] == Begin(msg, gap)
    && forall i | |before| < i < |now| :: now[i].Perform? || now[i].Abort?
  }

  /** Every planned effect has been carried out and the planned answer given; or, with an excuse,
      one of them has not and the answer is an error of the server. */
  ghost predicate AsPlanned(plan: Plan, start: seq<Event>, now: seq<Event>, r: Response, excused: bool) {
    || (r == plan.response && Stepped(start, now, |plan.effects|))
    || (r == Refused(InternalServerError) && excused && plan.effects != [] && Extended(start, now))
  }

  ghost predicate Answered(config: Config, rows: Rows, clock: nat, msg: Msg, before: seq<Event>, now: seq<Event>, r: Response, excused: bool) {
    exists gap :: Served(before, now, msg, gap)
      && AsPlanned(PlanOf(config, rows, msg, clock + 1 + gap), before + [Begin(msg, gap)], now, r, excused)
  }

  lemma AnsweredBy(config: Config, rows: Rows, clock: nat, msg: Msg, before: seq<Event>, now: seq<Event>, r: Response, excused: bool, time: nat)
    requires time > clock
    requires AsPlanned(PlanOf(config, rows, msg, time), before + [Begin(msg, time - clock - 1)], now, r, excused)
    ensures Answered(config, rows, clock, msg, before, now, r, excused)
  {
    hide PlanOf;
    var start := before + [Begin(msg, time - clock - 1)];
    assert now[|before|] == start[|before|];
    assert now[..|before|] == start[..|before|] == before;
    assert Served(before, now, msg, time - clock - 1);
  }

  /** The last message of an upload passes the check and finds a part missing; the time in the
      expected step does not matter. */
  ghost predicate LacksParts(rows: Rows, files: Files, k: Key, finished: bool) {
    finished && k in rows && CheckCorrectState(Position(rows, k), rows[k], UploadStarted(0)).Proceed? && !AllParts(files, k)
  }

  lemma LacksPartsAt(rows: Rows, files: Files, k: Key, now: nat)
    requires k in rows && CheckCorrectState(Position(rows, k), rows[k], UploadStarted(now)).Proceed?
    ensures LacksParts(rows, files, k, true) <==> !AllParts(files, k)
  {
    hide AllParts, Position;
  }

  /** The status request after its touch, given the position and who finished last. */
  function StatusOf(k: Key, row: Row, position: nat, previous: Option<Key>): Plan {
    match row.status
    case DidntJoinQueue => Plan([], Status(DidntJoin))
    case Kicked => Plan([], Status(WasKicked(row.kickedError)))
    case Finished => Plan([], Status(FinishedContributing))
    case Queued =>
      if position > 0 then Plan([], Status(WaitingInQueue(position)))
      else HeadPlan(k, row.Step(), previous)
  }

  lemma StatusTouches(config: Config, rows: Rows, k: Key, now: nat)
    requires k in rows
    ensures var rest := StatusOf(k, rows[k], Position(rows, k), MostRecentFinished(rows));
      PlanOf(config, rows, GetStatus(k), now) == Plan([Write(k, Touch)] + rest.effects, rest.response)
  {
    hide HeadPlan, MostRecentFinished, Position;
  }

  ghost predicate DownloadBegun(rows: Rows, rows': Rows, k: Key, begins: bool, now: nat) {
    rows' == if begins then Updated(rows, k, StartDownload, now) else rows
  }

  /** The touch and the rest make up the plan. */
  lemma AfterTouch(plan: Plan, touch: Effect, run: seq<Event>, run1: seq<Event>, run2: seq<Event>, r: Response, excused: bool)
    requires Stepped(run, run1, 1) && AsPlanned(plan, run1, run2, r, excused)
    ensures AsPlanned(Plan([touch] + plan.effects, plan.response), run, run2, r, excused)
  {
  }

  /** What a finished upload leaves behind: the row is marked, and the parts have become the whole. */
  ghost predicate UploadDone(rows: Rows, rows': Rows, files: Files, files': Files, k: Key, hash: string, now: nat) {
    rows' == Updated(rows, k, FinishUpload(hash), now) && Finalized(files, files', k)
  }

  /** What a tick leaves behind, by the effects it has for the head. */
  ghost predicate Ticked(rows: Rows, rows': Rows, effects: seq<Effect>, k: Key, now: nat) {
    if effects == [] then rows' == rows
    else
      match effects[0]
      case Write(_, move) => rows' == Updated(rows, k, move, now)
      case KickCurrent(reason) => rows' == Updated(rows, k, Kick(reason), now)
      case _ => false
  }

  lemma FinalizeLength(k: Key)
    ensures |FinalizeUpload(k)| == PARALLEL_UPLOAD_PARTS + 1
  {
  }

  lemma LastFileExists(w: World, clock: nat, run: seq<Event>)
    ensures var s := After(w, Initial(clock), run); LastKey(s.history).Some? ==> Whole(LastKey(s.history).value) in s.files
  {
    hide After, RowsOk, JobsOk;
    var s := After(w, Initial(clock), run);
    RunKeeps(w, clock, run);
    if s.history != [] {
      assert EntryOk(w, s.rows, s.files, s.history, |s.history| - 1);
    }
  }

  lemma AbortStep(w: World, clock: nat, run: seq<Event>)
    requires After(w, Initial(clock), run).handler.Some?
    ensures var s, s' := After(w, Initial(clock), run), After(w, Initial(clock), run + [Abort]);
      SameStorage(s', s) && s'.handler.None? && s'.history == s.history
  {
    hide After;
    AfterOneMore(w, Initial(clock), run, Abort);
  }

  lemma PerformStep(w: World, clock: nat, run: seq<Event>, gap: nat)
    requires Pending(After(w, Initial(clock), run)) != []
    ensures var s, s' := After(w, Initial(clock), run), After(w, Initial(clock), run + [Perform(gap)]);
      var now := s.clock + 1 + gap;
      var t := Effected(s.(clock := now), Pending(s)[0], now);
      t.Some? ==> Carried(s, s') && SameStorage(s', t.value)
  {
    hide After, Effected;
    var s := After(w, Initial(clock), run);
    AfterOneMore(w, Initial(clock), run, Perform(gap));
    RunKeeps(w, clock, run);
    PerformKeepsFinished(w, s, gap);
  }

  lemma WriteEffect(s: State, k: Key, move: Move, now: nat)
    ensures Effected(s.(clock := now), Write(k, move), now) == Some(s.(clock := now, rows := Updated(s.rows, k, move, now)))
  {
  }

  lemma RequireEffect(s: State, o: Object, now: nat)
    requires o in s.files
    ensures Effected(s.(clock := now), Require(o), now) == Some(s.(clock := now))
  {
  }

  lemma ComposeEffect(s: State, k: Key, now: nat)
    requires AllParts(s.files, k)
    ensures Effected(s.(clock := now), Compose(k), now) == Some(s.(clock := now, files := AfterCompose(s.files, k)))
  {
  }

  lemma FinishEffect(s: State, k: Key, hash: string, now: nat)
    ensures Effected(s.(clock := now), FinishAndVerify(k, hash), now) == Some(s.(clock := now,
      rows := Updated(s.rows, k, FinishUpload(hash), now), jobs := s.jobs[s.nextJob := Job(k, hash, Spawned)], nextJob := s.nextJob + 1))
  {
  }

  /** A kick that a tick has decided on finds the head. */
  lemma KickEffect(w: World, clock: nat, run: seq<Event>, reason: KickReason, now: nat)
    requires Pending(After(w, Initial(clock), run)) != [] && Pending(After(w, Initial(clock), run))[0] == KickCurrent(reason)
    ensures var s := After(w, Initial(clock), run);
      && Current(s.rows).Some?
      && (forall k :: IsHead(s.rows, k) <==> Current(s.rows) == Some(k))
      && Effected(s.(clock := now), KickCurrent(reason), now)
         == Some(s.(clock := now, rows := Updated(s.rows, Current(s.rows).value, Kick(reason), now)))
  {
    hide After, RowsOk, Updated, IsHead, Current, Inv;
    var s := After(w, Initial(clock), run);
    RunKeeps(w, clock, run);
    InvRows(w, s);
    HeadsAreCurrent(s.rows, s.clock);
    PendingKick(w, s, reason);
  }

  lemma HeadsAreCurrent(rows: Rows, clock: nat)
    requires RowsOk(rows, clock)
    ensures forall j :: IsHead(rows, j) <==> Current(rows) == Some(j)
  {
    forall j ensures IsHead(rows, j) <==> Current(rows) == Some(j) {
      CurrentIs(rows, j, clock);
    }
  }

  lemma PendingKick(w: World, s: State, reason: KickReason)
    requires Inv(w, s) && Pending(s) != [] && Pending(s)[0] == KickCurrent(reason)
    ensures exists k :: IsHead(s.rows, k)
  {
    hide RowsOk, IsHead, JobsOk, HistoryOk;
    FirstIsOk(s.rows, s.files, Pending(s));
  }

  // ---- Many removals ----

  function Performs(n: nat): (r: seq<Event>)
    ensures |r| == n && forall e | e in r :: e == Perform(0)
  {
    seq(n, _ => Perform(0))
  }

  /** The first effects that are pending remove these objects, one each. */
  ghost predicate Removing(effects: seq<Effect>, os: seq<Object>) {
    |os| <= |effects| && forall i | 0 <= i < |os| :: effects[i] == Drop(os[i]) || effects[i] == Delete(os[i])
  }

  lemma UploadPlanRemoves(k: Key)
    ensures Removing(UploadPlan(k), UploadObjects(k)) && |UploadPlan(k)| == PARALLEL_UPLOAD_PARTS + 1
    ensures forall i | 0 <= i < |UploadPlan(k)| :: UploadPlan(k)[i].Drop?
  {
  }

  lemma FinalizeRemoves(k: Key, rest: seq<Effect>)
    ensures var effects := FinalizeUpload(k) + rest;
      && effects[0] == Compose(k)
      && Removing(effects[1..], PartObjects(k))
      && effects[1..][PARALLEL_UPLOAD_PARTS..] == rest && |effects| == PARALLEL_UPLOAD_PARTS + 1 + |rest|
  {
    var effects := FinalizeUpload(k) + rest;
    forall i | 0 <= i < PARALLEL_UPLOAD_PARTS ensures effects[1..][i] == Delete(PartObjects(k)[i]) {
      assert FinalizeUpload(k)[i + 1] == Delete(Part(k, i));
    }
  }

  lemma PartsStay(files: Files, k: Key, n: nat)
    requires AllParts(files, k) && n <= PARALLEL_UPLOAD_PARTS
    ensures forall i | 0 <= i < n :: PartObjects(k)[i] in Dropped(AfterCompose(files, k), PartObjects(k), i)
  {
    forall i | 0 <= i < n ensures PartObjects(k)[i] in Dropped(AfterCompose(files, k), PartObjects(k), i) {
      DroppedKeeps(AfterCompose(files, k), PartObjects(k), i, PartObjects(k)[i]);
    }
  }

  /** As many removals as have been made are as many events of the machine. */
  lemma {:induction false} RemovalSteps(w: World, clock: nat, run: seq<Event>, os: seq<Object>, n: nat)
    requires var s := After(w, Initial(clock), run);
      n <= |os| && Removing(Pending(s), os)
      && forall i | 0 <= i < n :: Pending(s)[i].Delete? ==> os[i] in Dropped(s.files, os, i)
    ensures var s, s' := After(w, Initial(clock), run), After(w, Initial(clock), run + Performs(n));
      && SameStorage(s', s.(clock := s.clock + n, files := Dropped(s.files, os, n)))
      && Pending(s') == Pending(s)[n..] && s'.history == s.history
      && (n > 0 && Pending(s') == [] ==> s'.handler.None?)
  {
    hide After, Effected;
    var s := After(w, Initial(clock), run);
    if n == 0 {
      assert run + Performs(0) == run;
    } else {
      RemovalSteps(w, clock, run, os, n - 1);
      var run' := run + Performs(n - 1);
      var s' := After(w, Initial(clock), run');
      assert run' + [Perform(0)] == run + Performs(n);
      assert Pending(s')[0] == Pending(s)[n - 1];
      PerformStep(w, clock, run', 0);
      RemovalEffect(s', Pending(s')[0], os[n - 1], s'.clock + 1);
    }
  }

  lemma RemovalEffect(s: State, effect: Effect, o: Object, now: nat)
    requires effect == Drop(o) || (effect == Delete(o) && o in s.files)
    ensures Effected(s.(clock := now), effect, now) == Some(s.(clock := now, files := s.files - {o}))
  {
  }

  /** Composing an upload and deleting its parts, as far as it has come. */
  lemma FinalizeSteps(w: World, clock: nat, run: seq<Event>, k: Key, rest: seq<Effect>, done: nat)
    requires var s := After(w, Initial(clock), run);
      Pending(s) == FinalizeUpload(k) + rest && rest != [] && done <= PARALLEL_UPLOAD_PARTS + 1 && (done > 0 ==> AllParts(s.files, k))
    ensures var s, s' := After(w, Initial(clock), run), After(w, Initial(clock), run + Performs(done));
      && SameStorage(s', s.(clock := s.clock + done,
           files := if done == 0 then s.files else Dropped(AfterCompose(s.files, k), PartObjects(k), done - 1)))
      && s'.handler.Some? && s'.history == s.history
      && (done == PARALLEL_UPLOAD_PARTS + 1 ==> Pending(s') == rest)
  {
    hide After, Effected, FinalizeUpload, AfterCompose, Dropped;
    var s := After(w, Initial(clock), run);
    FinalizeRemoves(k, rest);
    if done == 0 {
      assert run + Performs(0) == run;
    } else {
      PerformStep(w, clock, run, 0);
      ComposeEffect(s, k, s.clock + 1);
      PartsStay(s.files, k, done - 1);
      RemovalSteps(w, clock, run + [Perform(0)], PartObjects(k), done - 1);
      assert run + [Perform(0)] + Performs(done - 1) == run + Performs(done);
    }
  }

  // ---- Verification jobs ----

  /** An event of this job; it fails on its way only when the storage has failed. */
  ghost predicate OfTask(e: Event, id: nat, faulted: bool) {
    match e
    case ChoosePrevious(i) => i == id
    case ReadCurrent(i) => i == id
    case ReadPrevious(i) => i == id
    case Judge(i, _) => i == id
    case Fault(i) => i == id && faulted
    case Conclude(i, _) => i == id
    case _ => false
  }

  /** Only events of this job have been added. */
  ghost predicate TaskExtended(before: seq<Event>, now: seq<Event>, id: nat, faulted: bool) {
    before <= now && forall i | |before| <= i < |now| :: OfTask(now[i], id, faulted)
  }

  /** The file of a job is there, and so is the previous one, which parses. */
  lemma TaskFilesExist(w: World, clock: nat, run: seq<Event>, id: nat)
    requires id in After(w, Initial(clock), run).jobs
    ensures var s := After(w, Initial(clock), run); var progress := s.jobs[id].progress;
      && Stored(s.files, s.jobs[id].key).Some?
      && StoredPrevious(s.files, LastKey(s.history)).Some? == LastKey(s.history).Some?
      && (LastKey(s.history).Some? ==> w.parse(StoredPrevious(s.files, LastKey(s.history)).value) == Accept)
      && (progress.Chosen? || progress.HasCurrent? || progress.HasBoth? ==> progress.previous == LastKey(s.history))
      && MostRecentFinished(s.rows) == LastKey(s.history)
  {
    hide After, RowsOk, MostRecentFinished;
    var s := After(w, Initial(clock), run);
    RunKeeps(w, clock, run);
    LatestIsLast(w, s.rows, s.files, s.history, s.clock);
    TaskData(w, s, id);
    if s.history != [] {
      assert EntryOk(w, s.rows, s.files, s.history, |s.history| - 1);
    }
  }

  // ---- What a job makes of the files ----

  /** What reading the uploaded file comes to: nothing else than its hash and its parse decide. */
  ghost predicate UploadRead(w: World, files: Files, job: Job, progress: Progress, crashed: bool)
    requires job.progress.Chosen?
  {
    Stored(files, job.key).Some?
    && var bytes := Stored(files, job.key).value;
    if w.hashOf(bytes) != job.hash then !crashed && progress == Failed
    else
      match w.parse(bytes)
      case Accept => !crashed && progress == HasCurrent(job.progress.previous, bytes)
      case Reject => !crashed && progress == Failed
      case Crash => crashed
  }

  /** The verdict of a whole job: the hash, then the parse, then the verification. */
  ghost function TaskVerdict(w: World, files: Files, job: Job, previous: Option<Key>, tape: seq<nat>): Verdict {
    if Stored(files, job.key).None? || w.hashOf(Stored(files, job.key).value) != job.hash then Reject
    else if w.parse(Stored(files, job.key).value) != Accept then w.parse(Stored(files, job.key).value)
    else w.verdict(Stored(files, job.key).value, StoredPrevious(files, previous), tape)
  }

  lemma VerdictOfRead(w: World, files: Files, job: Job, progress: Progress, crashed: bool, tape: seq<nat>)
    requires job.progress.Chosen?
    ensures UploadRead(w, files, job, progress, crashed) ==>
      && (crashed ==> TaskVerdict(w, files, job, job.progress.previous, tape) == Crash)
      && (!crashed && progress == Failed ==> TaskVerdict(w, files, job, job.progress.previous, tape) == Reject)
      && (!crashed && progress != Failed ==>
            && progress.HasCurrent? && progress.previous == job.progress.previous
            && TaskVerdict(w, files, job, job.progress.previous, tape)
               == w.verdict(progress.bytes, StoredPrevious(files, job.progress.previous), tape))
  {
  }

  /** The verdict does not depend on how far the job is. */
  lemma VerdictOfJob(w: World, files: Files, job: Job, progress: Progress, previous: Option<Key>, tape: seq<nat>)
    ensures TaskVerdict(w, files, job.(progress := progress), previous, tape) == TaskVerdict(w, files, job, previous, tape)
  {
  }

  /** What a verdict does to the job. */
  ghost predicate Judged(verdict: Verdict, progress: Progress, crashed: bool) {
    match verdict
    case Accept => !crashed && progress.Passed?
    case Reject => !crashed && progress == Failed
    case Crash => crashed
  }

  /** The storage with another progress of the job. */
  ghost predicate Progressed(s: State, s': State, id: nat, progress: Progress) {
    && id in s.jobs && s'.jobs == s.jobs[id := s.jobs[id].(progress := progress)]
    && s'.rows == s.rows && s'.files == s.files && s'.nextJob == s.nextJob && s'.clock == s.clock && s'.handler == s.handler
  }

  lemma ChooseStep(w: World, clock: nat, run: seq<Event>, id: nat)
    requires CanHappen(After(w, Initial(clock), run), ChoosePrevious(id))
    ensures var s, s' := After(w, Initial(clock), run), After(w, Initial(clock), run + [ChoosePrevious(id)]);
      Progressed(s, s', id, Chosen(LastKey(s.history)))
  {
    hide After, RowsOk, JobsOk, MostRecentFinished;
    var s := After(w, Initial(clock), run);
    AfterOneMore(w, Initial(clock), run, ChoosePrevious(id));
    RunKeeps(w, clock, run);
    LatestIsLast(w, s.rows, s.files, s.history, s.clock);
  }

  lemma FaultStep(w: World, clock: nat, run: seq<Event>, id: nat)
    requires CanHappen(After(w, Initial(clock), run), Fault(id))
    ensures Progressed(After(w, Initial(clock), run), After(w, Initial(clock), run + [Fault(id)]), id, Failed)
  {
    hide After;
    AfterOneMore(w, Initial(clock), run, Fault(id));
  }

  lemma ReadCurrentStep(w: World, clock: nat, run: seq<Event>, id: nat)
    requires var s := After(w, Initial(clock), run);
      CanHappen(s, ReadCurrent(id)) && Whole(s.jobs[id].key) in s.files
    ensures var s, s' := After(w, Initial(clock), run), After(w, Initial(clock), run + [ReadCurrent(id)]);
      var bytes := s.files[Whole(s.jobs[id].key)];
      if w.hashOf(bytes) != s.jobs[id].hash || w.parse(bytes) == Reject then Progressed(s, s', id, Failed)
      else w.parse(bytes) == Accept ==> Progressed(s, s', id, HasCurrent(s.jobs[id].progress.previous, bytes))
  {
    hide After;
    AfterOneMore(w, Initial(clock), run, ReadCurrent(id));
  }

  lemma ReadPreviousStep(w: World, clock: nat, run: seq<Event>, id: nat)
    requires var s := After(w, Initial(clock), run);
      CanHappen(s, ReadPrevious(id)) && (s.jobs[id].progress.previous.Some? ==> Whole(s.jobs[id].progress.previous.value) in s.files)
    ensures var s, s' := After(w, Initial(clock), run), After(w, Initial(clock), run + [ReadPrevious(id)]);
      var HasCurrent(previous, bytes) := s.jobs[id].progress;
      if previous.None? then Progressed(s, s', id, HasBoth(previous, bytes, None))
      else
        var previousBytes := s.files[Whole(previous.value)];
        && (w.parse(previousBytes) == Accept ==> Progressed(s, s', id, HasBoth(previous, bytes, Some(previousBytes))))
        && (w.parse(previousBytes) == Reject ==> Progressed(s, s', id, Failed))
  {
    hide After;
    AfterOneMore(w, Initial(clock), run, ReadPrevious(id));
  }

  lemma JudgeStep(w: World, clock: nat, run: seq<Event>, id: nat, tape: seq<nat>)
    requires CanHappen(After(w, Initial(clock), run), Judge(id, tape))
    ensures var s, s' := After(w, Initial(clock), run), After(w, Initial(clock), run + [Judge(id, tape)]);
      var HasBoth(previous, bytes, previousBytes) := s.jobs[id].progress;
      && (w.verdict(bytes, previousBytes, tape) == Accept ==> Progressed(s, s', id, Passed(previous, bytes, previousBytes, tape)))
      && (w.verdict(bytes, previousBytes, tape) == Reject ==> Progressed(s, s', id, Failed))
  {
    hide After;
    AfterOneMore(w, Initial(clock), run, Judge(id, tape));
  }

  /** The contributor of the job is the only one that the query for the current one can return. */
  lemma ConcludeStep(w: World, clock: nat, run: seq<Event>, id: nat, gap: nat)
    requires CanHappen(After(w, Initial(clock), run), Conclude(id, gap))
    ensures var s, s' := After(w, Initial(clock), run), After(w, Initial(clock), run + [Conclude(id, gap)]);
      var k, now := s.jobs[id].key, s.clock + 1 + gap;
      var move := if s.jobs[id].progress.Passed? then FinishVerify else Kick(VerificationFailed);
      && k in s.rows && Current(s.rows) == Some(k) && (forall j :: IsHead(s.rows, j) <==> j == k)
      && s'.rows == Updated(s.rows, k, move, now) && s'.files == s.files && s'.clock == now
      && s'.jobs == s.jobs - {id} && s'.nextJob == s.nextJob && s'.handler == s.handler
      && ConcludedRows(s.rows, s'.rows, k, s.jobs[id].progress.Passed?, now)
  {
    hide After, RowsOk, Current, IsHead, Updated, ConcludedRows;
    var s := After(w, Initial(clock), run);
    AfterOneMore(w, Initial(clock), run, Conclude(id, gap));
    RunKeeps(w, clock, run);
    TaskConcludesItsOwn(w, s, id);
    InvRows(w, s);
    HeadsAreCurrent(s.rows, s.clock);
    CurrentExists(s.rows);
    HeadIsQueued(s.rows, s.jobs[id].key);
    ConcludedStatus(s.rows, s.jobs[id].key, s.clock + 1 + gap);
  }

  /** The end of a job in the fields of the row: finished, or kicked for the verification. */
  ghost predicate ConcludedRows(rows: Rows, rows': Rows, k: Key, passed: bool, now: nat) {
    && k in rows
    && rows' == rows[k :=
         if passed then rows[k].(status := Finished, finishedVerifyAt := Some(now), updatedTimestamp := now)
         else rows[k].(status := Status.Kicked, kickedAt := Some(now), kickedError := Some(VerificationFailed), updatedTimestamp := now)]
  }

  lemma ConcludedStatus(rows: Rows, k: Key, now: nat)
    requires k in rows
    ensures ConcludedRows(rows, Updated(rows, k, FinishVerify, now), k, true, now)
    ensures ConcludedRows(rows, Updated(rows, k, Kick(VerificationFailed), now), k, false, now)
  {
  }
}
